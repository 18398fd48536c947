/**
  * `AVG` over the rows of a query: the sum over the count, which lies between the column's lowest
  * and highest value.
  */
module Averages {
  import opened Wrappers
  import opened Weather
  import opened Aggregates

  lemma MeanWithin(lo: real, total: real, hi: real, n: real)
    requires n > 0.0 && lo * n <= total <= hi * n
    ensures lo <= total / n <= hi
  {
  }

  /** Bounds on every value of a non-empty column bound its mean. */
  lemma AverageWithin(rows: seq<Observation>, f: Field, lo: real, hi: real)
    requires rows != []
    requires forall o :: o in rows ==> lo <= Value(o, f) <= hi
    ensures lo <= Sum(rows, f) / (|rows| as real) <= hi
  {
    SumWithin(rows, f, lo, hi);
    MeanWithin(lo, Sum(rows, f), hi, |rows| as real);
  }

  /** The mean of a non-empty column, times the count, is the sum, and it lies between two values. */
  lemma MeanFacts(rows: seq<Observation>, f: Field)
    requires rows != []
    ensures (Sum(rows, f) / (|rows| as real)) * (|rows| as real) == Sum(rows, f)
    ensures exists o :: o in rows && Value(o, f) <= Sum(rows, f) / (|rows| as real)
    ensures exists o :: o in rows && Sum(rows, f) / (|rows| as real) <= Value(o, f)
  {
    var lo := Lowest(rows, f).value;
    var hi := Highest(rows, f).value;
    MeanTimesCount(Sum(rows, f), |rows|);
    AverageWithin(rows, f, Value(lo, f), Value(hi, f));
  }

  /** `AVG(f)`: None (SQL NULL) over no rows, otherwise the sum over the count. */
  function Average(rows: seq<Observation>, f: Field): (r: Option<real>)
    ensures r.None? <==> rows == []
    ensures r.Some? ==> r.value * (|rows| as real) == Sum(rows, f)
    ensures r.Some? ==> exists o :: o in rows && Value(o, f) <= r.value
    ensures r.Some? ==> exists o :: o in rows && r.value <= Value(o, f)
  {
    if rows == [] then None
    else
      MeanFacts(rows, f);
      Some(Sum(rows, f) / (|rows| as real))
  }

  lemma MeanTimesCount(total: real, n: nat)
    requires n > 0
    ensures (total / (n as real)) * (n as real) == total
  {
  }

  /** `AVG(f)` of one day's group; only ever asked of days that have rows. */
  function DayMean(rows: seq<Observation>, day: int, f: Field): (mean: real)
    ensures OnDay(rows, day) != [] ==> Average(OnDay(rows, day), f) == Some(mean)
  {
    var group := OnDay(rows, day);
    if group == [] then 0.0 else Sum(group, f) / (|group| as real)
  }
}
