/**
  * The relational pieces the SQL queries are built from, over the table's rows: WHERE, SUM, AVG,
  * MAX/MIN with the row that attains them, and GROUP BY the UTC day. SQL promises no row order, so
  * every contract here speaks of which rows, with what multiplicity, and not of their order.
  */
module Aggregates {
  import opened Wrappers
  import opened Timestamps
  import opened Weather

  /** `WHERE keep(row)`: the rows kept, each as often as it is stored. */
  function Where(rows: seq<Observation>, keep: Observation -> bool): (r: seq<Observation>)
    ensures |r| <= |rows|
    ensures forall o :: o in r <==> o in rows && keep(o)
  {
    if rows == [] then []
    else
      assert rows == [rows[0]] + rows[1..];
      (if keep(rows[0]) then [rows[0]] else []) + Where(rows[1..], keep)
  }

  /** A filter keeps every kept row exactly as often as it is stored, and no other row. */
  lemma {:induction false} WhereCount(rows: seq<Observation>, keep: Observation -> bool)
    ensures forall o :: multiset(Where(rows, keep))[o] == if keep(o) then multiset(rows)[o] else 0
  {
    if rows != [] {
      WhereCount(rows[1..], keep);
      var head: seq<Observation> := if keep(rows[0]) then [rows[0]] else [];
      assert rows == [rows[0]] + rows[1..];
      assert multiset(Where(rows, keep)) == multiset(head) + multiset(Where(rows[1..], keep));
    }
  }

  /** `SUM(f)`, 0 for no rows (the queries only sum non-empty groups, where SQL gives no NULL). */
  function Sum(rows: seq<Observation>, f: Field): (total: real)
    ensures rows == [] ==> total == 0.0
  {
    if rows == [] then 0.0 else Value(rows[0], f) + Sum(rows[1..], f)
  }

  lemma {:induction false} SumAppend(a: seq<Observation>, b: seq<Observation>, f: Field)
    ensures Sum(a + b, f) == Sum(a, f) + Sum(b, f)
  {
    if a == [] {
      assert a + b == b;
    } else {
      assert (a + b)[0] == a[0];
      assert (a + b)[1..] == a[1..] + b;
      SumAppend(a[1..], b, f);
    }
  }

  /** Taking one row out of a sequence takes exactly that row out of its multiset. */
  lemma MultisetWithout<T>(b: seq<T>, i: nat)
    requires i < |b|
    ensures multiset(b[..i] + b[i + 1..]) == multiset(b) - multiset{b[i]}
  {
    assert b == b[..i] + [b[i]] + b[i + 1..];
  }

  /** Taking one row out of a sum subtracts that row's value. */
  lemma SumWithout(b: seq<Observation>, i: nat, f: Field)
    requires i < |b|
    ensures Sum(b, f) == Value(b[i], f) + Sum(b[..i] + b[i + 1..], f)
  {
    assert b == b[..i] + ([b[i]] + b[i + 1..]);
    SumAppend(b[..i], [b[i]] + b[i + 1..], f);
    SumAppend([b[i]], b[i + 1..], f);
    SumAppend(b[..i], b[i + 1..], f);
  }

  /** Taking the first row out of one of two permutations and its copy out of the other leaves permutations. */
  lemma CancelFirst<T>(a: seq<T>, b: seq<T>, i: nat)
    requires a != [] && multiset(a) == multiset(b) && i < |b| && b[i] == a[0]
    ensures multiset(a[1..]) == multiset(b[..i] + b[i + 1..])
  {
    assert a[..0] + a[1..] == a[1..];
    MultisetWithout(a, 0);
    MultisetWithout(b, i);
  }

  /** The first row of a sequence occurs in any permutation of it, and the rest match what remains. */
  lemma PermutationOfTail<T>(a: seq<T>, b: seq<T>) returns (i: nat)
    requires a != [] && multiset(a) == multiset(b)
    ensures i < |b| && b[i] == a[0] && multiset(a[1..]) == multiset(b[..i] + b[i + 1..])
  {
    assert a[0] in multiset(b);
    i :| i < |b| && b[i] == a[0];
    CancelFirst(a, b, i);
  }

  /** A sum depends only on which rows are summed, not on their order, as SQL's SUM does. */
  lemma {:induction false} SumPermutation(a: seq<Observation>, b: seq<Observation>, f: Field)
    requires multiset(a) == multiset(b)
    ensures Sum(a, f) == Sum(b, f)
  {
    if a != [] {
      var i := PermutationOfTail(a, b);
      SumPermutation(a[1..], b[..i] + b[i + 1..], f);
      SumWithout(b, i, f);
    } else {
      assert |b| == |multiset(b)| == 0;
    }
  }

  /** Two filters give the same rows in either order. */
  lemma {:induction false} WhereCommute(rows: seq<Observation>, p: Observation -> bool, q: Observation -> bool)
    ensures Where(Where(rows, p), q) == Where(Where(rows, q), p)
  {
    if rows != [] {
      WhereCommute(rows[1..], p, q);
      var x := rows[0];
      var tail := Where(rows[1..], p);
      var head: seq<Observation> := if p(x) then [x] else [];
      WhereAppend(head, tail, q);
      var tail' := Where(rows[1..], q);
      var head': seq<Observation> := if q(x) then [x] else [];
      WhereAppend(head', tail', p);
    }
  }

  /** Filtering distributes over concatenation. */
  lemma {:induction false} WhereAppend(a: seq<Observation>, b: seq<Observation>, keep: Observation -> bool)
    ensures Where(a + b, keep) == Where(a, keep) + Where(b, keep)
  {
    if a == [] {
      assert a + b == b;
    } else {
      assert (a + b)[0] == a[0];
      assert (a + b)[1..] == a[1..] + b;
      WhereAppend(a[1..], b, keep);
    }
  }

  /** Leaving out rows whose value is zero does not change a sum. */
  lemma {:induction false} SumDropZeros(rows: seq<Observation>, f: Field, keep: Observation -> bool)
    requires forall o :: o in rows && !keep(o) ==> Value(o, f) == 0.0
    ensures Sum(Where(rows, keep), f) == Sum(rows, f)
  {
    if rows != [] {
      SumDropZeros(rows[1..], f, keep);
      var head: seq<Observation> := if keep(rows[0]) then [rows[0]] else [];
      assert Where(rows, keep) == head + Where(rows[1..], keep);
      SumAppend(head, Where(rows[1..], keep), f);
      assert Sum(head, f) == if keep(rows[0]) then Value(rows[0], f) else 0.0;
      assert Sum(rows, f) == Value(rows[0], f) + Sum(rows[1..], f);
    }
  }

  /** The condition `f > 0`. */
  function Positive(f: Field): Observation -> bool {
    (o: Observation) => Value(o, f) > 0.0
  }

  /** The sum of the positive parts max(v, 0) of a column: a reference definition, with no filter. */
  function SumPositivePart(rows: seq<Observation>, f: Field): real {
    if rows == [] then 0.0
    else (if Value(rows[0], f) > 0.0 then Value(rows[0], f) else 0.0) + SumPositivePart(rows[1..], f)
  }

  /** `SUM(f) ... WHERE f > 0` is the sum of the positive parts of the column. */
  lemma {:induction false} SumOfPositives(rows: seq<Observation>, f: Field)
    ensures Sum(Where(rows, Positive(f)), f) == SumPositivePart(rows, f)
  {
    if rows != [] {
      SumOfPositives(rows[1..], f);
      var tail := Where(rows[1..], Positive(f));
      if Value(rows[0], f) > 0.0 {
        assert Where(rows, Positive(f)) == [rows[0]] + tail;
        assert ([rows[0]] + tail)[1..] == tail;
      } else {
        assert Where(rows, Positive(f)) == tail;
      }
    }
  }

  lemma SumNonNegativeIf(rows: seq<Observation>, f: Field)
    ensures (forall o :: o in rows ==> Value(o, f) >= 0.0) ==> Sum(rows, f) >= 0.0
  {
    if forall o :: o in rows ==> Value(o, f) >= 0.0 {
      SumNonNegative(rows, f);
    }
  }

  /** A positive sum has a positive summand. */
  lemma {:induction false} PositiveSumHasPositiveRow(rows: seq<Observation>, f: Field)
    requires Sum(rows, f) > 0.0
    ensures exists o :: o in rows && Value(o, f) > 0.0
  {
    if Value(rows[0], f) <= 0.0 {
      PositiveSumHasPositiveRow(rows[1..], f);
      var o :| o in rows[1..] && Value(o, f) > 0.0;
      assert o in rows;
    }
  }

  /** Bounds on every summand bound the sum. */
  lemma {:induction false} SumWithin(rows: seq<Observation>, f: Field, lo: real, hi: real)
    requires forall o :: o in rows ==> lo <= Value(o, f) <= hi
    ensures lo * (|rows| as real) <= Sum(rows, f) <= hi * (|rows| as real)
  {
    if rows != [] {
      SumWithin(rows[1..], f, lo, hi);
    }
  }

  /** A sum of positive values over at least one row is positive. */
  lemma {:induction false} SumPositive(rows: seq<Observation>, f: Field)
    requires rows != [] && forall o :: o in rows ==> Value(o, f) > 0.0
    ensures Sum(rows, f) > 0.0
  {
    if |rows| > 1 {
      SumPositive(rows[1..], f);
    }
  }

  /** A sum of non-negative values is non-negative, and positive once one summand is. */
  lemma {:induction false} SumNonNegative(rows: seq<Observation>, f: Field)
    requires forall o :: o in rows ==> Value(o, f) >= 0.0
    ensures Sum(rows, f) >= 0.0
    ensures (exists o :: o in rows && Value(o, f) > 0.0) ==> Sum(rows, f) > 0.0
  {
    if rows != [] {
      assert rows[0] in rows;
      assert forall o :: o in rows[1..] ==> o in rows;
      SumNonNegative(rows[1..], f);
      if exists o :: o in rows && Value(o, f) > 0.0 {
        var o :| o in rows && Value(o, f) > 0.0;
        if o != rows[0] {
          assert o in rows[1..];
        }
      }
    }
  }

  /** `MAX(f)` together with a row that attains it (SQLite's bare columns); None over no rows. */
  function Highest(rows: seq<Observation>, f: Field): (r: Option<Observation>)
    ensures r.None? <==> rows == []
    ensures r.Some? ==> r.value in rows && forall o :: o in rows ==> Value(o, f) <= Value(r.value, f)
  {
    if rows == [] then None
    else
      assert rows == [rows[0]] + rows[1..];
      match Highest(rows[1..], f)
      case None => Some(rows[0])
      case Some(best) => if Value(rows[0], f) >= Value(best, f) then Some(rows[0]) else Some(best)
  }

  /** `MIN(f)` together with a row that attains it; None over no rows. */
  function Lowest(rows: seq<Observation>, f: Field): (r: Option<Observation>)
    ensures r.None? <==> rows == []
    ensures r.Some? ==> r.value in rows && forall o :: o in rows ==> Value(r.value, f) <= Value(o, f)
  {
    if rows == [] then None
    else
      assert rows == [rows[0]] + rows[1..];
      match Lowest(rows[1..], f)
      case None => Some(rows[0])
      case Some(best) => if Value(rows[0], f) <= Value(best, f) then Some(rows[0]) else Some(best)
  }

  /** The condition `DATE(dt, 'unixepoch') = day`. */
  function IsOn(day: int): Observation -> bool {
    (o: Observation) => DayOf(o.dt) == day
  }

  /** `WHERE DATE(dt, 'unixepoch') = day`: exactly that day's rows, each as often as it is stored. */
  function OnDay(rows: seq<Observation>, day: int): (r: seq<Observation>)
    ensures forall o :: o in r <==> o in rows && DayOf(o.dt) == day
    ensures forall o :: multiset(r)[o] == if DayOf(o.dt) == day then multiset(rows)[o] else 0
  {
    WhereCount(rows, IsOn(day));
    Where(rows, IsOn(day))
  }

  /** The groups of `GROUP BY DATE(dt, 'unixepoch')`: the days that have at least one row. */
  function DaysOf(rows: seq<Observation>): (days: set<int>)
    ensures forall d :: d in days <==> exists o :: o in rows && DayOf(o.dt) == d
  {
    set o | o in rows :: DayOf(o.dt)
  }

  /** `SUM(f)` of one day's group. */
  function DaySum(rows: seq<Observation>, day: int, f: Field): (total: real)
    ensures (forall o :: o in rows ==> DayOf(o.dt) != day) ==> total == 0.0
    ensures (forall o :: o in rows && DayOf(o.dt) == day ==> Value(o, f) >= 0.0) ==> total >= 0.0
  {
    var group := OnDay(rows, day);
    assert group != [] ==> group[0] in group;
    SumNonNegativeIf(group, f);
    Sum(group, f)
  }

  /**
    * `SELECT day, MAX(score) FROM (... GROUP BY day)`: a day of some row whose score is largest,
    * None when there are no rows. Which of several tied days is returned is not promised.
    */
  function BestDay(rows: seq<Observation>, score: int -> real): (r: Option<int>)
    ensures r.None? <==> rows == []
    ensures r.Some? ==> exists o :: o in rows && DayOf(o.dt) == r.value
    ensures r.Some? ==> forall o :: o in rows ==> score(DayOf(o.dt)) <= score(r.value)
  {
    if rows == [] then None
    else
      assert rows == [rows[0]] + rows[1..];
      var here := DayOf(rows[0].dt);
      match BestDay(rows[1..], score)
      case None => Some(here)
      case Some(best) => if score(here) >= score(best) then Some(here) else Some(best)
  }
}
