/**
  * The two apparent-temperature roll-ups of forecast.py. `highest_apparent_temp` and
  * `average_apparent_temp` average the `apparent_temp` stored with each row; `lowest_apparent_temp`
  * and `apparent_temp_on` apply APPARENT_TEMPERATURE to averaged temperature, humidity and wind.
  * Over forecast.py's own formulas the two agree on days below the heat-index threshold, where the
  * formula is affine, and they can differ above it.
  */
module RollUps {
  import opened Wrappers
  import opened Timestamps
  import opened Metrics
  import opened Weather
  import opened Aggregates
  import opened Averages
  import opened Queries

  /** Summed over rows that forecast.py populated, apparent temperature is heat index minus 1.072 times wind. */
  lemma {:induction false} SumApparent(rows: seq<Observation>, ops: FloatOps)
    requires forall o :: o in rows ==> Derived(o, ForecastFormulas(ops))
    ensures Sum(rows, ApparentTemp) == Sum(rows, HeatIndex) - 1.072 * Sum(rows, Wind)
  {
    if rows != [] {
      assert rows[0] in rows;
      SumApparent(rows[1..], ops);
    }
  }

  lemma MeanOfDifference(a: real, h: real, w: real, n: real)
    requires n > 0.0 && a == h - 1.072 * w
    ensures a / n == h / n - 1.072 * (w / n)
  {
  }

  /**
    * For rows that forecast.py populated, `average_apparent_temp` is `AVG(heat_index)` minus 1.072
    * times `AVG(wind)` over the same window.
    */
  lemma AverageApparentSplits(rows: seq<Observation>, w: Window, ops: FloatOps)
    requires forall o :: o in rows ==> Derived(o, ForecastFormulas(ops))
    ensures FindAvg(rows, w, ApparentTemp).Some? ==>
      FindAvg(rows, w, ApparentTemp).value == FindAvg(rows, w, HeatIndex).value - 1.072 * FindAvg(rows, w, Wind).value
  {
    var s := Selected(rows, w);
    if s != [] {
      SumApparent(s, ops);
      MeanOfDifference(Sum(s, ApparentTemp), Sum(s, HeatIndex), Sum(s, Wind), |s| as real);
    }
  }

  /** A row below the heat-index threshold: its blended estimate is under 80. */
  predicate Mild(o: Observation) {
    BlendedEstimate(o.tempAvg, o.humidity) < 80.0
  }

  /**
    * Summed over mild rows that forecast.py populated, apparent temperature is the affine formula
    * of the summed temperature, humidity and wind, and the summed estimate stays under the threshold.
    */
  lemma {:induction false} SumApparentMild(rows: seq<Observation>, ops: FloatOps)
    requires forall o :: o in rows ==> Derived(o, ForecastFormulas(ops)) && Mild(o)
    ensures Sum(rows, ApparentTemp) ==
      1.05 * Sum(rows, TempAvg) + 0.0235 * Sum(rows, Humidity) - 5.15 * (|rows| as real) - 1.072 * Sum(rows, Wind)
    ensures rows != [] ==>
      1.05 * Sum(rows, TempAvg) + 0.0235 * Sum(rows, Humidity) - 5.15 * (|rows| as real) < 80.0 * (|rows| as real)
  {
    if rows != [] {
      assert rows[0] in rows;
      ApparentBelowThreshold(rows[0].tempAvg, rows[0].humidity, rows[0].wind, ops);
      SumApparentMild(rows[1..], ops);
    }
  }

  lemma BelowWhenScaled(b: real, bound: real, n: real)
    requires n > 0.0 && b * n < bound * n
    ensures b < bound
  {
  }

  lemma MeanOfAffine(a: real, t: real, h: real, w: real, n: real)
    requires n > 0.0
    requires a == 1.05 * t + 0.0235 * h - 5.15 * n - 1.072 * w
    requires 1.05 * t + 0.0235 * h - 5.15 * n < 80.0 * n
    ensures a / n == 1.05 * (t / n) + 0.0235 * (h / n) - 5.15 - 1.072 * (w / n)
    ensures 1.05 * (t / n) + 0.0235 * (h / n) - 5.15 < 80.0
  {
    var tn, hn, wn := t / n, h / n, w / n;
    assert tn * n == t && hn * n == h && wn * n == w;
    var estimate := 1.05 * tn + 0.0235 * hn - 5.15;
    assert estimate * n == 1.05 * (tn * n) + 0.0235 * (hn * n) - 5.15 * n;
    var mean := estimate - 1.072 * wn;
    assert mean * n == estimate * n - 1.072 * (wn * n);
    assert a / n == mean;
    BelowWhenScaled(estimate, 80.0, n);
  }

  /** Over a group of mild rows, the mean of the stored apparent temperatures is the formula of the means. */
  lemma MeanApparentMild(group: seq<Observation>, ops: FloatOps)
    requires group != []
    requires forall o :: o in group ==> Derived(o, ForecastFormulas(ops)) && Mild(o)
    ensures Sum(group, ApparentTemp) / (|group| as real) ==
      ApparentTemperature(
        Sum(group, TempAvg) / (|group| as real),
        Sum(group, Humidity) / (|group| as real),
        Sum(group, Wind) / (|group| as real), ops)
  {
    SumApparentMild(group, ops);
    MeanOfAffine(Sum(group, ApparentTemp), Sum(group, TempAvg), Sum(group, Humidity), Sum(group, Wind), |group| as real);
    ApparentBelowThreshold(
      Sum(group, TempAvg) / (|group| as real),
      Sum(group, Humidity) / (|group| as real),
      Sum(group, Wind) / (|group| as real), ops);
  }

  /**
    * On a day whose rows are all mild, the two roll-ups agree: `apparent_temp_on` gives the same
    * value as averaging the stored `apparent_temp` over that day.
    */
  lemma ApparentTempOnAgrees(rows: seq<Observation>, date: DateTime, ops: FloatOps)
    requires Valid(date)
    requires forall o :: o in rows && DayOf(o.dt) == DateDay(date) ==> Derived(o, ForecastFormulas(ops)) && Mild(o)
    ensures ApparentTempOn(rows, date, ForecastFormulas(ops)).Ok? ==>
      AverageOn(rows, date, ApparentTemp) == Some(ApparentTempOn(rows, date, ForecastFormulas(ops)).value)
  {
    var group := OnDay(rows, DateDay(date));
    if group != [] {
      MeanApparentMild(group, ops);
    }
  }

  lemma SumOfTwo(x: Observation, y: Observation, f: Field)
    ensures Sum([x, y], f) == Value(x, f) + Value(y, f)
  {
    assert [x, y][1..] == [y];
    assert [y][1..] == [];
    assert Sum([y], f) == Value(y, f) + Sum([], f);
  }

  lemma OnDayOfTwo(x: Observation, y: Observation, day: int)
    requires DayOf(x.dt) == day && DayOf(y.dt) == day
    ensures OnDay([x, y], day) == [x, y]
  {
  }

  /** The apparent temperatures at 70, 100 and 85 degrees with no humidity and no wind. */
  lemma ApparentSamples(ops: FloatOps)
    ensures ApparentTemperature(70.0, 0.0, 0.0, ops) == 68.35
    ensures ApparentTemperature(100.0, 0.0, 0.0, ops) == 94.144223
    ensures ApparentTemperature(85.0, 0.0, 0.0, ops) == 82.3839728
  {
  }

  /** Two rows of one day, one mild and one hot, with no humidity and no wind. */
  function MildAndHot(ops: FloatOps): seq<Observation> {
    [ Observation(0, 70.0, 70.0, 70.0, 0.0, 0.0, 0.0, 0.0, 0.0,
        Metrics.WindChill(70.0, 0.0, ops), Metrics.HeatIndex(70.0, 0.0, ops), ApparentTemperature(70.0, 0.0, 0.0, ops)),
      Observation(3600, 100.0, 100.0, 100.0, 0.0, 0.0, 0.0, 0.0, 0.0,
        Metrics.WindChill(100.0, 0.0, ops), Metrics.HeatIndex(100.0, 0.0, ops), ApparentTemperature(100.0, 0.0, 0.0, ops)) ]
  }

  /**
    * Above the threshold the roll-ups are different operations: for two rows of 1970-01-01 at 70
    * and 100 degrees the stored values average to about 81.25, while the formula of the averages
    * (85 degrees) gives about 82.38.
    */
  lemma RollUpsDiffer(ops: FloatOps)
    ensures var rows := MildAndHot(ops);
      (forall o :: o in rows ==> Derived(o, ForecastFormulas(ops))) &&
      DayMean(rows, 0, ApparentTemp) != DayApparent(rows, 0, ForecastFormulas(ops))
  {
    var rows := MildAndHot(ops);
    var x, y := rows[0], rows[1];
    assert rows == [x, y];
    OnDayOfTwo(x, y, 0);
    SumOfTwo(x, y, ApparentTemp);
    SumOfTwo(x, y, TempAvg);
    SumOfTwo(x, y, Humidity);
    SumOfTwo(x, y, Wind);
    ApparentSamples(ops);
    assert DayMean(rows, 0, ApparentTemp) == (68.35 + 94.144223) / 2.0;
    assert DayApparent(rows, 0, ForecastFormulas(ops)) == ApparentTemperature(85.0, 0.0, 0.0, ops);
  }
}
