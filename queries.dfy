/**
  * The read-only queries of `Forecast` and `FiveDayForecast`. The two classes run the same SQL on
  * their own `weather` table, so each query is modelled once, as a function of the table's rows;
  * a query of either object is that function applied to `table.rows`.
  *
  * SQL's NULL is `None`. A query whose SQL has a bare column next to MAX or MIN answers with some row
  * that attains the extreme; which one SQLite picks among ties is not promised, and the contracts do
  * not pick one either.
  */
module Queries {
  import opened Wrappers
  import opened Timestamps
  import opened Metrics
  import opened Weather
  import opened Aggregates
  import opened Averages

  // ----- windows: `__time_range` and `dt BETWEEN start AND end` -----

  /** The inclusive range of `dt BETWEEN start AND end`, in epoch seconds; the clock gives fractions. */
  datatype Window = Window(start: real, end: real)

  predicate InWindow(o: Observation, w: Window) {
    w.start <= o.dt as real <= w.end
  }

  function InWindowOf(w: Window): Observation -> bool {
    (o: Observation) => InWindow(o, w)
  }

  /** `timedelta(days=5)`, in seconds. */
  const FiveDays: real := 5.0 * SecondsPerDay as real

  /**
    * `__time_range(start_dt, end_dt)`: a missing start is the current time, a missing end the
    * current time plus five days, and a given datetime is its `timestamp()`. The clock is read
    * as `now`.
    */
  function TimeRange(now: real, start: Option<DateTime>, end: Option<DateTime>): (w: Window)
    requires start.Some? ==> Valid(start.value)
    requires end.Some? ==> Valid(end.value)
    ensures start.None? && end.None? ==> w.end - w.start == FiveDays
    ensures start.None? ==> w.start == now
    ensures end.None? ==> w.end == now + FiveDays
    ensures start.Some? ==> w.start == EpochSeconds(start.value) as real && w.start.Floor as real == w.start
    ensures end.Some? ==> w.end == EpochSeconds(end.value) as real && w.end.Floor as real == w.end
  {
    Window(
      if start.None? then now else EpochSeconds(start.value) as real,
      if end.None? then now + FiveDays else EpochSeconds(end.value) as real)
  }

  /**
    * Which instants a window selects, stated in terms of the arguments: a row whose `dt` is the
    * instant of a datetime t is selected exactly when t is not before the given start (or is at
    * least `now`) and the given end is not before t (or t is at most five days after `now`).
    */
  lemma WindowSelects(now: real, start: Option<DateTime>, end: Option<DateTime>, t: DateTime)
    requires start.Some? ==> Valid(start.value)
    requires end.Some? ==> Valid(end.value)
    requires Valid(t)
    ensures var w := TimeRange(now, start, end); var ts := EpochSeconds(t) as real;
      (w.start <= ts <= w.end) <==>
      (if start.None? then now <= ts else !Before(t, start.value)) &&
      (if end.None? then ts <= now + FiveDays else !Before(end.value, t))
  {
    if start.Some? {
      EpochSecondsOrdered(t, start.value);
    }
    if end.Some? {
      EpochSecondsOrdered(end.value, t);
    }
  }

  /** `WHERE dt BETWEEN start AND end`. */
  function Selected(rows: seq<Observation>, w: Window): (r: seq<Observation>)
    ensures forall o :: o in r <==> o in rows && InWindow(o, w)
  {
    Where(rows, InWindowOf(w))
  }

  // ----- averages, extremes and listings -----

  /**
    * `__find_avg(start_dt, end_dt, field)`: `SELECT AVG(field) ... WHERE dt BETWEEN ...`. It serves
    * `average_rain` (Rain), `average_snow` (Snow), `average_temp` (TempAvg) and, under its own
    * name, `average_apparent_temp` (ApparentTemp).
    */
  function FindAvg(rows: seq<Observation>, w: Window, f: Field): (r: Option<real>)
    ensures r.None? <==> forall o :: o in rows ==> !InWindow(o, w)
    ensures r.Some? ==> exists o :: o in rows && InWindow(o, w) && Value(o, f) <= r.value
    ensures r.Some? ==> exists o :: o in rows && InWindow(o, w) && r.value <= Value(o, f)
    ensures r.Some? ==> r.value == Sum(Selected(rows, w), f) / (|Selected(rows, w)| as real)
  {
    var s := Selected(rows, w);
    assert s != [] ==> s[0] in s;
    Average(s, f)
  }

  /** A reading at an instant: the `{"dt": ..., "temp": ...}` of `highest_temp` and `lowest_temp`. */
  datatype Reading = Reading(dt: int, value: real)

  /** `highest_temp`: `MAX(temp_hi)` over the window, with the `dt` of a row that has it. */
  function HighestTemp(rows: seq<Observation>, w: Window): (r: Option<Reading>)
    ensures r.None? <==> forall o :: o in rows ==> !InWindow(o, w)
    ensures r.Some? ==> exists o :: o in rows && InWindow(o, w) && o.dt == r.value.dt && o.tempHi == r.value.value
    ensures r.Some? ==> forall o :: o in rows && InWindow(o, w) ==> o.tempHi <= r.value.value
  {
    var s := Selected(rows, w);
    assert s != [] ==> s[0] in s;
    match Highest(s, TempHi)
    case None => None
    case Some(o) => Some(Reading(o.dt, o.tempHi))
  }

  /** `lowest_temp`: `MIN(temp_lo)` over the window, with the `dt` of a row that has it. */
  function LowestTemp(rows: seq<Observation>, w: Window): (r: Option<Reading>)
    ensures r.None? <==> forall o :: o in rows ==> !InWindow(o, w)
    ensures r.Some? ==> exists o :: o in rows && InWindow(o, w) && o.dt == r.value.dt && o.tempLo == r.value.value
    ensures r.Some? ==> forall o :: o in rows && InWindow(o, w) ==> r.value.value <= o.tempLo
  {
    var s := Selected(rows, w);
    assert s != [] ==> s[0] in s;
    match Lowest(s, TempLo)
    case None => None
    case Some(o) => Some(Reading(o.dt, o.tempLo))
  }

  /** A value for a calendar day: the `{"dt": DATE(...), ...}` answers. */
  datatype DayReading = DayReading(day: int, value: real)

  /** `DATE(date.timestamp(), 'unixepoch')`: the day number of the date's own calendar day. */
  function DateDay(date: DateTime): (d: int)
    requires Valid(date)
    ensures d == Ordinal(date) - EpochOrdinal
  {
    DayOf(EpochSeconds(date))
  }

  /**
    * `average_temp_on` (TempAvg), `wind_chill_on` (WindChill) and `heat_index_on` (HeatIndex):
    * `AVG(field)` over the rows of the date's UTC day, with that day; None when the day has no rows.
    */
  function AverageOn(rows: seq<Observation>, date: DateTime, f: Field): (r: Option<DayReading>)
    requires Valid(date)
    ensures r.None? <==> forall o :: o in rows ==> DayOf(o.dt) != DateDay(date)
    ensures r.Some? ==> r.value.day == DateDay(date)
    ensures r.Some? ==> exists o :: o in rows && DayOf(o.dt) == DateDay(date) && Value(o, f) <= r.value.value
    ensures r.Some? ==> exists o :: o in rows && DayOf(o.dt) == DateDay(date) && r.value.value <= Value(o, f)
    ensures r.Some? ==> r.value.value == DaySum(rows, DateDay(date), f) / (|OnDay(rows, DateDay(date))| as real)
  {
    var group := OnDay(rows, DateDay(date));
    assert group != [] ==> group[0] in group;
    match Average(group, f)
    case None => None
    case Some(avg) => Some(DayReading(DateDay(date), avg))
  }

  /**
    * `forecast_on` of forecast.py: every stored row of the date's UTC day, each as often as it is
    * stored, and no other row.
    */
  function ForecastOn(rows: seq<Observation>, date: DateTime): (r: seq<Observation>)
    requires Valid(date)
    ensures forall o :: multiset(r)[o] == if DayOf(o.dt) == Ordinal(date) - EpochOrdinal then multiset(rows)[o] else 0
  {
    OnDay(rows, DateDay(date))
  }

  /** `highest_temp_on`: `MAX(temp_hi)` over the date's UTC day. */
  function HighestTempOn(rows: seq<Observation>, date: DateTime): (r: Option<DayReading>)
    requires Valid(date)
    ensures r.None? <==> forall o :: o in rows ==> DayOf(o.dt) != DateDay(date)
    ensures r.Some? ==> r.value.day == DateDay(date)
    ensures r.Some? ==> exists o :: o in rows && DayOf(o.dt) == DateDay(date) && o.tempHi == r.value.value
    ensures r.Some? ==> forall o :: o in rows && DayOf(o.dt) == DateDay(date) ==> o.tempHi <= r.value.value
  {
    var group := OnDay(rows, DateDay(date));
    assert group != [] ==> group[0] in group;
    match Highest(group, TempHi)
    case None => None
    case Some(o) => Some(DayReading(DateDay(date), o.tempHi))
  }

  /** `lowest_temp_on`: the SQL takes `MIN(temp_hi)` (not `temp_lo`) over the date's UTC day. */
  function LowestTempOn(rows: seq<Observation>, date: DateTime): (r: Option<DayReading>)
    requires Valid(date)
    ensures r.None? <==> forall o :: o in rows ==> DayOf(o.dt) != DateDay(date)
    ensures r.Some? ==> r.value.day == DateDay(date)
    ensures r.Some? ==> exists o :: o in rows && DayOf(o.dt) == DateDay(date) && o.tempHi == r.value.value
    ensures r.Some? ==> forall o :: o in rows && DayOf(o.dt) == DateDay(date) ==> r.value.value <= o.tempHi
  {
    var group := OnDay(rows, DateDay(date));
    assert group != [] ==> group[0] in group;
    match Lowest(group, TempHi)
    case None => None
    case Some(o) => Some(DayReading(DateDay(date), o.tempHi))
  }

  // ----- rain and snow per day -----

  /** The rows `rainy_days` and `snowy_days` group: in the window and with a positive amount. */
  function Wet(rows: seq<Observation>, w: Window, f: Field): (r: seq<Observation>)
    ensures forall o :: o in r <==> o in rows && InWindow(o, w) && Value(o, f) > 0.0
  {
    Where(Selected(rows, w), Positive(f))
  }

  /** Every day that has a row with a positive amount has a positive sum. */
  lemma DaySumsPositive(rows: seq<Observation>, f: Field)
    requires forall o :: o in rows ==> Value(o, f) > 0.0
    ensures forall d :: d in DaysOf(rows) ==> DaySum(rows, d, f) > 0.0
  {
    forall d | d in DaysOf(rows)
      ensures DaySum(rows, d, f) > 0.0
    {
      var o :| o in rows && DayOf(o.dt) == d;
      assert o in OnDay(rows, d);
      SumPositive(OnDay(rows, d), f);
    }
  }

  lemma WetDaysOf(rows: seq<Observation>, w: Window, f: Field)
    ensures forall d :: d in DaysOf(Wet(rows, w, f)) <==>
      exists o :: o in rows && InWindow(o, w) && Value(o, f) > 0.0 && DayOf(o.dt) == d
  {
  }

  /**
    * Filtering on `field > 0` and then grouping by day sums, for each day, the positive parts of
    * that day's amounts in the window.
    */
  lemma WetDaySums(rows: seq<Observation>, w: Window, f: Field)
    ensures forall d :: DaySum(Wet(rows, w, f), d, f) == SumPositivePart(OnDay(Selected(rows, w), d), f)
  {
    var s := Selected(rows, w);
    forall d
      ensures DaySum(Wet(rows, w, f), d, f) == SumPositivePart(OnDay(s, d), f)
    {
      WhereCommute(s, Positive(f), IsOn(d));
      SumOfPositives(OnDay(s, d), f);
    }
  }

  /**
    * `rainy_days` (Rain) and `snowy_days` (Snow): `SUM(field)` per UTC day over the window's rows
    * with a positive amount, one entry per day that has such a row. The answer is a list of pairs
    * in no promised order; as a map it keeps which days and which sums.
    */
  function WetDays(rows: seq<Observation>, w: Window, f: Field): (r: map<int, real>)
    ensures forall d :: d in r <==> exists o :: o in rows && InWindow(o, w) && Value(o, f) > 0.0 && DayOf(o.dt) == d
    ensures forall d :: d in r ==> r[d] > 0.0
    ensures forall d :: d in r ==> r[d] == SumPositivePart(OnDay(Selected(rows, w), d), f)
  {
    var wet := Wet(rows, w, f);
    var sums := map d | d in DaysOf(wet) :: DaySum(wet, d, f);
    assert forall d :: d in sums <==> exists o :: o in rows && InWindow(o, w) && Value(o, f) > 0.0 && DayOf(o.dt) == d by {
      WetDaysOf(rows, w, f);
    }
    assert forall d :: d in sums ==> sums[d] > 0.0 by {
      DaySumsPositive(wet, f);
    }
    assert forall d :: d in sums ==> sums[d] == SumPositivePart(OnDay(Selected(rows, w), d), f) by {
      WetDaySums(rows, w, f);
    }
    sums
  }

  /**
    * `rainiest_day` (Rain) and `snowiest_day` (Snow): the per-day sums over every row of the window,
    * then a day whose sum is largest, with that sum; None when the window has no rows.
    */
  function WettestDay(rows: seq<Observation>, w: Window, f: Field): (r: Option<DayReading>)
    ensures r.None? <==> forall o :: o in rows ==> !InWindow(o, w)
    ensures r.Some? ==> exists o :: o in rows && InWindow(o, w) && DayOf(o.dt) == r.value.day
    ensures r.Some? ==> r.value.value == DaySum(Selected(rows, w), r.value.day, f)
    ensures r.Some? ==> forall o :: o in rows && InWindow(o, w) ==>
      DaySum(Selected(rows, w), DayOf(o.dt), f) <= r.value.value
  {
    var s := Selected(rows, w);
    assert s != [] ==> s[0] in s;
    match BestDay(s, (d: int) => DaySum(s, d, f))
    case None => None
    case Some(d) => Some(DayReading(d, DaySum(s, d, f)))
  }

  /**
    * With no negative amounts, the sum `rainy_days` reports for a day is that day's whole sum over
    * the window: the rows the `> 0` filter drops add nothing.
    */
  lemma WetDaysAreDaySums(rows: seq<Observation>, w: Window, f: Field)
    requires forall o :: o in rows && InWindow(o, w) ==> Value(o, f) >= 0.0
    ensures forall d :: d in WetDays(rows, w, f) ==> WetDays(rows, w, f)[d] == DaySum(Selected(rows, w), d, f)
  {
    var s := Selected(rows, w);
    forall d | d in WetDays(rows, w, f)
      ensures WetDays(rows, w, f)[d] == DaySum(s, d, f)
    {
      calc {
        WetDays(rows, w, f)[d];
        Sum(Where(Where(s, Positive(f)), IsOn(d)), f);
        { WhereCommute(s, Positive(f), IsOn(d)); }
        Sum(Where(Where(s, IsOn(d)), Positive(f)), f);
        { SumDropZeros(Where(s, IsOn(d)), f, Positive(f)); }
        Sum(Where(s, IsOn(d)), f);
      }
    }
  }

  /** With no negative amounts, no day `rainy_days` lists has a larger sum than `rainiest_day`'s. */
  lemma WetDaysBelowWettest(rows: seq<Observation>, w: Window, f: Field)
    requires forall o :: o in rows && InWindow(o, w) ==> Value(o, f) >= 0.0
    ensures forall d :: d in WetDays(rows, w, f) ==>
      WettestDay(rows, w, f).Some? && WetDays(rows, w, f)[d] <= WettestDay(rows, w, f).value.value
  {
    var wet := WetDays(rows, w, f);
    var best := WettestDay(rows, w, f);
    WetDaysAreDaySums(rows, w, f);
    forall d | d in wet
      ensures best.Some? && wet[d] <= best.value.value
    {
      var o :| o in rows && InWindow(o, w) && Value(o, f) > 0.0 && DayOf(o.dt) == d;
    }
  }

  lemma WettestDayPositive(rows: seq<Observation>, w: Window, f: Field)
    requires forall o :: o in rows && InWindow(o, w) ==> Value(o, f) >= 0.0
    requires exists o :: o in rows && InWindow(o, w) && Value(o, f) > 0.0
    ensures WettestDay(rows, w, f).Some? && WettestDay(rows, w, f).value.value > 0.0
  {
    var wet :| wet in rows && InWindow(wet, w) && Value(wet, f) > 0.0;
    SumNonNegative(OnDay(Selected(rows, w), DayOf(wet.dt)), f);
  }

  /**
    * With no negative amounts and some positive amount in the window, the rainiest day has a
    * positive sum and is one of the days `rainy_days` lists, with the same sum.
    */
  lemma WettestDayIsWet(rows: seq<Observation>, w: Window, f: Field)
    requires forall o :: o in rows && InWindow(o, w) ==> Value(o, f) >= 0.0
    requires exists o :: o in rows && InWindow(o, w) && Value(o, f) > 0.0
    ensures WettestDay(rows, w, f).Some? && WettestDay(rows, w, f).value.value > 0.0
    ensures var best := WettestDay(rows, w, f).value;
      best.day in WetDays(rows, w, f) && WetDays(rows, w, f)[best.day] == best.value
  {
    WettestDayPositive(rows, w, f);
    var s := Selected(rows, w);
    var best := WettestDay(rows, w, f).value;
    var group := OnDay(s, best.day);
    PositiveSumHasPositiveRow(group, f);
    var o :| o in group && Value(o, f) > 0.0;
    assert o in rows && InWindow(o, w) && Value(o, f) > 0.0 && DayOf(o.dt) == best.day;
    WetDaysAreDaySums(rows, w, f);
  }

  // ----- apparent temperature -----

  /** `highest_apparent_temp`: per UTC day `AVG(apparent_temp)` over the window, then a day with the largest. */
  function HighestApparentTemp(rows: seq<Observation>, w: Window): (r: Option<DayReading>)
    ensures r.None? <==> forall o :: o in rows ==> !InWindow(o, w)
    ensures r.Some? ==> exists o :: o in rows && InWindow(o, w) && DayOf(o.dt) == r.value.day
    ensures r.Some? ==> r.value.value == DayMean(Selected(rows, w), r.value.day, ApparentTemp)
    ensures r.Some? ==> forall o :: o in rows && InWindow(o, w) ==>
      DayMean(Selected(rows, w), DayOf(o.dt), ApparentTemp) <= r.value.value
  {
    var s := Selected(rows, w);
    assert s != [] ==> s[0] in s;
    match BestDay(s, (d: int) => DayMean(s, d, ApparentTemp))
    case None => None
    case Some(d) => Some(DayReading(d, DayMean(s, d, ApparentTemp)))
  }

  /** `APPARENT_TEMPERATURE(AVG(temp_avg), AVG(humidity), AVG(wind))` over one day's rows. */
  function DayApparent(rows: seq<Observation>, day: int, fm: Formulas): (at: real)
    ensures var group := OnDay(rows, day);
      group != [] ==>
        at == fm.apparentTemp(Average(group, TempAvg).value, Average(group, Humidity).value, Average(group, Wind).value)
  {
    fm.apparentTemp(DayMean(rows, day, TempAvg), DayMean(rows, day, Humidity), DayMean(rows, day, Wind))
  }

  /**
    * `lowest_apparent_temp`: per UTC day the formula applied to the day's averaged temperature,
    * humidity and wind, then a day with the smallest result.
    */
  function LowestApparentTemp(rows: seq<Observation>, w: Window, fm: Formulas): (r: Option<DayReading>)
    ensures r.None? <==> forall o :: o in rows ==> !InWindow(o, w)
    ensures r.Some? ==> exists o :: o in rows && InWindow(o, w) && DayOf(o.dt) == r.value.day
    ensures r.Some? ==> r.value.value == DayApparent(Selected(rows, w), r.value.day, fm)
    ensures r.Some? ==> forall o :: o in rows && InWindow(o, w) ==>
      r.value.value <= DayApparent(Selected(rows, w), DayOf(o.dt), fm)
  {
    var s := Selected(rows, w);
    assert s != [] ==> s[0] in s;
    match BestDay(s, (d: int) => -DayApparent(s, d, fm))
    case None => None
    case Some(d) => Some(DayReading(d, DayApparent(s, d, fm)))
  }

  /** Why `apparent_temp_on` fails: on a day with no rows the formula is applied to NULLs. */
  datatype QueryError = FormulaOnNull

  /**
    * `apparent_temp_on`: the formula applied to the averaged temperature, humidity and wind of the
    * date's UTC day. Over no rows the averages are NULL, the formula raises on them and the query
    * raises with it.
    */
  function ApparentTempOn(rows: seq<Observation>, date: DateTime, fm: Formulas): (r: Result<DayReading, QueryError>)
    requires Valid(date)
    ensures r.Err? <==> forall o :: o in rows ==> DayOf(o.dt) != DateDay(date)
    ensures r.Ok? ==> r.value.day == Ordinal(date) - EpochOrdinal
    ensures r.Ok? ==> r.value.value == DayApparent(rows, DateDay(date), fm)
  {
    var group := OnDay(rows, DateDay(date));
    assert group != [] ==> group[0] in group;
    if group == [] then Err(FormulaOnNull)
    else Ok(DayReading(DateDay(date), DayApparent(rows, DateDay(date), fm)))
  }
}
