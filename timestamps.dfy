/**
  * Instants and calendar days.
  *
  * `populate` turns the record's `dt_txt` ("YYYY-MM-DD HH:MM:SS") into epoch seconds with
  * `datetime.strptime(...).timestamp()`, and every per-day query truncates an instant to its day
  * with SQLite's `DATE(dt, 'unixepoch')`. The model takes the naive datetime to be UTC, counts days
  * the way Python's `datetime.toordinal` does (0001-01-01 is day 1 of the proleptic Gregorian
  * calendar), and proves that the epoch conversion preserves order and that truncating the
  * resulting instant gives back the day that was written in `dt_txt`.
  */
module Timestamps {
  import opened Wrappers

  const SecondsPerDay: int := 86400

  /** `toordinal()` of 1970-01-01, the Unix epoch. */
  const EpochOrdinal: int := 719163

  /** `DATE(ts, 'unixepoch')` as a day number: the day is the floor of ts / 86400, also for negative ts. */
  function DayOf(ts: int): (d: int)
    ensures d * SecondsPerDay <= ts < (d + 1) * SecondsPerDay
  {
    ts / SecondsPerDay
  }

  datatype DateTime = DateTime(year: int, month: int, day: int, hour: int, minute: int, second: int)

  predicate IsLeapYear(y: int) {
    y % 4 == 0 && (y % 100 != 0 || y % 400 == 0)
  }

  function YearLength(y: int): int {
    if IsLeapYear(y) then 366 else 365
  }

  function DaysInMonth(y: int, m: int): int
    requires 1 <= m <= 12
  {
    if m == 2 then (if IsLeapYear(y) then 29 else 28)
    else if m == 4 || m == 6 || m == 9 || m == 11 then 30
    else 31
  }

  /** What `datetime(...)` accepts: MINYEAR..MAXYEAR, a real day of the month, and a time of day. */
  predicate Valid(t: DateTime) {
    1 <= t.year <= 9999 && 1 <= t.month <= 12 && 1 <= t.day <= DaysInMonth(t.year, t.month) &&
    0 <= t.hour < 24 && 0 <= t.minute < 60 && 0 <= t.second < 60
  }

  /** Days in the years before `y`, as Python's `_days_before_year`. */
  function DaysBeforeYear(y: int): int {
    var p := y - 1;
    p * 365 + p / 4 - p / 100 + p / 400
  }

  /** Days in the months of year `y` before month `m`, as Python's `_days_before_month`. */
  function DaysBeforeMonth(y: int, m: int): int
    requires 1 <= m <= 12
  {
    var common :=
      if m == 1 then 0 else if m == 2 then 31 else if m == 3 then 59 else if m == 4 then 90
      else if m == 5 then 120 else if m == 6 then 151 else if m == 7 then 181 else if m == 8 then 212
      else if m == 9 then 243 else if m == 10 then 273 else if m == 11 then 304 else 334;
    common + (if m > 2 && IsLeapYear(y) then 1 else 0)
  }

  function Ordinal(t: DateTime): int
    requires 1 <= t.month <= 12
  {
    DaysBeforeYear(t.year) + DaysBeforeMonth(t.year, t.month) + t.day
  }

  function SecondOfDay(t: DateTime): int {
    t.hour * 3600 + t.minute * 60 + t.second
  }

  /** `timestamp()` of a naive datetime read as UTC. */
  function EpochSeconds(t: DateTime): (ts: int)
    requires Valid(t)
    ensures DayOf(ts) == Ordinal(t) - EpochOrdinal
    ensures ts - DayOf(ts) * SecondsPerDay == SecondOfDay(t)
  {
    (Ordinal(t) - EpochOrdinal) * SecondsPerDay + SecondOfDay(t)
  }

  /** Chronological order of two datetimes, field by field. */
  predicate Before(a: DateTime, b: DateTime) {
    a.year < b.year || (a.year == b.year &&
    (a.month < b.month || (a.month == b.month &&
    (a.day < b.day || (a.day == b.day &&
    (a.hour < b.hour || (a.hour == b.hour &&
    (a.minute < b.minute || (a.minute == b.minute && a.second < b.second)))))))))
  }

  lemma DaysBeforeYearStep(y: int)
    requires y >= 1
    ensures DaysBeforeYear(y + 1) == DaysBeforeYear(y) + YearLength(y)
  {
    assert y / 4 - (y - 1) / 4 == (if y % 4 == 0 then 1 else 0);
    assert y / 100 - (y - 1) / 100 == (if y % 100 == 0 then 1 else 0);
    assert y / 400 - (y - 1) / 400 == (if y % 400 == 0 then 1 else 0);
  }

  /** Every day of an earlier year comes before the first day of a later one. */
  lemma {:induction false} YearsOrdered(y1: int, y2: int)
    requires 1 <= y1 < y2
    ensures DaysBeforeYear(y1) + YearLength(y1) <= DaysBeforeYear(y2)
  {
    DaysBeforeYearStep(y2 - 1);
    if y1 < y2 - 1 {
      YearsOrdered(y1, y2 - 1);
    }
  }

  lemma MonthsOrdered(y: int, m1: int, m2: int)
    requires 1 <= m1 < m2 <= 12
    ensures DaysBeforeMonth(y, m1) + DaysInMonth(y, m1) <= DaysBeforeMonth(y, m2)
  {
  }

  lemma DayOfYearBound(t: DateTime)
    requires Valid(t)
    ensures 1 <= DaysBeforeMonth(t.year, t.month) + t.day <= YearLength(t.year)
  {
  }

  lemma BeforeIncreases(a: DateTime, b: DateTime)
    requires Valid(a) && Valid(b) && Before(a, b)
    ensures EpochSeconds(a) < EpochSeconds(b)
  {
    if a.year < b.year {
      DayOfYearBound(a);
      YearsOrdered(a.year, b.year);
      assert Ordinal(a) < Ordinal(b);
    } else if a.month < b.month {
      MonthsOrdered(a.year, a.month, b.month);
      assert Ordinal(a) < Ordinal(b);
    }
  }

  /** The epoch conversion is strictly monotone and so one-to-one on valid datetimes. */
  lemma EpochSecondsOrdered(a: DateTime, b: DateTime)
    requires Valid(a) && Valid(b)
    ensures Before(a, b) <==> EpochSeconds(a) < EpochSeconds(b)
    ensures a == b <==> EpochSeconds(a) == EpochSeconds(b)
  {
    if Before(a, b) {
      BeforeIncreases(a, b);
    } else if a != b {
      assert Before(b, a);
      BeforeIncreases(b, a);
    }
  }

  /** Midnight of a datetime's own calendar day. */
  function Midnight(t: DateTime): DateTime {
    DateTime(t.year, t.month, t.day, 0, 0, 0)
  }

  /** Different calendar dates have different ordinals. */
  lemma OrdinalsDiffer(a: DateTime, b: DateTime)
    requires Valid(a) && Valid(b) && Before(Midnight(a), Midnight(b))
    ensures Ordinal(a) < Ordinal(b)
  {
    BeforeIncreases(Midnight(a), Midnight(b));
  }

  /**
    * Two instants fall on the same `DATE(..., 'unixepoch')` exactly when their datetimes have the
    * same year, month and day.
    */
  lemma SameDay(a: DateTime, b: DateTime)
    requires Valid(a) && Valid(b)
    ensures DayOf(EpochSeconds(a)) == DayOf(EpochSeconds(b)) <==>
      a.year == b.year && a.month == b.month && a.day == b.day
  {
    if Before(Midnight(a), Midnight(b)) {
      OrdinalsDiffer(a, b);
    } else if Before(Midnight(b), Midnight(a)) {
      OrdinalsDiffer(b, a);
    }
  }

  // ----- the text form "YYYY-MM-DD HH:MM:SS" -----

  predicate IsDigit(c: char) {
    '0' <= c <= '9'
  }

  predicate AllDigits(s: string) {
    forall i :: 0 <= i < |s| ==> IsDigit(s[i])
  }

  function Pow10(w: nat): (p: nat)
    ensures p >= 1
  {
    if w == 0 then 1 else 10 * Pow10(w - 1)
  }

  /** The decimal value of a string of digits. */
  function DigitsValue(s: string): nat
    requires AllDigits(s)
  {
    if s == [] then 0 else DigitsValue(s[..|s| - 1]) * 10 + (s[|s| - 1] as int - '0' as int)
  }

  /** `n` written with exactly `width` digits, zero-padded on the left. */
  function Padded(n: nat, width: nat): (s: string)
    ensures |s| == width && AllDigits(s)
  {
    if width == 0 then [] else Padded(n / 10, width - 1) + [('0' as int + n % 10) as char]
  }

  lemma {:induction false} DigitsOfPadded(n: nat, width: nat)
    requires n < Pow10(width)
    ensures DigitsValue(Padded(n, width)) == n
  {
    if width > 0 {
      var s := Padded(n, width);
      assert s[..|s| - 1] == Padded(n / 10, width - 1);
      DigitsOfPadded(n / 10, width - 1);
    }
  }

  lemma {:induction false} PaddedOfDigits(s: string)
    requires AllDigits(s)
    ensures DigitsValue(s) < Pow10(|s|)
    ensures Padded(DigitsValue(s), |s|) == s
  {
    if s != [] {
      var init := s[..|s| - 1];
      PaddedOfDigits(init);
      var n := DigitsValue(s);
      assert n / 10 == DigitsValue(init);
      assert s == init + [s[|s| - 1]];
    }
  }

  function Format(t: DateTime): (s: string)
    requires Valid(t)
    ensures |s| == 19
  {
    Padded(t.year, 4) + "-" + Padded(t.month, 2) + "-" + Padded(t.day, 2) + " " +
    Padded(t.hour, 2) + ":" + Padded(t.minute, 2) + ":" + Padded(t.second, 2)
  }

  function Field(s: string, from: nat, to: nat): nat
    requires from <= to <= |s| && AllDigits(s[from..to])
  {
    DigitsValue(s[from..to])
  }

  predicate Shaped(s: string) {
    |s| == 19 && s[4] == '-' && s[7] == '-' && s[10] == ' ' && s[13] == ':' && s[16] == ':' &&
    AllDigits(s[0..4]) && AllDigits(s[5..7]) && AllDigits(s[8..10]) &&
    AllDigits(s[11..13]) && AllDigits(s[14..16]) && AllDigits(s[17..19])
  }

  /** `strptime(s, "%Y-%m-%d %X")` for the zero-padded form; None where Python raises ValueError. */
  function Parse(s: string): (r: Option<DateTime>)
    ensures r.Some? ==> Valid(r.value) && |s| == 19
  {
    if !Shaped(s) then None
    else
      var t := DateTime(Field(s, 0, 4), Field(s, 5, 7), Field(s, 8, 10),
                        Field(s, 11, 13), Field(s, 14, 16), Field(s, 17, 19));
      if Valid(t) then Some(t) else None
  }

  /** Parsing reads back every valid datetime written in the `dt_txt` form. */
  lemma ParseFormat(t: DateTime)
    requires Valid(t)
    ensures Parse(Format(t)) == Some(t)
  {
    var s := Format(t);
    assert s[0..4] == Padded(t.year, 4);
    assert s[5..7] == Padded(t.month, 2);
    assert s[8..10] == Padded(t.day, 2);
    assert s[11..13] == Padded(t.hour, 2);
    assert s[14..16] == Padded(t.minute, 2);
    assert s[17..19] == Padded(t.second, 2);
    DigitsOfPadded(t.year, 4);
    DigitsOfPadded(t.month, 2);
    DigitsOfPadded(t.day, 2);
    DigitsOfPadded(t.hour, 2);
    DigitsOfPadded(t.minute, 2);
    DigitsOfPadded(t.second, 2);
  }

  /** Every string that parses is the canonical text of what it parses to. */
  lemma FormatParse(s: string)
    requires Parse(s).Some?
    ensures Valid(Parse(s).value) && Format(Parse(s).value) == s
  {
    var t := Parse(s).value;
    PaddedOfDigits(s[0..4]);
    PaddedOfDigits(s[5..7]);
    PaddedOfDigits(s[8..10]);
    PaddedOfDigits(s[11..13]);
    PaddedOfDigits(s[14..16]);
    PaddedOfDigits(s[17..19]);
    assert s == s[0..4] + "-" + s[5..7] + "-" + s[8..10] + " " + s[11..13] + ":" + s[14..16] + ":" + s[17..19];
  }

  /** `datetime.strptime(s, "%Y-%m-%d %X").timestamp()`, in UTC; None where Python raises. */
  function ParseTimestamp(s: string): (r: Option<int>)
    ensures r.Some? ==> exists t :: Valid(t) && Format(t) == s && r.value == EpochSeconds(t)
  {
    match Parse(s)
    case None => None
    case Some(t) => FormatParse(s); Some(EpochSeconds(t))
  }

  /** The day SQLite assigns to a parsed instant is the calendar date written in the text. */
  lemma ParsedDay(t: DateTime)
    requires Valid(t)
    ensures ParseTimestamp(Format(t)) == Some(EpochSeconds(t))
    ensures DayOf(EpochSeconds(t)) == Ordinal(t) - EpochOrdinal
  {
    ParseFormat(t);
  }
}
