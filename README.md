# weather-parse-lib in Dafny

A model of the two forecast classes of weather-parse-lib and of their comfort-index formulas.

`Forecast` (forecast.py) and `FiveDayForecast` (fiveday_forecast.py) each open an in-memory SQLite
database holding one `weather` table. `populate` walks the records of an OpenWeatherMap-style JSON
forecast. For each record it reads the timestamp and the readings, resolves the optional rain and
snow entries, computes wind chill, heat index and apparent temperature, and inserts one row. Every
other method is a read-only SQL query over that table: averages over a time window, the highest
and lowest temperature, per-day rain and snow sums, the wettest day, per-day averages, and two
different roll-ups of apparent temperature.

The model is organised as follows:

- `Wrappers`: `Option` and `Result`.
- `Timestamps`: the `"%Y-%m-%d %X"` text of `dt_txt`, proleptic Gregorian day numbers,
  `timestamp()` read as UTC epoch seconds, and SQLite's `DATE(dt,'unixepoch')` as the floor of
  seconds over 86400.
- `Metrics`: `calc_wc`, `calc_hi` and `Forecast.__apparent_temp` over exact reals. `pow` and
  `sqrt` are passed in as a `FloatOps` record.
- `Weather`: one table row (`Observation`) and the names of its numeric columns.
- `Ingest`: the decoded JSON input, how one record becomes a row or an error, and the
  valid-prefix rule that says which rows one call to `populate` leaves behind.
- `Store`: the mutable part. `WeatherTable` is a class whose `rows` field `Populate` extends
  with a loop. `Forecast` and `FiveDayForecast` each own one table and differ in where the records
  are and which formulas derive the fields.
- `Aggregates` and `Averages`: SQL's WHERE, SUM, AVG, MIN, MAX and GROUP BY day over a sequence
  of rows.
- `Queries`: one function per query method. The two classes run the same SQL, so each query is
  written once over the table's rows.
- `RollUps`: how the two apparent-temperature roll-ups relate. They agree on days below the
  heat-index threshold and can differ above it.

The heat-index guards are modelled as written. `80 >= T >= 112` and `80 >= T >= 87` hold for no
`T`, so the adjustment is always zero, and the heat index from 80 up is the bare Rothfusz
regression of the US National Weather Service.

## Model

| member | source | states |
|---|---|---|
| Timestamps.DayOf | forecast.py:180-182 | `DATE(dt,'unixepoch')` is the day whose 86400-second span contains `dt` (floor division, also before 1970) |
| Timestamps.EpochSeconds | forecast.py:63-64 | the UTC timestamp of a valid datetime lies on the day numbered by its proleptic Gregorian ordinal minus that of 1970-01-01, at its second of the day |
| Timestamps.EpochSecondsOrdered | forecast.py:117-124 | `timestamp()` preserves order: one datetime is before another iff its timestamp is smaller, and equal datetimes are exactly those with equal timestamps |
| Timestamps.SameDay | forecast.py:182 | two datetimes fall on the same `DATE(...,'unixepoch')` iff they have the same year, month and day |
| Timestamps.ParseFormat | forecast.py:63-64 | parsing the `"%Y-%m-%d %X"` rendering of any valid datetime gives that datetime back |
| Timestamps.FormatParse | forecast.py:63-64 | every text the parser accepts is a valid datetime's canonical rendering, so the parser accepts nothing else |
| Timestamps.ParseTimestamp | forecast.py:63-64 | an accepted `dt_txt` is the rendering of a valid datetime, and the result is that datetime's timestamp |
| Timestamps.Parse | forecast.py:63-64 | the parser standing for `strptime(dt_txt, "%Y-%m-%d %X")` accepts only 19-character texts, and what it accepts is a valid datetime |
| Timestamps.ParsedDay | forecast.py:63-64 | the row stored for the rendering of datetime t has t's timestamp, and its `DATE` is t's own calendar day |
| Metrics.WindChill | forecast.py:23-25 | in calm air, where V^0.16 is 0, `calc_wc` is the affine 35.74 + 0.6215 T |
| Metrics.WindChillIncreasing | forecast.py:23-25 | `calc_wc` is strictly increasing in T for any wind whose `pow(V, 0.16)` is not negative |
| Metrics.BlendedEstimate | forecast.py:8-9 | the first estimate of `calc_hi` is the affine 1.05 T + 0.0235 RH - 5.15 |
| Metrics.Regression | forecast.py:18 | the Rothfusz polynomial reproduces the US National Weather Service chart: between 94.5 and 95 at 90 F and 50 %, between 129 and 130 at 100 F and 60 % |
| Metrics.Adjustment | forecast.py:11-16 | both adjustment guards are unsatisfiable, so the adjustment is 0 for every T and RH |
| Metrics.HeatIndex | forecast.py:7-21 | `calc_hi` is the blended estimate when that is below 80, and otherwise exactly the regression polynomial |
| Metrics.ApparentTemperature | forecast.py:100-115 | `__apparent_temp(T, RH, W)` equals `calc_hi(T, RH) - 1.072 W` for all inputs |
| Metrics.ForecastFormulas | forecast.py:23-34 | with forecast.py's formulas, the APPARENT_TEMPERATURE function is the heat-index function minus 1.072 W at every argument, and the wind chill is a real number (one the INSERT accepts) exactly when the wind is not negative, since `pow` of a negative base to 0.16 is complex |
| Metrics.ApparentBelowThreshold | forecast.py:100-115 | below the threshold, apparent temperature is the affine 1.05 T + 0.0235 RH - 5.15 - 1.072 W |
| Ingest.Get | forecast.py:65-70 | `j[key]` succeeds iff j is a dict holding key, and then gives that entry; otherwise it reports KeyError or TypeError |
| Ingest.TimestampAt | forecast.py:63-64 | `datetime.strptime(data['dt_txt'], ...).timestamp()` succeeds iff the record is a dict whose `dt_txt` is a string the parser accepts, and gives that text's timestamp |
| Ingest.Inner | forecast.py:65-70 | `data[outer][inner]` succeeds iff both dicts hold their key, and gives the inner entry |
| Ingest.NumberAt | forecast.py:65-70 | a nested reading is a number iff both subscripts succeed and the entry is a JSON number or boolean, and then it is that entry's value |
| Ingest.ResolvePrecip | forecast.py:71-76 | an absent rain/snow entry is 0; a dict gives its `"3h"` entry, or 0 when it has none; any other value is used as it is |
| Ingest.LookUp | forecast.py:63-76 | a success is a dict whose `dt_txt` gives the row's timestamp; a failure reports the first failing subscript in source order: the `dt_txt` parse, then the `main` readings, then `clouds.all`, then `wind.speed` |
| Ingest.LookUpReads | forecast.py:63-76 | the subscripts succeed iff `dt_txt` parses and the six nested readings are present, and then they give exactly those entries and the resolved rain and snow |
| Ingest.Operand | forecast.py:77-79 | a reading that enters the arithmetic raises TypeError, under its own key, iff it is not a number |
| Ingest.Column | forecast.py:89-92 | a reading that only goes into the INSERT is accepted iff it is a number; anything else is rejected by the INSERT |
| Ingest.Build | forecast.py:77-92 | a built row carries `calc_wc(temp, wind)`, `calc_hi(temp, humidity)` and APPARENT_TEMPERATURE(temp, humidity, wind) of its own readings, and its wind chill is real; a failure is a TypeError for the first of temp, wind and humidity that is not a number, and otherwise the INSERT's rejection |
| Ingest.BuildReads | forecast.py:77-92 | the arithmetic and the INSERT succeed iff all eight readings are numbers and the wind chill is real, and the row holds exactly those numbers |
| Ingest.Decode | forecast.py:63-92 | every decoded row carries `calc_wc(temp, wind)`, `calc_hi(temp, humidity)` and APPARENT_TEMPERATURE(temp, humidity, wind) of its own readings, and a wind chill the INSERT accepts |
| Ingest.DecodeReadsRecord | forecast.py:63-92 | a record becomes a row iff its timestamp parses, all eight readings are numbers and the wind gives a real wind chill (a negative wind makes the INSERT fail), and the row holds exactly those values |
| Ingest.DecodeRecordOf | forecast.py:63-92 | a record written from a row that forecast.py's arithmetic could have produced, with `dt_txt` the rendering of its datetime, decodes back to that row |
| Ingest.ValidPrefix | forecast.py:61-95 | the rows kept are the decodings of the records before the first one that fails, in input order; the next record, if any, fails |
| Ingest.Stored | forecast.py:59-98 | every row a call stores carries its derived fields, and nothing is stored when the list lookup raises |
| Ingest.Records | forecast.py:62 | `for data in days` over a list visits its elements; over a non-empty dict or string it fails on the first record, over an empty one it stores nothing, and over anything else it raises TypeError |
| Ingest.Reported | forecast.py:59-98 | the call raises iff the list lookup (outside the try) raises; a stopped call stopped at the index of the number of rows it stored; a complete call stored one row per record |
| Ingest.FromRecords | forecast.py:60-62 | once the list is found and iterable, the rows stored are the valid prefix of its records, and the outcome is Complete or the index and error of the first failing record |
| Ingest.PopulatedPrefix | forecast.py:59-98 | a complete call stores one row per record, each the decoding of its record; a stopped call at index n stores exactly the n records before the failing one |
| Store.WeatherTable.constructor | forecast.py:36-39 | a new table has no rows |
| Store.WeatherTable.Insert | forecast.py:81-92 | an INSERT appends exactly one row at the end |
| Store.WeatherTable.InsertAll | forecast.py:61-95 | the loop appends the valid prefix of the records to the earlier rows, and reports Complete or the first failing index and its error |
| Store.WeatherTable.Populate | forecast.py:59-98 | `populate` appends exactly `Stored(...)` after the existing rows and reports how the call ended |
| Store.Forecast.constructor | forecast.py:29-44 | a new Forecast uses forecast.py's own formulas; its table holds what `populate(forecast)` stores when a forecast is given, and no rows otherwise |
| Store.Forecast.Populate | forecast.py:59-98 | records come from `forecast["list"]`; the table grows by the valid prefix, and every row still carries forecast.py's derived fields |
| Store.FiveDayForecast.constructor | fiveday_forecast.py:12-27 | a new FiveDayForecast uses the formulas it was given; its table holds what `populate(forecast)` stores when a forecast is given, and no rows otherwise |
| Store.FiveDayForecast.Populate | fiveday_forecast.py:42-81 | records come from `forecast['forecast']['list']`; the same valid-prefix rule holds with the package formulas |
| Aggregates.Where | forecast.py:132 | WHERE keeps exactly the rows that satisfy the condition, and never more rows than it was given |
| Aggregates.WhereCount | forecast.py:132 | WHERE keeps each satisfying row as many times as it is stored, and no other row |
| Aggregates.Sum | forecast.py:224 | SUM over no rows is 0 (the queries only sum non-empty groups) |
| Aggregates.SumPositivePart | forecast.py:224-228 | a reference sum with no filter: the positive parts max(v, 0) of the column, added up |
| Aggregates.SumOfPositives | forecast.py:224-228 | `SUM(f) ... WHERE f > 0` equals the sum of the positive parts of the column |
| Aggregates.SumNonNegative | forecast.py:224 | a SUM of non-negative values is non-negative, and positive once one of them is |
| Aggregates.SumPermutation | forecast.py:221-229 | SUM depends only on which rows are selected, not on their order |
| Aggregates.WhereCommute | forecast.py:226-228 | the window condition and the `> 0` condition can be applied in either order |
| Aggregates.SumDropZeros | forecast.py:224-228 | dropping rows that contribute 0 leaves a SUM unchanged |
| Aggregates.Highest | forecast.py:156 | MAX over no rows is NULL; otherwise it is attained by a selected row and no selected row exceeds it |
| Aggregates.Lowest | forecast.py:170 | MIN over no rows is NULL; otherwise it is attained by a selected row and no selected row is below it |
| Aggregates.OnDay | forecast.py:195 | the rows of one UTC day are exactly the stored rows with that `DATE`, each as often as stored |
| Aggregates.DaysOf | forecast.py:229 | GROUP BY day forms exactly the days that have at least one row |
| Aggregates.DaySum | forecast.py:264 | `SUM(f)` of a day's group is 0 when the day has no rows, and non-negative when the day's values are |
| Aggregates.BestDay | forecast.py:261-269 | over no rows there is no best day; otherwise the chosen day has a row and no row's day scores higher |
| Averages.AverageWithin | forecast.py:130 | the mean of a non-empty group lies within any bounds that hold for every row of it |
| Averages.Average | forecast.py:130 | AVG is NULL iff there are no rows; otherwise it times the count is the SUM, and it lies between the smallest and largest value |
| Averages.DayMean | forecast.py:306 | `AVG(f)` of a day's group is the AVG of that day's rows whenever the day has rows |
| Queries.TimeRange | forecast.py:117-124 | a missing start is `now` and a missing end is `now` plus five days, whatever the start; a given bound is its datetime's timestamp, a whole number of seconds |
| Queries.WindowSelects | forecast.py:117-124 | the window selects the instant of datetime t iff t is not before the given start (or is at least `now` when none is given) and the given end is not before t (or t is within five days of `now`) |
| Queries.Selected | forecast.py:132 | `dt BETWEEN start AND end` keeps exactly the rows with start <= dt <= end, inclusive at both ends |
| Queries.FindAvg | forecast.py:126-148 | `__find_avg` is None iff no row lies in the window; otherwise it is the SUM of the field over the window's rows divided by their count, and lies between the field's smallest and largest value in the window |
| Queries.HighestTemp | forecast.py:150-165 | None iff the window is empty; otherwise the `dt` and `temp_hi` of a row in the window, and no row in the window has a higher `temp_hi` |
| Queries.LowestTemp | forecast.py:167-175 | None iff the window is empty; otherwise the `dt` and `temp_lo` of a row in the window, and no row in the window has a lower `temp_lo` |
| Queries.DateDay | forecast.py:182 | `DATE(date.timestamp(),'unixepoch')` is the date's own calendar day |
| Queries.AverageOn | forecast.py:177-189 | `average_temp_on`, `wind_chill_on` and `heat_index_on` are None iff the date's day has no rows; otherwise they give that day and the day's SUM of the field divided by its count of rows, which lies between the day's extremes |
| Queries.ForecastOn | forecast.py:191-217 | `forecast_on` returns every row of the date's UTC day, each as often as stored, and nothing else |
| Queries.HighestTempOn | forecast.py:359-367 | None iff the day has no rows; otherwise a `temp_hi` of that day that no row of the day exceeds |
| Queries.LowestTempOn | forecast.py:369-377 | None iff the day has no rows; otherwise a `temp_hi` (not `temp_lo`) of that day that no row of the day is below |
| Queries.Wet | forecast.py:226-228 | the rows `rainy_days` groups are exactly those in the window with a positive amount |
| Queries.WetDaySums | forecast.py:224-229 | filtering on `field > 0` and grouping by day gives, for every day, the sum of the positive parts of that day's in-window amounts |
| Queries.WetDays | forecast.py:219-255 | `rainy_days`/`snowy_days` list exactly the days with an in-window row of positive amount, each with its sum, which is the sum of the positive parts of that day's in-window amounts and is positive |
| Queries.WettestDay | forecast.py:257-297 | None iff the window is empty; otherwise a day with an in-window row, with its in-window sum, which no other day's sum exceeds |
| Queries.WetDaysAreDaySums | forecast.py:219-236 | with no negative amounts, each sum `rainy_days` reports is that day's whole in-window sum |
| Queries.WetDaysBelowWettest | forecast.py:219-297 | with no negative amounts, no day `rainy_days` lists has a larger sum than `rainiest_day` reports |
| Queries.WettestDayPositive | forecast.py:257-297 | with no negative amounts and some positive amount in the window, `rainiest_day` reports a positive sum |
| Queries.WettestDayIsWet | forecast.py:219-297 | with no negative amounts and some positive amount in the window, `rainiest_day` reports a positive sum, and its day is listed by `rainy_days` with the same sum |
| Queries.HighestApparentTemp | forecast.py:299-318 | None iff the window is empty; otherwise a day of the window with its mean stored apparent temperature, which no other day's mean exceeds |
| Queries.DayApparent | forecast.py:324-337 | APPARENT_TEMPERATURE(AVG(temp_avg), AVG(humidity), AVG(wind)) of a day with rows is the formula applied to the AVGs of that day's rows |
| Queries.LowestApparentTemp | forecast.py:320-346 | None iff the window is empty; otherwise a day of the window with the formula applied to its mean T, RH and W, which no other day's value is below |
| Queries.ApparentTempOn | forecast.py:403-419 | `apparent_temp_on` raises iff the date's day has no rows (the formula is applied to NULL); otherwise it reports that day and the formula applied to the day's averaged temperature, humidity and wind |
| RollUps.SumApparent | forecast.py:77-79 | over rows forecast.py stored, the summed apparent temperature is the summed heat index minus 1.072 times the summed wind |
| RollUps.AverageApparentSplits | forecast.py:348-357 | `average_apparent_temp` is the window's mean heat index minus 1.072 times its mean wind |
| RollUps.SumApparentMild | forecast.py:100-115 | over rows below the threshold, the summed apparent temperature is the affine formula of the summed readings |
| RollUps.MeanApparentMild | forecast.py:320-357 | over a group of rows below the threshold, the mean stored apparent temperature equals the formula of the mean readings |
| RollUps.ApparentTempOnAgrees | forecast.py:403-419 | on a day whose rows are all below the threshold, `apparent_temp_on` equals the mean stored apparent temperature of that day |
| RollUps.ApparentSamples | forecast.py:100-115 | with no humidity and no wind, apparent temperature is 68.35 at 70, 94.144223 at 100 and 82.3839728 at 85 |
| RollUps.RollUpsDiffer | forecast.py:299-346 | for one day with rows at 70 and 100 degrees, the mean of the stored values differs from the formula of the means, so the two roll-ups are different operations |

fiveday_forecast.py runs the same SQL as forecast.py, so each query row above also models its
counterpart there:

- `__time_range`: lines 83-90.
- `__find_avg` and the three averages: lines 92-114.
- `highest_temp` and `lowest_temp`: lines 116-141.
- `average_temp_on`: lines 143-155.
- `rainy_days` and `snowy_days`: lines 170-206.
- `rainiest_day` and `snowiest_day`: lines 208-248.
- The apparent-temperature queries: lines 250-308.
- The per-day queries: lines 310-370.

## Left out

- SQLite itself is not modelled: the connection, `CREATE TABLE`, building SQL text with
  `.format`, `commit`, `__del__` and `__repr__`. The table is a sequence of rows in insertion
  order, and each query is its relational meaning.
- Floating point is not modelled: all arithmetic is over exact reals, and `pow` and `sqrt` are
  uninterpreted parameters.
- The clock is a parameter: `datetime.today()` is the `now` argument of `TimeRange`, and the two
  reads in `__time_range` are taken as one instant. Only `now` carries fractions of a second, as a
  real. A start or end the caller gives, and every stored `dt`, is a whole number of seconds,
  because `DateTime` has no microseconds field.
- Timezones are not modelled: `timestamp()` is read as UTC.
- Timestamps.Parse: accepts only the canonical zero-padded `YYYY-MM-DD HH:MM:SS` form. strptime
  also accepts single-digit fields, a day such as " 7" for `%d`, any run of whitespace where the
  format has its one space, and non-ASCII decimal digits; those texts are rejected by the model.
  Like strptime, it rejects leading whitespace and any trailing text.
- The text renderings of `DATE(...)` and `DATETIME(...)` are left out. Answers carry epoch
  seconds (`Reading.dt`) or day numbers since 1970-01-01 (`DayReading.day`) instead of strings.
- Which row SQLite reports beside MAX or MIN is not promised. When several rows tie, the
  contracts say "some row attaining the extreme", and for `highest_apparent_temp` "some day
  attaining it".
- The order of rows `rainy_days`/`snowy_days` return is not promised, so `WetDays` is a map from
  day to sum.
- Errors are values, not printed messages. Where the source prints an exception and returns None,
  the model returns `Option`/`Result`.
- Queries.HighestTemp, Queries.LowestTemp, Queries.HighestTempOn, Queries.LowestTempOn,
  Queries.HighestApparentTemp, Queries.LowestApparentTemp, Queries.AverageOn, Queries.WettestDay and
  Queries.FindAvg: on an empty window or day an aggregate without GROUP BY still yields one row of
  NULLs, so the source returns a dict such as `{"dt": None, "temp": None}`, `{"dt": None, "rain":
  None}` from `rainiest_day`, or `{"temp": None}` from `average_apparent_temp`. `None` of `Option`
  stands for that dict.
- Ingest.Column: a reading that only goes into the INSERT (`temp_max`, `temp_min`, `clouds`, rain,
  snow) is pasted into the SQL text by `.format`. A string there is stored by the source whenever
  its text is an SQL expression (`NULL`, `1+1`, `'x'`) and rejected otherwise; the model accepts
  JSON numbers and booleans only, and stops at every string.
- Store.Forecast.constructor and Store.FiveDayForecast.constructor: when the list lookup in
  `populate` raises, the exception leaves `__init__` and no object is made; the model still returns
  an object whose table is empty. `Populate` reports that case as `Raised`.
- Queries.ApparentTempOn: for a `FiveDayForecast`, the error on a day with no rows assumes that the
  package's `calc_apparent_temp`, like forecast.py's `__apparent_temp`, raises when it is given
  NULLs. That function is not part of this model.
- Metrics.ForecastFormulas: `windChillIsReal` says when `pow(V, 0.16)` is real; for a
  `FiveDayForecast` the same property of the package's `calc_wc` is part of the `Formulas` it is
  given.
- `FiveDayForecast.forecast_on` is left out. It calls a two-argument `Forecast(date, results)`,
  and that definition is not part of this model.
- The package-level `calc_wc`, `calc_hi` and `calc_apparent_temp` that fiveday_forecast.py
  imports are not part of this model. A `FiveDayForecast` takes them as a `Formulas` value.
- `__init__.py` is left out: it holds only an import of a class that is not part of this model,
  and otherwise commented-out code.
