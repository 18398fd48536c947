/**
  * What `populate` does with the decoded JSON forecast, record by record (forecast.py:59-98,
  * fiveday_forecast.py:42-81), as functions; the loop itself is `Store.WeatherTable.Populate`.
  */
module Ingest {
  import opened Wrappers
  import opened Timestamps
  import opened Metrics
  import opened Weather

  /** A decoded JSON value, as `json.loads` gives it to `populate`. */
  datatype Json =
    | JNull
    | JBool(b: bool)
    | JNum(n: real)
    | JStr(s: string)
    | JArr(items: seq<Json>)
    | JObj(fields: map<string, Json>)

  /** Why a record (or the list holding the records) could not be read: the exception Python raises. */
  datatype RecordError =
    | MissingKey(key: string)    // KeyError
    | NotAnObject                // TypeError: subscripting a value that is not a dict
    | NotIterable                // TypeError: `for data in days` over a value that is not iterable
    | BadTimestamp               // ValueError or TypeError from strptime
    | NotANumber(key: string)    // TypeError from the arithmetic of the derived fields
    | InsertRejected             // sqlite3.OperationalError from the INSERT

  /** `j[key]`. */
  function Get(j: Json, key: string): (r: Result<Json, RecordError>)
    ensures r.Ok? <==> j.JObj? && key in j.fields
    ensures r.Ok? ==> r.value == j.fields[key]
  {
    match j
    case JObj(m) => if key in m then Ok(m[key]) else Err(MissingKey(key))
    case _ => Err(NotAnObject)
  }

  /** A JSON number, or a bool, which Python's arithmetic and SQLite's TRUE/FALSE both read as 1/0. */
  function AsNumber(j: Json): Option<real> {
    match j
    case JNum(n) => Some(n)
    case JBool(b) => Some(if b then 1.0 else 0.0)
    case _ => None
  }

  /** A reading that enters the arithmetic of `calc_wc`, `calc_hi` or `__apparent_temp`. */
  function Operand(j: Json, key: string): (r: Result<real, RecordError>)
    ensures r.Ok? <==> AsNumber(j).Some?
    ensures r.Ok? ==> r.value == AsNumber(j).value
    ensures r.Err? ==> r.error == NotANumber(key)
  {
    match AsNumber(j)
    case Some(n) => Ok(n)
    case None => Err(NotANumber(key))
  }

  /** A reading that only the INSERT sees, pasted into the SQL text. */
  function Column(j: Json): (r: Result<real, RecordError>)
    ensures r.Ok? <==> AsNumber(j).Some?
    ensures r.Ok? ==> r.value == AsNumber(j).value
    ensures r.Err? ==> r.error == InsertRejected
  {
    match AsNumber(j)
    case Some(n) => Ok(n)
    case None => Err(InsertRejected)
  }

  /** `datetime.strptime(data['dt_txt'], "%Y-%m-%d %X").timestamp()`. */
  function TimestampAt(data: Json): (r: Result<int, RecordError>)
    ensures r.Ok? <==>
      data.JObj? && "dt_txt" in data.fields && data.fields["dt_txt"].JStr? &&
      ParseTimestamp(data.fields["dt_txt"].s).Some?
    ensures r.Ok? ==> r.value == ParseTimestamp(data.fields["dt_txt"].s).value
  {
    var txt :- Get(data, "dt_txt");
    if !txt.JStr? then Err(BadTimestamp)
    else match ParseTimestamp(txt.s)
      case None => Err(BadTimestamp)
      case Some(ts) => Ok(ts)
  }

  /**
    * The optional `rain`/`snow` entry of a record: absent gives 0, a mapping gives its "3h" entry
    * (0 when that key is missing), and any other value is used as it is.
    */
  function ResolvePrecip(data: map<string, Json>, key: string): (v: Json)
    ensures key !in data ==> v == JNum(0.0)
    ensures key in data && data[key].JObj? ==>
      v == (if "3h" in data[key].fields then data[key].fields["3h"] else JNum(0.0))
    ensures key in data && !data[key].JObj? ==> v == data[key]
  {
    if key !in data then JNum(0.0)
    else match data[key]
      case JObj(m) => if "3h" in m then m["3h"] else JNum(0.0)
      case other => other
  }

  /** What the subscripts of one record give, before any arithmetic: `dt` and the raw readings. */
  datatype Lookups = Lookups(
    dt: int, temp: Json, tempMax: Json, tempMin: Json, humidity: Json,
    clouds: Json, wind: Json, rain: Json, snow: Json)

  /** `data[outer][inner]`, which may be any value. */
  function Inner(data: Json, outer: string, inner: string): (r: Result<Json, RecordError>)
    ensures r.Ok? <==> data.JObj? && outer in data.fields && data.fields[outer].JObj? && inner in data.fields[outer].fields
    ensures r.Ok? ==> r.value == data.fields[outer].fields[inner]
  {
    var o :- Get(data, outer);
    Get(o, inner)
  }

  /** `data['main']['temp']`, `['temp_max']`, `['temp_min']` and `['humidity']`, in that order. */
  function MainReadings(data: Json): Result<(Json, Json, Json, Json), RecordError> {
    var temp :- Inner(data, "main", "temp");
    var tempMax :- Inner(data, "main", "temp_max");
    var tempMin :- Inner(data, "main", "temp_min");
    var humidity :- Inner(data, "main", "humidity");
    Ok((temp, tempMax, tempMin, humidity))
  }

  /**
    * The subscripts of the loop body, in their order: `dt_txt` parsed, the four `main` readings,
    * `clouds.all`, `wind.speed`, then `rain` and `snow` resolved. No reading is checked yet.
    */
  function LookUp(data: Json): (r: Result<Lookups, RecordError>)
    ensures r.Ok? ==> data.JObj? && TimestampAt(data) == Ok(r.value.dt)
    ensures TimestampAt(data).Err? ==> r == Err(TimestampAt(data).error)
    ensures TimestampAt(data).Ok? && MainReadings(data).Err? ==> r == Err(MainReadings(data).error)
    ensures TimestampAt(data).Ok? && MainReadings(data).Ok? && Inner(data, "clouds", "all").Err? ==>
      r == Err(Inner(data, "clouds", "all").error)
    ensures (TimestampAt(data).Ok? && MainReadings(data).Ok? && Inner(data, "clouds", "all").Ok? &&
             Inner(data, "wind", "speed").Err?) ==>
      r == Err(Inner(data, "wind", "speed").error)
  {
    var dt :- TimestampAt(data);
    var main :- MainReadings(data);
    var clouds :- Inner(data, "clouds", "all");
    var wind :- Inner(data, "wind", "speed");
    Ok(Lookups(dt, main.0, main.1, main.2, main.3, clouds, wind,
               ResolvePrecip(data.fields, "rain"), ResolvePrecip(data.fields, "snow")))
  }

  /**
    * The rest of the loop body: the arithmetic of the derived fields (`calc_wc` multiplies the
    * temperature and raises the wind to a power, `calc_hi` multiplies the humidity), then the
    * INSERT, which takes numbers only and rejects a complex wind chill.
    */
  function Build(raw: Lookups, fm: Formulas): (r: Result<Observation, RecordError>)
    ensures r.Ok? ==> Derived(r.value, fm) && fm.windChillIsReal(r.value.wind)
    ensures AsNumber(raw.temp).None? ==> r == Err(NotANumber("temp"))
    ensures AsNumber(raw.temp).Some? && AsNumber(raw.wind).None? ==> r == Err(NotANumber("speed"))
    ensures AsNumber(raw.temp).Some? && AsNumber(raw.wind).Some? && AsNumber(raw.humidity).None? ==>
      r == Err(NotANumber("humidity"))
    ensures AsNumber(raw.temp).Some? && AsNumber(raw.wind).Some? && AsNumber(raw.humidity).Some? && r.Err? ==>
      r.error == InsertRejected
  {
    var tempAvg :- Operand(raw.temp, "temp");
    var wind :- Operand(raw.wind, "speed");
    var humidity :- Operand(raw.humidity, "humidity");
    var tempHi :- Column(raw.tempMax);
    var tempLo :- Column(raw.tempMin);
    var clouds :- Column(raw.clouds);
    var rain :- Column(raw.rain);
    var snow :- Column(raw.snow);
    if !fm.windChillIsReal(wind) then Err(InsertRejected)
    else
      Ok(Observation(raw.dt, tempAvg, tempHi, tempLo, humidity, clouds, wind, rain, snow,
                     fm.windChill(tempAvg, wind),
                     fm.heatIndex(tempAvg, humidity),
                     fm.apparentTemp(tempAvg, humidity, wind)))
  }

  /** One pass of the loop body. The error is the first step that fails, in Python's order. */
  function Decode(data: Json, fm: Formulas): (r: Result<Observation, RecordError>)
    ensures r.Ok? ==> Derived(r.value, fm) && fm.windChillIsReal(r.value.wind)
  {
    var raw :- LookUp(data);
    Build(raw, fm)
  }

  /** `data[outer][inner]` as a number, when it can be looked up. */
  function NumberAt(data: Json, outer: string, inner: string): (r: Option<real>)
    ensures r.Some? <==> Inner(data, outer, inner).Ok? && AsNumber(Inner(data, outer, inner).value).Some?
    ensures r.Some? ==> data.JObj? && outer in data.fields && r == AsNumber(data.fields[outer].fields[inner])
  {
    match Inner(data, outer, inner)
    case Ok(v) => AsNumber(v)
    case Err(_) => None
  }

  /** The subscripts succeed exactly when `dt_txt` parses and the six nested readings are present. */
  lemma LookUpReads(data: Json)
    ensures LookUp(data).Ok? <==>
      TimestampAt(data).Ok? &&
      Inner(data, "main", "temp").Ok? && Inner(data, "main", "temp_max").Ok? &&
      Inner(data, "main", "temp_min").Ok? && Inner(data, "main", "humidity").Ok? &&
      Inner(data, "clouds", "all").Ok? && Inner(data, "wind", "speed").Ok?
    ensures LookUp(data).Ok? ==> LookUp(data).value == Lookups(TimestampAt(data).value,
      Inner(data, "main", "temp").value, Inner(data, "main", "temp_max").value,
      Inner(data, "main", "temp_min").value, Inner(data, "main", "humidity").value,
      Inner(data, "clouds", "all").value, Inner(data, "wind", "speed").value,
      ResolvePrecip(data.fields, "rain"), ResolvePrecip(data.fields, "snow"))
  {
  }

  /** The arithmetic and the INSERT succeed exactly when every reading is a number and the wind chill is real. */
  lemma BuildReads(raw: Lookups, fm: Formulas)
    ensures Build(raw, fm).Ok? <==>
      AsNumber(raw.temp).Some? && AsNumber(raw.tempMax).Some? && AsNumber(raw.tempMin).Some? &&
      AsNumber(raw.humidity).Some? && AsNumber(raw.clouds).Some? && AsNumber(raw.wind).Some? &&
      AsNumber(raw.rain).Some? && AsNumber(raw.snow).Some? && fm.windChillIsReal(AsNumber(raw.wind).value)
    ensures Build(raw, fm).Ok? ==>
      var o := Build(raw, fm).value;
      o.dt == raw.dt && AsNumber(raw.temp) == Some(o.tempAvg) && AsNumber(raw.tempMax) == Some(o.tempHi) &&
      AsNumber(raw.tempMin) == Some(o.tempLo) && AsNumber(raw.humidity) == Some(o.humidity) &&
      AsNumber(raw.clouds) == Some(o.clouds) && AsNumber(raw.wind) == Some(o.wind) &&
      AsNumber(raw.rain) == Some(o.rain) && AsNumber(raw.snow) == Some(o.snow)
  {
  }

  /**
    * A record is stored exactly when its timestamp parses, every reading is a number and the wind
    * gives a real wind chill; the row then holds those values.
    */
  lemma DecodeReadsRecord(data: Json, fm: Formulas)
    ensures Decode(data, fm).Ok? <==>
      TimestampAt(data).Ok? &&
      NumberAt(data, "main", "temp").Some? && NumberAt(data, "main", "temp_max").Some? &&
      NumberAt(data, "main", "temp_min").Some? && NumberAt(data, "main", "humidity").Some? &&
      NumberAt(data, "clouds", "all").Some? && NumberAt(data, "wind", "speed").Some? &&
      AsNumber(ResolvePrecip(data.fields, "rain")).Some? && AsNumber(ResolvePrecip(data.fields, "snow")).Some? &&
      fm.windChillIsReal(NumberAt(data, "wind", "speed").value)
    ensures Decode(data, fm).Ok? ==>
      var o := Decode(data, fm).value;
      TimestampAt(data) == Ok(o.dt) &&
      NumberAt(data, "main", "temp") == Some(o.tempAvg) &&
      NumberAt(data, "main", "temp_max") == Some(o.tempHi) &&
      NumberAt(data, "main", "temp_min") == Some(o.tempLo) &&
      NumberAt(data, "main", "humidity") == Some(o.humidity) &&
      NumberAt(data, "clouds", "all") == Some(o.clouds) &&
      NumberAt(data, "wind", "speed") == Some(o.wind) &&
      AsNumber(ResolvePrecip(data.fields, "rain")) == Some(o.rain) &&
      AsNumber(ResolvePrecip(data.fields, "snow")) == Some(o.snow)
  {
    LookUpReads(data);
    if LookUp(data).Ok? {
      BuildReads(LookUp(data).value, fm);
    }
  }

  /** The record OpenWeatherMap sends for a row, with `txt` as its `dt_txt`. */
  function RecordOf(o: Observation, txt: string): Json {
    JObj(map[
      "dt_txt" := JStr(txt),
      "main" := JObj(map["temp" := JNum(o.tempAvg), "temp_max" := JNum(o.tempHi),
                         "temp_min" := JNum(o.tempLo), "humidity" := JNum(o.humidity)]),
      "clouds" := JObj(map["all" := JNum(o.clouds)]),
      "wind" := JObj(map["speed" := JNum(o.wind)]),
      "rain" := JObj(map["3h" := JNum(o.rain)]),
      "snow" := JObj(map["3h" := JNum(o.snow)])])
  }

  lemma MainOfRecord(o: Observation, txt: string)
    ensures MainReadings(RecordOf(o, txt)) ==
      Ok((JNum(o.tempAvg), JNum(o.tempHi), JNum(o.tempLo), JNum(o.humidity)))
  {
  }

  lemma ReadingsOfRecord(o: Observation, txt: string)
    ensures var data := RecordOf(o, txt);
      Inner(data, "clouds", "all") == Ok(JNum(o.clouds)) &&
      Inner(data, "wind", "speed") == Ok(JNum(o.wind)) &&
      ResolvePrecip(data.fields, "rain") == JNum(o.rain) &&
      ResolvePrecip(data.fields, "snow") == JNum(o.snow)
  {
  }

  lemma TimestampOfRecord(o: Observation, t: DateTime)
    requires Valid(t)
    ensures TimestampAt(RecordOf(o, Format(t))) == Ok(EpochSeconds(t))
  {
    ParsedDay(t);
    assert Get(RecordOf(o, Format(t)), "dt_txt") == Ok(JStr(Format(t)));
  }

  lemma LookUpRecordOf(o: Observation, t: DateTime)
    requires Valid(t) && o.dt == EpochSeconds(t)
    ensures LookUp(RecordOf(o, Format(t))) == Ok(Lookups(o.dt, JNum(o.tempAvg), JNum(o.tempHi), JNum(o.tempLo),
      JNum(o.humidity), JNum(o.clouds), JNum(o.wind), JNum(o.rain), JNum(o.snow)))
  {
    TimestampOfRecord(o, t);
    MainOfRecord(o, Format(t));
    ReadingsOfRecord(o, Format(t));
  }

  /**
    * Round trip: the record written for a row of instant t decodes back to that row, provided the
    * row carries its derived fields and its wind gives a real wind chill.
    */
  lemma DecodeRecordOf(o: Observation, t: DateTime, fm: Formulas)
    requires Valid(t) && o.dt == EpochSeconds(t)
    requires Derived(o, fm) && fm.windChillIsReal(o.wind)
    ensures Decode(RecordOf(o, Format(t)), fm) == Ok(o)
  {
    LookUpRecordOf(o, t);
    BuildNumbers(o, fm);
  }

  lemma BuildNumbers(o: Observation, fm: Formulas)
    requires Derived(o, fm) && fm.windChillIsReal(o.wind)
    ensures Build(Lookups(o.dt, JNum(o.tempAvg), JNum(o.tempHi), JNum(o.tempLo), JNum(o.humidity),
      JNum(o.clouds), JNum(o.wind), JNum(o.rain), JNum(o.snow)), fm) == Ok(o)
  {
  }

  /** The loop body as a value, so that the loop can be stated for any decoder. */
  function Decoder(fm: Formulas): Json -> Result<Observation, RecordError> {
    data => Decode(data, fm)
  }

  /**
    * The rows one `try` around the loop leaves behind: the records before the first one that
    * fails to decode, decoded, in input order. The records from the failing one on are not stored.
    */
  function ValidPrefix(items: seq<Json>, decode: Json -> Result<Observation, RecordError>): (stored: seq<Observation>)
    ensures |stored| <= |items|
    ensures forall k :: 0 <= k < |stored| ==> decode(items[k]) == Ok(stored[k])
    ensures |stored| < |items| ==> decode(items[|stored|]).Err?
  {
    if items == [] then []
    else match decode(items[0])
      case Err(_) => []
      case Ok(o) => [o] + ValidPrefix(items[1..], decode)
  }

  /** `forecast["list"]` or `forecast["forecast"]["list"]`: the keys of `path`, one after another. */
  function ListAt(forecast: Json, path: seq<string>): Result<Json, RecordError> {
    if path == [] then Ok(forecast)
    else
      var next :- Get(forecast, path[0]);
      ListAt(next, path[1..])
  }

  /**
    * What `for data in days` iterates over. A list gives its elements. A dict or a string is
    * iterable too, but it yields strings, and `data['dt_txt']` fails on the first of them, so a
    * non-empty one ends ingestion at once; an empty one stores nothing. Anything else is not iterable.
    */
  function Records(days: Json): (r: Result<seq<Json>, RecordError>)
    ensures days.JArr? ==> r == Ok(days.items)
    ensures !days.JArr? && r.Ok? ==> r.value == []
    ensures r.Err? <==>
      (days.JObj? && |days.fields| > 0) || (days.JStr? && days.s != []) || days.JNull? || days.JBool? || days.JNum?
  {
    match days
    case JArr(xs) => Ok(xs)
    case JObj(m) => if |m| == 0 then Ok([]) else Err(NotAnObject)
    case JStr(s) => if s == [] then Ok([]) else Err(NotAnObject)
    case _ => Err(NotIterable)
  }

  /** How a call to `populate` ends. */
  datatype Outcome =
    | Complete                                  // every record was stored
    | Stopped(index: nat, error: RecordError)   // caught and printed inside the try; earlier rows kept
    | Raised(error: RecordError)                // the list lookup, outside the try, raised to the caller

  /** The rows a call to `populate` appends. */
  function Stored(forecast: Json, path: seq<string>, fm: Formulas): (rows: seq<Observation>)
    ensures forall o :: o in rows ==> Derived(o, fm)
    ensures ListAt(forecast, path).Err? ==> rows == []
  {
    match ListAt(forecast, path)
    case Err(_) => []
    case Ok(days) =>
      match Records(days)
      case Err(_) => []
      case Ok(items) =>
        var rows := ValidPrefix(items, Decoder(fm));
        assert forall o :: o in rows ==> Derived(o, fm) by {
          forall o | o in rows ensures Derived(o, fm) {
            var k :| 0 <= k < |rows| && rows[k] == o;
            assert Decoder(fm)(items[k]) == Decode(items[k], fm) == Ok(o);
          }
        }
        rows
  }

  /** How that call ends. */
  function Reported(forecast: Json, path: seq<string>, fm: Formulas): (r: Outcome)
    ensures r.Raised? <==> ListAt(forecast, path).Err?
    ensures r.Stopped? ==> r.index == |Stored(forecast, path, fm)|
    ensures r.Complete? ==>
      ListAt(forecast, path).Ok? && Records(ListAt(forecast, path).value).Ok? &&
      |Stored(forecast, path, fm)| == |Records(ListAt(forecast, path).value).value|
  {
    match ListAt(forecast, path)
    case Err(e) => Raised(e)
    case Ok(days) =>
      match Records(days)
      case Err(e) => Stopped(0, e)
      case Ok(items) =>
        var n := |ValidPrefix(items, Decoder(fm))|;
        if n == |items| then Complete else Stopped(n, Decode(items[n], fm).error)
  }

  /** Once the list has been found and is iterable, `Stored` and `Reported` are read off `ValidPrefix`. */
  lemma FromRecords(forecast: Json, path: seq<string>, fm: Formulas, items: seq<Json>)
    requires ListAt(forecast, path).Ok? && Records(ListAt(forecast, path).value) == Ok(items)
    ensures Stored(forecast, path, fm) == ValidPrefix(items, Decoder(fm))
    ensures var n := |ValidPrefix(items, Decoder(fm))|;
      Reported(forecast, path, fm) == if n == |items| then Complete else Stopped(n, Decoder(fm)(items[n]).error)
  {
  }

  /** Exactly the records before the first failing one are stored, and that record is reported. */
  lemma PopulatedPrefix(forecast: Json, path: seq<string>, fm: Formulas, items: seq<Json>)
    requires ListAt(forecast, path).Ok? && Records(ListAt(forecast, path).value) == Ok(items)
    ensures Reported(forecast, path, fm).Complete? ==>
      |Stored(forecast, path, fm)| == |items| &&
      forall k :: 0 <= k < |items| ==> Decode(items[k], fm) == Ok(Stored(forecast, path, fm)[k])
    ensures Reported(forecast, path, fm).Stopped? ==>
      var n := Reported(forecast, path, fm).index;
      n < |items| && |Stored(forecast, path, fm)| == n && Decode(items[n], fm).Err? &&
      forall k :: 0 <= k < n ==> Decode(items[k], fm) == Ok(Stored(forecast, path, fm)[k])
  {
  }
}
