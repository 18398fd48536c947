/**
  * One row of the in-memory `weather` table that both forecast classes create:
  * `dt`, the readings copied from the record, and the three derived fields computed once at insert.
  * The `_id` autoincrement column is the row's position in the table's sequence.
  */
module Weather {
  import opened Metrics

  datatype Observation = Observation(
    dt: int,
    tempAvg: real,
    tempHi: real,
    tempLo: real,
    humidity: real,
    clouds: real,
    wind: real,
    rain: real,
    snow: real,
    windChill: real,
    heatIndex: real,
    apparentTemp: real)

  /** The table's numeric columns, as the queries name them. */
  datatype Field =
    | TempAvg | TempHi | TempLo | Humidity | Clouds | Wind | Rain | Snow
    | WindChill | HeatIndex | ApparentTemp

  function Value(o: Observation, f: Field): real {
    match f
    case TempAvg => o.tempAvg
    case TempHi => o.tempHi
    case TempLo => o.tempLo
    case Humidity => o.humidity
    case Clouds => o.clouds
    case Wind => o.wind
    case Rain => o.rain
    case Snow => o.snow
    case WindChill => o.windChill
    case HeatIndex => o.heatIndex
    case ApparentTemp => o.apparentTemp
  }

  /** The derived fields of a row are the formulas applied to its own temperature, humidity and wind. */
  predicate Derived(o: Observation, fm: Formulas) {
    o.windChill == fm.windChill(o.tempAvg, o.wind) &&
    o.heatIndex == fm.heatIndex(o.tempAvg, o.humidity) &&
    o.apparentTemp == fm.apparentTemp(o.tempAvg, o.humidity, o.wind)
  }
}
