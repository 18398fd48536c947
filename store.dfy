/**
  * The mutable part: the `weather` table each forecast object creates in its own in-memory SQLite
  * connection, and the two classes that fill it with `populate`.
  */
module Store {
  import opened Wrappers
  import opened Metrics
  import opened Weather
  import opened Ingest

  /** The `weather` table: rows in insertion (`_id`) order. Nothing is ever updated or deleted. */
  class WeatherTable {
    var rows: seq<Observation>

    /** `CREATE TABLE weather (...)`: a fresh table is empty. */
    constructor ()
      ensures rows == []
    {
      rows := [];
    }

    /** `INSERT INTO weather(...) VALUES (...)`. */
    method Insert(o: Observation)
      modifies this
      ensures rows == old(rows) + [o]
    {
      rows := rows + [o];
    }

    /**
      * The body of `populate`: look up the list (outside the try), then insert one row per record
      * until the first record that fails. The failure is caught; the rows inserted before it stay,
      * because the commit sits in `finally`.
      */
    method Populate(forecast: Json, path: seq<string>, fm: Formulas) returns (outcome: Outcome)
      modifies this
      ensures rows == old(rows) + Stored(forecast, path, fm)
      ensures outcome == Reported(forecast, path, fm)
    {
      var days := ListAt(forecast, path);
      if days.Err? {
        return Raised(days.error);
      }
      var records := Records(days.value);
      if records.Err? {
        return Stopped(0, records.error);
      }
      FromRecords(forecast, path, fm, records.value);
      outcome := InsertAll(records.value, Decoder(fm));
    }

    /** `for data in days: ... self.cnx.execute(query)`, inside the try. */
    method InsertAll(items: seq<Json>, decode: Json -> Result<Observation, RecordError>) returns (outcome: Outcome)
      modifies this
      ensures rows == old(rows) + ValidPrefix(items, decode)
      ensures var n := |ValidPrefix(items, decode)|;
        outcome == if n == |items| then Complete else Stopped(n, decode(items[n]).error)
    {
      ghost var valid := ValidPrefix(items, decode);
      var i := 0;
      while i < |items|
        invariant i <= |valid|
        invariant rows == old(rows) + valid[..i]
      {
        var decoded := decode(items[i]);
        if decoded.Err? {
          assert i == |valid|;
          return Stopped(i, decoded.error);
        }
        assert i < |valid| && valid[i] == decoded.value;
        Insert(decoded.value);
        i := i + 1;
      }
      assert valid[..i] == valid;
      return Complete;
    }
  }

  /** Where forecast.py finds the records: `forecast["list"]`. */
  const ForecastPath: seq<string> := ["list"]

  /** Where fiveday_forecast.py finds them: `forecast['forecast']['list']`. */
  const FiveDayPath: seq<string> := ["forecast", "list"]

  /** `Forecast` of forecast.py: its table, filled with `calc_wc`, `calc_hi` and `__apparent_temp`. */
  class Forecast {
    const ops: FloatOps
    const table: WeatherTable

    /** Every stored row carries the derived fields of forecast.py's own formulas. */
    ghost predicate Valid()
      reads this, table
    {
      forall o :: o in table.rows ==> Derived(o, ForecastFormulas(ops))
    }

    /**
      * `Forecast(forecast)`: a new connection with an empty table, APPARENT_TEMPERATURE registered
      * as `__apparent_temp`, then `populate(forecast)` when a forecast is given.
      */
    constructor (ops: FloatOps, forecast: Option<Json>)
      ensures this.ops == ops && fresh(table) && Valid()
      ensures table.rows == if forecast.Some? then Stored(forecast.value, ForecastPath, ForecastFormulas(ops)) else []
    {
      this.ops := ops;
      table := new WeatherTable();
      new;
      if forecast.Some? {
        var _ := Populate(forecast.value);
      }
    }

    /** `populate(forecast)`. */
    method Populate(forecast: Json) returns (outcome: Outcome)
      requires Valid()
      modifies table
      ensures Valid()
      ensures table.rows == old(table.rows) + Stored(forecast, ForecastPath, ForecastFormulas(ops))
      ensures outcome == Reported(forecast, ForecastPath, ForecastFormulas(ops))
    {
      outcome := table.Populate(forecast, ForecastPath, ForecastFormulas(ops));
    }
  }

  /**
    * `FiveDayForecast` of fiveday_forecast.py. Its formulas are the package's `calc_wc`, `calc_hi`
    * and `calc_apparent_temp`, which are not part of this model and so are given at construction.
    */
  class FiveDayForecast {
    const formulas: Formulas
    const table: WeatherTable

    ghost predicate Valid()
      reads this, table
    {
      forall o :: o in table.rows ==> Derived(o, formulas)
    }

    /** `FiveDayForecast(forecast)`: an empty table, then `populate(forecast)` when a forecast is given. */
    constructor (formulas: Formulas, forecast: Option<Json>)
      ensures this.formulas == formulas && fresh(table) && Valid()
      ensures table.rows == if forecast.Some? then Stored(forecast.value, FiveDayPath, formulas) else []
    {
      this.formulas := formulas;
      table := new WeatherTable();
      new;
      if forecast.Some? {
        var _ := Populate(forecast.value);
      }
    }

    /** `populate(forecast)`, reading the records from `forecast['forecast']['list']`. */
    method Populate(forecast: Json) returns (outcome: Outcome)
      requires Valid()
      modifies table
      ensures Valid()
      ensures table.rows == old(table.rows) + Stored(forecast, FiveDayPath, formulas)
      ensures outcome == Reported(forecast, FiveDayPath, formulas)
    {
      outcome := table.Populate(forecast, FiveDayPath, formulas);
    }
  }
}
