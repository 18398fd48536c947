/**
  * The comfort-index formulas of forecast.py: `calc_hi` (heat index), `calc_wc` (wind chill) and
  * `Forecast.__apparent_temp`, over exact reals.
  *
  * `pow(V, 0.16)` in the wind chill and `sqrt` in the heat-index adjustment are not polynomial;
  * they are passed in as a `FloatOps` record and nothing is known about them beyond what a
  * lemma names in its requires.
  */
module Metrics {

  datatype FloatOps = FloatOps(sqrt: real -> real, pow: (real, real) -> real)

  function Abs(x: real): real {
    if x < 0.0 then -x else x
  }

  /** `calc_wc(T, V)`. In calm air (where V^0.16 is 0) it is the affine 35.74 + 0.6215 T. */
  function WindChill(T: real, V: real, ops: FloatOps): (wc: real)
    ensures ops.pow(V, 0.16) == 0.0 ==> wc == 35.74 + 0.6215 * T
  {
    35.74 + 0.6215 * T - 35.75 * ops.pow(V, 0.16) + 0.4275 * T * ops.pow(V, 0.16)
  }

  /** Wind chill rises with temperature whenever V^0.16 is not negative (as it is for V >= 0). */
  lemma WindChillIncreasing(T1: real, T2: real, V: real, ops: FloatOps)
    requires ops.pow(V, 0.16) >= 0.0 && T1 < T2
    ensures WindChill(T1, V, ops) < WindChill(T2, V, ops)
  {
  }

  /** The first estimate of `calc_hi`, the average of T and the simple Steadman formula. */
  function BlendedEstimate(T: real, RH: real): (hi0: real)
    ensures hi0 == 1.05 * T + 0.0235 * RH - 5.15
  {
    ((0.5 * (T + 61.0 + ((T - 68.0) * 1.2) + (RH * 0.094))) + T) / 2.0
  }

  /**
    * The Rothfusz regression of the US National Weather Service. It reproduces the Service's
    * heat-index chart: 95 at 90 F and 50 % humidity, 129 at 100 F and 60 %.
    */
  function Regression(T: real, RH: real): (hi: real)
    ensures T == 90.0 && RH == 50.0 ==> 94.5 < hi < 95.0
    ensures T == 100.0 && RH == 60.0 ==> 129.0 < hi < 130.0
  {
    -42.379 + 2.04901523 * T + 10.14333127 * RH - 0.22475541 * T * RH - 0.00683783 * T * T
    - 0.05481717 * RH * RH + 0.00122874 * T * T * RH + 0.00085282 * T * RH * RH
    - 0.00000199 * T * T * RH * RH
  }

  /**
    * The correction subtracted from the regression, with the guards exactly as written:
    * `80 >= T >= 112` and `80 >= T >= 87` hold for no T, so no branch but the last is ever taken.
    */
  function Adjustment(T: real, RH: real, ops: FloatOps): (adj: real)
    ensures adj == 0.0
  {
    var dry := ((13.0 - RH) / 4.0) * ops.sqrt((17.0 - Abs(T - 95.0)) / 17.0);
    var humid := ((RH - 85.0) / 10.0) * ((87.0 - T) / 5.0);
    if RH <= 13.0 && 80.0 >= T >= 112.0 then dry
    else if RH >= 85.0 && 80.0 >= T >= 87.0 then humid
    else 0.0
  }

  /**
    * `calc_hi(T, RH)`. Below 80 the blended estimate is returned as it is; from 80 up it is exactly
    * the regression, since the adjustment is always zero.
    */
  function HeatIndex(T: real, RH: real, ops: FloatOps): (hi: real)
    ensures hi == if BlendedEstimate(T, RH) < 80.0 then BlendedEstimate(T, RH) else Regression(T, RH)
  {
    var hi0 := BlendedEstimate(T, RH);
    if hi0 >= 80.0 then Regression(T, RH) - Adjustment(T, RH, ops) else hi0
  }

  /**
    * `Forecast.__apparent_temp(T, RH, W)`: the source repeats the heat-index computation rather than
    * calling `calc_hi`, then subtracts 1.072 * W. The two paths agree for all inputs.
    */
  function ApparentTemperature(T: real, RH: real, W: real, ops: FloatOps): (at: real)
    ensures at == HeatIndex(T, RH, ops) - 1.072 * W
  {
    var hi0 := BlendedEstimate(T, RH);
    var hi := if hi0 >= 80.0 then Regression(T, RH) - Adjustment(T, RH, ops) else hi0;
    hi - 1.072 * W
  }

  /**
    * The three derived-field formulas a table is populated with (APPARENT_TEMPERATURE is the
    * third), and which winds give a wind chill the INSERT can write. Python's `pow` of a negative
    * base to the power 0.16 is a complex number, and SQLite rejects its `(a+bj)` text.
    */
  datatype Formulas = Formulas(
    windChill: (real, real) -> real,
    heatIndex: (real, real) -> real,
    apparentTemp: (real, real, real) -> real,
    windChillIsReal: real -> bool)

  /** The formulas of forecast.py: `calc_wc`, `calc_hi` and `self.__apparent_temp`. */
  function ForecastFormulas(ops: FloatOps): (fm: Formulas)
    ensures forall T, RH, W :: fm.apparentTemp(T, RH, W) == fm.heatIndex(T, RH) - 1.072 * W
    ensures forall V :: fm.windChillIsReal(V) <==> V >= 0.0
  {
    Formulas(
      (T, V) => WindChill(T, V, ops),
      (T, RH) => HeatIndex(T, RH, ops),
      (T, RH, W) => ApparentTemperature(T, RH, W, ops),
      V => V >= 0.0)
  }

  /** Below the threshold apparent temperature is affine in T, RH and W. */
  lemma ApparentBelowThreshold(T: real, RH: real, W: real, ops: FloatOps)
    requires BlendedEstimate(T, RH) < 80.0
    ensures ApparentTemperature(T, RH, W, ops) == 1.05 * T + 0.0235 * RH - 5.15 - 1.072 * W
  {
  }
}
