/**
 * The transform functions and the configuration records of pylocalwunder/common.py.
 *
 * A transform is called with keyword arguments, one per input parameter of its
 * definition, each bound to the decimal value the weather station sent or to None.
 * Decimal inputs are exact reals here; every result is a rounded Decimal.
 */
module Common {
  import opened Wrappers
  import opened Numeric

  // Units of measure shown by Home Assistant.
  const UomCelcius: string := "\U{00B0}C"
  const UomWattsPerMetreSq: string := "w/m2"
  const UomMillimetre: string := "mm"
  const UomMillimetrePerHour: string := "mm/h"
  const UomKilometrePerHour: string := "km/h"

  // Query parameter names of the weather station's upload request.
  const WsInputTempFahrenheit: string := "tempf"
  const WsInputDewpointFahrenheit: string := "dewptf"
  const WsInputHumidity: string := "humidity"
  const WsInputWindChillFahrenheit: string := "windchillf"
  const WsInputWindSpeedMph: string := "windspeedmph"
  const WsInputWindGustMph: string := "windgustmph"
  const WsInputWindDirection: string := "winddir"
  const WsInputRainCurrentInches: string := "rainin"
  const WsInputRainTodayInches: string := "dailyrainin"
  const WsInputSolarRadiation: string := "solarradiation"
  const WsInputUv: string := "UV"

  // ---------------------------------------------------------------------------
  // Keyword arguments

  predicate Distinct(s: seq<string>) {
    forall i, j :: 0 <= i < j < |s| ==> s[i] != s[j]
  }

  /**
   * A `**values` dictionary: the keyword arguments in insertion order, each name
   * with the value bound to it (None when the weather station did not send it).
   */
  datatype Kwargs<V> = Kwargs(entries: seq<(string, Option<V>)>)

  /** The keyword names of a list of entries, in order. */
  function Keys<V>(es: seq<(string, Option<V>)>): (ks: seq<string>)
    ensures |ks| == |es|
    ensures forall i :: 0 <= i < |es| ==> ks[i] == es[i].0
  {
    seq(|es|, i requires 0 <= i < |es| => es[i].0)
  }

  /** `k in values` and `values[k]`: the value of the first entry named k, or None when there is none. */
  function Lookup<V>(es: seq<(string, Option<V>)>, k: string): (r: Option<Option<V>>)
  {
    if es == [] then None
    else if es[0].0 == k then Some(es[0].1)
    else Lookup(es[1..], k)
  }

  /** `values[k]` on a dictionary; None stands for the KeyError of a missing name. */
  function Get<V>(kw: Kwargs<V>, k: string): (r: Option<Option<V>>)
  {
    Lookup(kw.entries, k)
  }

  /** A name is found exactly when some entry has it, and then with that entry's value. */
  lemma {:induction false} LookupFound<V>(es: seq<(string, Option<V>)>, k: string, i: int)
    requires Distinct(Keys(es))
    requires 0 <= i < |es| && es[i].0 == k
    ensures Lookup(es, k) == Some(es[i].1)
    decreases |es|
  {
    if i > 0 {
      assert Keys(es)[0] != Keys(es)[i];
      var rest := es[1..];
      assert Distinct(Keys(rest)) by {
        forall a, b | 0 <= a < b < |rest| ensures Keys(rest)[a] != Keys(rest)[b] {
          assert Keys(es)[a + 1] != Keys(es)[b + 1];
        }
      }
      LookupFound(rest, k, i - 1);
    }
  }

  /** A name that no entry has is not found. */
  lemma {:induction false} LookupMissing<V>(es: seq<(string, Option<V>)>, k: string)
    requires k !in Keys(es)
    ensures Lookup(es, k).None?
    decreases |es|
  {
    if es != [] {
      assert Keys(es)[0] == es[0].0;
      assert Keys(es[1..]) == Keys(es)[1..];
      LookupMissing(es[1..], k);
    }
  }

  /** A dictionary with a single keyword argument, as in `f(tempf=v)`. */
  function Single<V>(name: string, v: Option<V>): (kw: Kwargs<V>)
    ensures kw.entries == [(name, v)]
    ensures Get(kw, name) == Some(v)
  {
    Kwargs([(name, v)])
  }

  /**
   * `values[next(iter(values))]`: the value of the first keyword argument; an empty
   * dictionary makes `next` raise StopIteration.
   */
  function FirstValue<V>(kw: Kwargs<V>): (r: Result<Option<V>>)
    ensures kw.entries == [] <==> r.Err?
    ensures r.Err? ==> r.error == StopIteration
    ensures kw.entries != [] ==> r.Ok? && r.value == kw.entries[0].1
    ensures kw.entries != [] ==> Get(kw, kw.entries[0].0) == Some(r.value)
  {
    if kw.entries == [] then Err(StopIteration) else Ok(kw.entries[0].1)
  }

  // ---------------------------------------------------------------------------
  // Unit conversions

  /** The exact Celsius value of a Fahrenheit temperature. */
  function Celsius(f: real): real {
    (f - 32.0) * 5.0 / 9.0
  }

  /** The exact length in millimetres of a length in inches. */
  function Millimetres(inches: real): real {
    inches * 25.4
  }

  /** The exact speed in km/h of a speed in mph. */
  function KilometresPerHour(mph: real): real {
    mph * 1.609344
  }

  /** `convert_f_to_c`: the first argument in Celsius, to one decimal place. */
  function ConvertFToC(kw: Kwargs<real>): (r: Result<Option<Decimal>>)
    ensures kw.entries == [] ==> r == Err(StopIteration)
    ensures kw.entries != [] ==> r.Ok? && (r.value.None? <==> kw.entries[0].1.None?)
    ensures kw.entries != [] && kw.entries[0].1.Some? ==>
              IsHalfEvenRounding(r.value.value, Celsius(kw.entries[0].1.value), 1)
  {
    match FirstValue(kw)
    case Err(e) => Err(e)
    case Ok(None) => Ok(None)
    case Ok(Some(v)) => Ok(Some(Round((v - 32.0) * (5.0 / 9.0), 1)))
  }

  /** `convert_in_to_mm`: the first argument in millimetres, to two decimal places. */
  function ConvertInToMm(kw: Kwargs<real>): (r: Result<Option<Decimal>>)
    ensures kw.entries == [] ==> r == Err(StopIteration)
    ensures kw.entries != [] ==> r.Ok? && (r.value.None? <==> kw.entries[0].1.None?)
    ensures kw.entries != [] && kw.entries[0].1.Some? ==>
              IsHalfEvenRounding(r.value.value, Millimetres(kw.entries[0].1.value), 2)
  {
    match FirstValue(kw)
    case Err(e) => Err(e)
    case Ok(None) => Ok(None)
    case Ok(Some(v)) => Ok(Some(Round(v * 25.4, 2)))
  }

  /** `convert_mph_to_kph`: the first argument in km/h, to one decimal place. */
  function ConvertMphToKph(kw: Kwargs<real>): (r: Result<Option<Decimal>>)
    ensures kw.entries == [] ==> r == Err(StopIteration)
    ensures kw.entries != [] ==> r.Ok? && (r.value.None? <==> kw.entries[0].1.None?)
    ensures kw.entries != [] && kw.entries[0].1.Some? ==>
              IsHalfEvenRounding(r.value.value, KilometresPerHour(kw.entries[0].1.value), 1)
  {
    match FirstValue(kw)
    case Err(e) => Err(e)
    case Ok(None) => Ok(None)
    case Ok(Some(v)) => Ok(Some(Round(v * 1.609344, 1)))
  }

  /** A Celsius conversion never orders two readings differently from their Fahrenheit values. */
  lemma ConvertFToCMonotone(a: real, b: real)
    requires a <= b
    ensures Value(ConvertFToC(Single("tempf", Some(a))).value.value)
         <= Value(ConvertFToC(Single("tempf", Some(b))).value.value)
  {
    RoundMonotone((a - 32.0) * (5.0 / 9.0), (b - 32.0) * (5.0 / 9.0), 1);
  }

  /** A posted Celsius value is within 0.05 degrees of the exact conversion. */
  lemma ConvertFToCError(f: real)
    ensures Abs(Value(ConvertFToC(Single("tempf", Some(f))).value.value) - Celsius(f)) <= 0.05
  {
    RoundError((f - 32.0) * (5.0 / 9.0), 1);
    assert Pow10(1) == 10.0;
  }

  /** A body temperature of 98.6F converts to exactly 37.0C. */
  lemma ConvertFToCBodyTemperature()
    ensures ConvertFToC(Single(WsInputTempFahrenheit, Some(98.6))) == Ok(Some(Decimal(370, 1)))
  {
    var r := ConvertFToC(Single(WsInputTempFahrenheit, Some(98.6))).value.value;
    assert Celsius(98.6) == 37.0;
    assert Pow10(1) == 10.0;
    HalfEvenRoundingUnique(r, 37.0, 1);
    HalfEvenRoundingUnique(Decimal(370, 1), 37.0, 1);
  }

  // ---------------------------------------------------------------------------
  // Heat index

  /**
   * The simple-average estimate used to decide whether the regression is needed: the
   * mean of T and 61 + 1.2 (T - 68) + 0.094 RH, that is 1.1 T + 0.047 RH - 10.3.
   */
  function SimpleEstimate(t: real, rh: real): (e: real)
    ensures e == 1.1 * t + 0.047 * rh - 10.3
  {
    0.5 * (t + (61.0 + (t - 68.0) * 1.2 + rh * 0.094))
  }

  /** The 9-term Rothfusz regression, in degrees Fahrenheit. */
  function Regression(t: real, rh: real): real {
    -42.379 + 2.04901523 * t + 10.14333127 * rh + -0.22475541 * t * rh
    + -0.00683783 * t * t + -0.05481717 * rh * rh
    + 0.00122874 * t * t * rh + 0.00085282 * t * rh * rh
    + -0.00000199 * t * t * rh * rh
  }

  /** Which of the two humidity corrections applies to the regression. */
  datatype Correction = NoCorrection | LowHumidity | HighHumidity

  /**
   * The correction for a temperature and humidity: the low-humidity one is tested
   * first and the high-humidity one only otherwise; their guards never overlap, so
   * each applies exactly when its own guard holds.
   */
  function CorrectionFor(t: real, rh: real): (c: Correction)
    ensures c == LowHumidity <==> rh <= 13.0 && 79.0 <= t <= 112.0
    ensures c == HighHumidity <==> rh > 85.0 && 79.0 <= t <= 87.0
  {
    if rh <= 13.0 && 79.0 <= t <= 112.0 then LowHumidity
    else if rh > 85.0 && 79.0 <= t <= 87.0 then HighHumidity
    else NoCorrection
  }

  /** The square-root factor of the low-humidity correction, between 0 and 1. */
  function LowHumidityRootFactor(t: real): (s: real)
    requires 79.0 <= t <= 112.0
    ensures 0.0 <= s <= 1.0
  {
    var q := (17.0 - Abs(t - 95.0)) / 17.0;
    assert 0.0 <= q <= 1.0;
    Sqrt(q, MantissaBits)
  }

  /**
   * The amount the low-humidity correction subtracts, ((13 - RH) / 4) times the square
   * root of ((17 - |T - 95|) / 17): at least 0 and at most (13 - RH) / 4.
   */
  function LowHumidityAdjustment(t: real, rh: real): (adj: real)
    requires rh <= 13.0 && 79.0 <= t <= 112.0
    ensures 0.0 <= adj <= (13.0 - rh) / 4.0
  {
    Damp((13.0 - rh) / 4.0, LowHumidityRootFactor(t))
  }

  /** a scaled by a factor between 0 and 1: between 0 and a. */
  function Damp(a: real, s: real): (r: real)
    requires 0.0 <= a && 0.0 <= s <= 1.0
    ensures 0.0 <= r <= a
  {
    ProductBound(a, s, a, 1.0);
    a * s
  }

  /**
   * The amount the high-humidity correction subtracts, ((RH - 85) / 10) times
   * ((87 - T) / 5): never negative under its guard, and at most 2.4 for a humidity
   * of at most 100.
   */
  function HighHumidityAdjustment(t: real, rh: real): (adj: real)
    requires rh > 85.0 && t <= 87.0
    ensures 0.0 <= adj
    ensures rh <= 100.0 && 79.0 <= t ==> adj <= 2.4
  {
    var a := (rh - 85.0) / 10.0;
    var b := (87.0 - t) / 5.0;
    ProductBound(a, b, 1.5, 1.6);
    a * b
  }

  lemma ProductBound(a: real, b: real, ma: real, mb: real)
    requires 0.0 <= a && 0.0 <= b
    ensures 0.0 <= a * b
    ensures a <= ma && b <= mb ==> a * b <= ma * mb
  {
    if a <= ma && b <= mb {
      assert a * b <= ma * b;
      assert ma * b <= ma * mb;
    }
  }

  predicate HumidityInRange(rh: real) {
    0.0 <= rh <= 100.0
  }

  /**
   * The heat index before the final rounding, for a humidity within range: the
   * temperature below 40F; from 40F the simple estimate while it is at most 79F, and
   * above that the regression, lowered by the correction that applies, if any.
   */
  function UnroundedHeatIndex(t: real, rh: real): (u: real)
    requires HumidityInRange(rh)
    ensures t < 40.0 ==> u == t
    ensures t >= 40.0 && SimpleEstimate(t, rh) <= 79.0 ==> u == SimpleEstimate(t, rh)
    ensures t >= 40.0 && SimpleEstimate(t, rh) > 79.0 ==>
              && u <= Regression(t, rh)
              && (CorrectionFor(t, rh) == NoCorrection ==> u == Regression(t, rh))
              && (CorrectionFor(t, rh) == HighHumidity ==> Regression(t, rh) - 2.4 <= u)
  {
    if t < 40.0 then t
    else if SimpleEstimate(t, rh) > 79.0 then
      match CorrectionFor(t, rh)
      case LowHumidity => Regression(t, rh) - LowHumidityAdjustment(t, rh)
      case HighHumidity => Regression(t, rh) - HighHumidityAdjustment(t, rh)
      case NoCorrection => Regression(t, rh)
    else SimpleEstimate(t, rh)
  }

  const HumidityRangeMessage: string := "Humidity must be in the range 0-100%"

  /**
   * The heat index in Fahrenheit, rounded to one decimal place, with the
   * low-humidity correction applied as evidently intended.
   */
  function HeatIndex(t: real, rh: real): (r: Result<Decimal>)
    ensures r.Err? <==> !HumidityInRange(rh)
    ensures r.Err? ==> r.error == ValueError(HumidityRangeMessage)
  {
    if !HumidityInRange(rh) then Err(ValueError(HumidityRangeMessage))
    else Ok(Round(UnroundedHeatIndex(t, rh), 1))
  }

  /**
   * Whether the computation reaches the low-humidity correction: humidity in range,
   * at least 40F, a simple estimate above 79F, and the low-humidity guard.
   */
  predicate LowHumidityPathTaken(t: real, rh: real) {
    && HumidityInRange(rh) && t >= 40.0 && SimpleEstimate(t, rh) > 79.0
    && CorrectionFor(t, rh) == LowHumidity
  }

  /**
   * `calculate_heat_index` as written: the low-humidity correction multiplies a
   * Decimal by the float that `math.sqrt` returns, which raises TypeError.
   */
  function HeatIndexAsWritten(t: real, rh: real): (r: Result<Decimal>)
    ensures !HumidityInRange(rh) ==> r == Err(ValueError(HumidityRangeMessage))
    ensures r.Err? <==> !HumidityInRange(rh) || LowHumidityPathTaken(t, rh)
  {
    if !HumidityInRange(rh) then Err(ValueError(HumidityRangeMessage))
    else if LowHumidityPathTaken(t, rh) then Err(TypeError)
    else Ok(Round(UnroundedHeatIndex(t, rh), 1))
  }

  /** Below 40F the heat index is the temperature itself, rounded. */
  lemma HeatIndexBelowForty(t: real, rh: real)
    requires HumidityInRange(rh) && t < 40.0
    ensures HeatIndex(t, rh).Ok?
    ensures IsHalfEvenRounding(HeatIndex(t, rh).value, t, 1)
  {
  }

  /**
   * Below 40F a temperature that is already a one-place rounding, such as the output
   * of another transform, is returned unchanged.
   */
  lemma HeatIndexOfRoundedTemperature(x: real, rh: real)
    requires HumidityInRange(rh) && Value(Round(x, 1)) < 40.0
    ensures HeatIndex(Value(Round(x, 1)), rh) == Ok(Round(x, 1))
  {
    RoundIdempotent(x, 1);
  }

  /** From 40F, when the simple estimate is at most 79F it is the result, rounded. */
  lemma HeatIndexSimpleEstimate(t: real, rh: real)
    requires HumidityInRange(rh) && t >= 40.0 && SimpleEstimate(t, rh) <= 79.0
    ensures HeatIndex(t, rh).Ok?
    ensures IsHalfEvenRounding(HeatIndex(t, rh).value, SimpleEstimate(t, rh), 1)
  {
  }

  /**
   * From 40F, when the simple estimate exceeds 79F the result is the regression less
   * the one correction that applies, rounded; and a correction never raises it.
   */
  lemma HeatIndexRegression(t: real, rh: real)
    requires HumidityInRange(rh) && t >= 40.0 && SimpleEstimate(t, rh) > 79.0
    ensures HeatIndex(t, rh).Ok?
    ensures CorrectionFor(t, rh) == NoCorrection ==>
              IsHalfEvenRounding(HeatIndex(t, rh).value, Regression(t, rh), 1)
    ensures CorrectionFor(t, rh) == LowHumidity ==>
              IsHalfEvenRounding(HeatIndex(t, rh).value, Regression(t, rh) - LowHumidityAdjustment(t, rh), 1)
    ensures CorrectionFor(t, rh) == HighHumidity ==>
              IsHalfEvenRounding(HeatIndex(t, rh).value, Regression(t, rh) - HighHumidityAdjustment(t, rh), 1)
    ensures Value(HeatIndex(t, rh).value) <= Value(Round(Regression(t, rh), 1))
  {
    var u := UnroundedHeatIndex(t, rh);
    assert u <= Regression(t, rh);
    RoundMonotone(u, Regression(t, rh), 1);
  }

  /** The high-humidity correction never raises the rounded regression value. */
  lemma HighHumidityNeverRaises(t: real, rh: real)
    requires HumidityInRange(rh) && t >= 40.0 && SimpleEstimate(t, rh) > 79.0
    requires rh > 85.0 && 79.0 <= t <= 87.0
    ensures Value(HeatIndex(t, rh).value) <= Value(Round(Regression(t, rh), 1))
    ensures Value(Round(Regression(t, rh) - 2.4, 1)) <= Value(HeatIndex(t, rh).value)
  {
    HeatIndexRegression(t, rh);
    var adj := HighHumidityAdjustment(t, rh);
    RoundMonotone(Regression(t, rh) - 2.4, Regression(t, rh) - adj, 1);
  }

  /**
   * The as-written heat index fails with TypeError exactly on the low-humidity
   * correction path, and agrees with the corrected one everywhere else.
   */
  lemma HeatIndexAsWrittenTypeError(t: real, rh: real)
    ensures HeatIndexAsWritten(t, rh) == Err(TypeError) <==>
              HumidityInRange(rh) && t >= 40.0 && SimpleEstimate(t, rh) > 79.0
              && rh <= 13.0 && 79.0 <= t <= 112.0
    ensures HeatIndexAsWritten(t, rh) == Err(TypeError) <==> LowHumidityPathTaken(t, rh)
    ensures HeatIndexAsWritten(t, rh) != Err(TypeError) ==> HeatIndexAsWritten(t, rh) == HeatIndex(t, rh)
  {
  }

  /** A dry, hot reading that takes the low-humidity path: 100F at 5% humidity. */
  lemma HeatIndexAsWrittenCounterexample()
    ensures SimpleEstimate(100.0, 5.0) > 79.0
    ensures HeatIndexAsWritten(100.0, 5.0) == Err(TypeError)
    ensures HeatIndex(100.0, 5.0).Ok?
    ensures LowHumidityPathTaken(100.0, 5.0)
  {
    HeatIndexAsWrittenTypeError(100.0, 5.0);
  }

  /**
   * `Decimal(values[k])`: the number bound to keyword k; a missing keyword raises
   * KeyError and a None value TypeError.
   */
  function DecimalArg(kw: Kwargs<real>, k: string): (r: Result<real>)
    ensures Get(kw, k).None? ==> r == Err(KeyError(k))
    ensures Get(kw, k) == Some(None) ==> r == Err(TypeError)
    ensures Get(kw, k).Some? && Get(kw, k).value.Some? ==> r == Ok(Get(kw, k).value.value)
  {
    match Get(kw, k)
    case None => Err(KeyError(k))
    case Some(None) => Err(TypeError)
    case Some(Some(v)) => Ok(v)
  }

  /**
   * `calculate_heat_index` as written: reads the `tempf` and then the `humidity`
   * argument, raising what reading the first failing one raises; then ValueError for a
   * humidity out of range, TypeError on the low-humidity correction path, and the heat
   * index otherwise. The result is never None.
   */
  function CalculateHeatIndex(kw: Kwargs<real>): (r: Result<Option<Decimal>>)
    ensures DecimalArg(kw, WsInputTempFahrenheit).Err? ==> r == Err(DecimalArg(kw, WsInputTempFahrenheit).error)
    ensures DecimalArg(kw, WsInputTempFahrenheit).Ok? && DecimalArg(kw, WsInputHumidity).Err? ==>
              r == Err(DecimalArg(kw, WsInputHumidity).error)
    ensures DecimalArg(kw, WsInputTempFahrenheit).Ok? && DecimalArg(kw, WsInputHumidity).Ok? ==>
              var t, rh := DecimalArg(kw, WsInputTempFahrenheit).value, DecimalArg(kw, WsInputHumidity).value;
              && (r.Ok? <==> HumidityInRange(rh) && !LowHumidityPathTaken(t, rh))
              && (r.Ok? ==> r.value == Some(HeatIndex(t, rh).value))
              && (!HumidityInRange(rh) ==> r == Err(ValueError(HumidityRangeMessage)))
              && (LowHumidityPathTaken(t, rh) ==> r == Err(TypeError))
  {
    match DecimalArg(kw, WsInputTempFahrenheit)
    case Err(e) => Err(e)
    case Ok(t) =>
      match DecimalArg(kw, WsInputHumidity)
      case Err(e) => Err(e)
      case Ok(rh) =>
        HeatIndexAsWrittenTypeError(t, rh);
        match HeatIndexAsWritten(t, rh)
        case Err(e) => Err(e)
        case Ok(h) => Ok(Some(h))
  }

  /**
   * `calculate_heat_index` with the low-humidity correction applied as evidently
   * intended: the same argument errors and the same range check, and the heat index
   * for every humidity in range.
   */
  function CalculateHeatIndexIntended(kw: Kwargs<real>): (r: Result<Option<Decimal>>)
    ensures DecimalArg(kw, WsInputTempFahrenheit).Err? ==> r == Err(DecimalArg(kw, WsInputTempFahrenheit).error)
    ensures DecimalArg(kw, WsInputTempFahrenheit).Ok? && DecimalArg(kw, WsInputHumidity).Err? ==>
              r == Err(DecimalArg(kw, WsInputHumidity).error)
    ensures DecimalArg(kw, WsInputTempFahrenheit).Ok? && DecimalArg(kw, WsInputHumidity).Ok? ==>
              var t, rh := DecimalArg(kw, WsInputTempFahrenheit).value, DecimalArg(kw, WsInputHumidity).value;
              && (r.Ok? <==> HumidityInRange(rh))
              && (r.Ok? ==> r.value == Some(HeatIndex(t, rh).value))
              && (r.Err? ==> r.error == ValueError(HumidityRangeMessage))
  {
    match DecimalArg(kw, WsInputTempFahrenheit)
    case Err(e) => Err(e)
    case Ok(t) =>
      match DecimalArg(kw, WsInputHumidity)
      case Err(e) => Err(e)
      case Ok(rh) =>
        match HeatIndex(t, rh)
        case Err(e) => Err(e)
        case Ok(h) => Ok(Some(h))
  }

  /**
   * The transform as written and the intended one agree, except on the low-humidity
   * path, where the first raises TypeError and the second returns a heat index.
   */
  lemma CalculateHeatIndexAgreement(kw: Kwargs<real>)
    ensures CalculateHeatIndex(kw) != CalculateHeatIndexIntended(kw) <==>
              && DecimalArg(kw, WsInputTempFahrenheit).Ok? && DecimalArg(kw, WsInputHumidity).Ok?
              && LowHumidityPathTaken(DecimalArg(kw, WsInputTempFahrenheit).value, DecimalArg(kw, WsInputHumidity).value)
    ensures CalculateHeatIndex(kw) != CalculateHeatIndexIntended(kw) ==>
              CalculateHeatIndex(kw) == Err(TypeError) && CalculateHeatIndexIntended(kw).Ok?
  {
  }

  /**
   * `calculate_heat_index_c`: the Fahrenheit heat index converted to Celsius by
   * `convert_f_to_c`; any failure of the Fahrenheit computation is raised unchanged.
   */
  function CalculateHeatIndexC(kw: Kwargs<real>): (r: Result<Option<Decimal>>)
    ensures CalculateHeatIndex(kw).Err? ==> r == Err(CalculateHeatIndex(kw).error)
    ensures CalculateHeatIndex(kw).Ok? ==>
              r.Ok? && r.value.Some? && IsHalfEvenRounding(r.value.value, Celsius(Value(CalculateHeatIndex(kw).value.value)), 1)
  {
    match CalculateHeatIndex(kw)
    case Err(e) => Err(e)
    case Ok(None) => ConvertFToC(Single(WsInputTempFahrenheit, None))
    case Ok(Some(h)) => ConvertFToC(Single(WsInputTempFahrenheit, Some(Value(h))))
  }

  /**
   * A transform: called with the inputs of a definition as keyword arguments, it
   * returns the sensor's new value or raises. The five functions above are transforms.
   */
  type TransformerFunc = Kwargs<real> -> Result<Option<Decimal>>

  // ---------------------------------------------------------------------------
  // Configuration records

  /**
   * How the inputs of the weather station map to one Home Assistant sensor. All six
   * fields are required: the `__init__` that `attr.dataclass` generates for the six
   * annotated fields, none of which has a default, replaces the hand-written one.
   * The unit of measure, the icon and the transform may still be None.
   */
  datatype ParameterDefinition = ParameterDefinition(
    inputParameters: seq<string>,
    haSensorId: string,
    haSensorName: string,
    haSensorUom: Option<string>,
    haSensorIcon: Option<string>,
    transform: Option<TransformerFunc>)

  /**
   * The configuration of the server; every field has a default, the definitions
   * default to None.
   */
  datatype Configuration = Configuration(
    haServerUri: Option<string> := None,
    haLongLivedToken: Option<string> := None,
    parameterDefinitions: Option<seq<ParameterDefinition>> := None,
    weatherStationUri: string := "/weatherstation/updateweatherstation.php",
    weatherStationPort: int := 5723)

  /** A Configuration built with no arguments. */
  lemma DefaultConfiguration()
    ensures var c := Configuration();
      && c.haServerUri.None? && c.haLongLivedToken.None? && c.parameterDefinitions.None?
      && c.weatherStationUri == "/weatherstation/updateweatherstation.php"
      && c.weatherStationPort == 5723
  {
  }
}
