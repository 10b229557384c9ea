/**
 * The ratio of a liquid's density to that of pure water, supported between 0.990 and
 * 1.100 inclusive (src/main/java/com/ciderref/sdk/property/SpecificGravity.java).
 */
module SpecificGravity {
  import opened Wrappers
  import opened Numerics
  import opened Temperature
  import Water

  /** The lowest specific gravity supported. */
  const MinimumSupportedValue: real := 0.990

  /** The highest specific gravity supported. */
  const MaximumSupportedValue: real := 1.100

  datatype SpecificGravityData = SpecificGravityData(value: real)

  /** Both constructors check their result, so every specific gravity is in the supported range. */
  type SpecificGravity = s: SpecificGravityData | MinimumSupportedValue <= s.value <= MaximumSupportedValue
    witness SpecificGravityData(1.0)

  /** `checkSpecificGravityValidity`: a value outside the supported range is an illegal property value. */
  function CheckValidity(specificGravity: real): (r: Outcome)
    ensures r == Pass <==> MinimumSupportedValue <= specificGravity <= MaximumSupportedValue
    ensures r.Fail? ==> r.error == IllegalPropertyValue
  {
    if specificGravity < MinimumSupportedValue || specificGravity > MaximumSupportedValue then
      Fail(IllegalPropertyValue)
    else Pass
  }

  /** The constructor for a value already corrected for temperature: it keeps the value once checked. */
  function New(actualSpecificGravity: real): (r: Result<SpecificGravity>)
    ensures r.Ok? <==> MinimumSupportedValue <= actualSpecificGravity <= MaximumSupportedValue
    ensures r.Err? ==> r.error == IllegalPropertyValue
    ensures r.Ok? ==> r.value.value == actualSpecificGravity
  {
    if CheckValidity(actualSpecificGravity).Fail? then Err(IllegalPropertyValue)
    else Ok(SpecificGravityData(actualSpecificGravity))
  }

  /**
   * The constructor for a hydrometer reading taken at `measuredTemperature` with an
   * instrument calibrated at `calibrationTemperature`. It checks the reading, looks up
   * the density of water at the calibration temperature and then at the measured
   * temperature, multiplies the reading by their ratio, and checks the result.
   */
  function NewCorrected(measuredSpecificGravity: real, measuredTemperature: Option<Temperature>,
                        calibrationTemperature: Option<Temperature>): (r: Result<SpecificGravity>)
    ensures CheckValidity(measuredSpecificGravity).Fail? ==> r == Err(IllegalPropertyValue)
    ensures CheckValidity(measuredSpecificGravity) == Pass && calibrationTemperature.None? ==> r == Err(IllegalArgument)
    ensures (CheckValidity(measuredSpecificGravity) == Pass && Water.GetDensity(calibrationTemperature).Ok?
             && measuredTemperature.None?) ==> r == Err(IllegalArgument)
    ensures r.Ok? ==> Water.GetDensity(calibrationTemperature).Ok? && Water.GetDensity(measuredTemperature).Ok?
    ensures (CheckValidity(measuredSpecificGravity) == Pass && Water.GetDensity(calibrationTemperature).Ok?
             && Water.GetDensity(measuredTemperature).Ok?) ==>
            (r.Ok? <==> CheckValidity(Water.GetDensity(calibrationTemperature).value
                                      / Water.GetDensity(measuredTemperature).value * measuredSpecificGravity) == Pass)
    ensures r.Ok? ==> r.value.value * Water.GetDensity(measuredTemperature).value
                      == measuredSpecificGravity * Water.GetDensity(calibrationTemperature).value
  {
    if CheckValidity(measuredSpecificGravity).Fail? then Err(IllegalPropertyValue)
    else
      var densityAtCalibrationTemperature :- Water.GetDensity(calibrationTemperature);
      var densityAtActualTemperature :- Water.GetDensity(measuredTemperature);
      var correctionFactor := densityAtCalibrationTemperature / densityAtActualTemperature;
      var value := correctionFactor * measuredSpecificGravity;
      if CheckValidity(value).Fail? then Err(IllegalPropertyValue)
      else Ok(SpecificGravityData(value))
  }

  /** `getValue()`. */
  function GetValue(s: SpecificGravity): real
  {
    s.value
  }

  /** `Double.compare` of the two values: no rounding. */
  function CompareTo(s: SpecificGravity, other: SpecificGravity): (c: int)
    ensures c == 0 <==> s == other
    ensures c < 0 <==> s.value < other.value
  {
    CompareReals(s.value, other.value)
  }

  /** `equals`: the other object is a specific gravity with exactly the same value. */
  function Equals(s: SpecificGravity, other: Option<SpecificGravity>): (b: bool)
    ensures b <==> other == Some(s)
  {
    other.Some? && CompareTo(s, other.value) == 0
  }

  /** Both ends of the supported range are accepted; anything just beyond them is not. */
  lemma RangeEndpoints()
    ensures New(0.990).Ok? && New(1.100).Ok?
    ensures New(0.98999).Err? && New(1.10001).Err?
  {
  }

  /** A reading taken at the calibration temperature needs no correction. */
  lemma SameTemperatureLeavesReadingUnchanged(measured: real, t: Temperature)
    requires Water.IsLiquid(t)
    requires MinimumSupportedValue <= measured <= MaximumSupportedValue
    ensures NewCorrected(measured, Some(t), Some(t)) == New(measured)
  {
    Water.IsLiquidRange(t);
  }

  /** A reading at a temperature where water is not liquid is an illegal property value. */
  lemma TemperatureOutsideLiquidRangeFails(measured: real, t: Temperature, u: Temperature)
    requires MinimumSupportedValue <= measured <= MaximumSupportedValue
    requires !Water.IsLiquid(t) || !Water.IsLiquid(u)
    ensures NewCorrected(measured, Some(t), Some(u)) == Err(IllegalPropertyValue)
  {
    Water.IsLiquidRange(t);
    Water.IsLiquidRange(u);
  }

  /**
   * When water is lighter at the measured temperature than at the calibration temperature,
   * the correction raises the reading.
   */
  lemma WarmerReadingIsRaised(measured: real, t: Temperature, calibration: Temperature)
    requires NewCorrected(measured, Some(t), Some(calibration)).Ok?
    requires Water.DensityAt(t.degreesC) < Water.DensityAt(calibration.degreesC)
    ensures NewCorrected(measured, Some(t), Some(calibration)).value.value > measured
  {
    var r := NewCorrected(measured, Some(t), Some(calibration)).value.value;
    var dm, dc := Water.GetDensity(Some(t)).value, Water.GetDensity(Some(calibration)).value;
    CorrectionAboveOne(r, measured, dm, dc);
  }

  /** The arithmetic behind `WarmerReadingIsRaised`. */
  lemma CorrectionAboveOne(r: real, measured: real, dm: real, dc: real)
    requires 0.0 < measured && 0.0 < dm < dc
    requires r * dm == measured * dc
    ensures r > measured
  {
    assert measured * dc > measured * dm;
  }
}
