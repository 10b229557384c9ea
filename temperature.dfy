/**
 * A temperature, held in degrees Celsius and compared to the nearest hundredth of a
 * degree (src/main/java/com/ciderref/sdk/property/Temperature.java).
 */
module Temperature {
  import opened Wrappers
  import opened Numerics
  import opened Units
  import TemperatureUnits

  datatype Temperature = Temperature(degreesC: real)

  /**
   * The constructor: missing units, NaN and infinities are illegal arguments; a
   * temperature in degrees Fahrenheit is converted to degrees Celsius.
   */
  function New(temperature: Double, units: Option<TemperatureUnit>): (r: Result<Temperature>)
    ensures r.Err? <==> units.None? || !temperature.Finite?
    ensures r.Err? ==> r.error == IllegalArgument
    ensures r.Ok? ==> GetValue(r.value, units) == Ok(temperature.value)
  {
    if units.None? then Err(IllegalArgument)
    else if temperature.IsNaN() then Err(IllegalArgument)
    else if temperature.IsInfinite() then Err(IllegalArgument)
    else if units.value == Celsius then Ok(Temperature(temperature.value))
    else Ok(Temperature((temperature.value - 32.0) * 5.0 / 9.0))
  }

  /**
   * `getValue(units)`: the temperature in `units`, which is the reference conversion of
   * the degrees Celsius held; missing units are an illegal argument.
   */
  function GetValue(t: Temperature, units: Option<TemperatureUnit>): (r: Result<real>)
    ensures units.None? <==> r == Err(IllegalArgument)
    ensures units.Some? ==> r == Ok(TemperatureUnits.Convert(Celsius, t.degreesC, units.value))
  {
    if units.None? then Err(IllegalArgument)
    else if units.value == Celsius then Ok(t.degreesC)
    else Ok(t.degreesC * 9.0 / 5.0 + 32.0)
  }

  /** The temperature in hundredths of a degree Celsius, rounded half up. */
  function ComparableValue(t: Temperature): (c: int)
    ensures t.degreesC * 100.0 - 0.5 < c as real <= t.degreesC * 100.0 + 0.5
  {
    Round(t.degreesC * 100.0)
  }

  /** Orders temperatures from coldest to warmest, to the nearest hundredth of a degree. */
  function CompareTo(t: Temperature, other: Temperature): (c: int)
    ensures c < 0 ==> t.degreesC < other.degreesC
    ensures c > 0 ==> t.degreesC > other.degreesC
    ensures t.degreesC + 0.01 <= other.degreesC ==> c < 0
    ensures other.degreesC + 0.01 <= t.degreesC ==> c > 0
  {
    RoundOrder(t.degreesC * 100.0, other.degreesC * 100.0);
    RoundOrder(other.degreesC * 100.0, t.degreesC * 100.0);
    Compare(ComparableValue(t), ComparableValue(other))
  }

  /** `isWarmerThan`: compares above; a difference of a hundredth of a degree or more always does. */
  function IsWarmerThan(t: Temperature, other: Temperature): (b: bool)
    ensures b ==> t.degreesC > other.degreesC
    ensures other.degreesC + 0.01 <= t.degreesC ==> b
  {
    CompareTo(t, other) > 0
  }

  /** `isCoolerThan`: compares below; a difference of a hundredth of a degree or more always does. */
  function IsCoolerThan(t: Temperature, other: Temperature): (b: bool)
    ensures b ==> t.degreesC < other.degreesC
    ensures t.degreesC + 0.01 <= other.degreesC ==> b
  {
    CompareTo(t, other) < 0
  }

  /** `equals`: the other object is a temperature and compares as the same. */
  function Equals(t: Temperature, other: Option<Temperature>): (b: bool)
    ensures b ==> other.Some? && -0.01 < t.degreesC - other.value.degreesC < 0.01
    ensures other.Some? && t == other.value ==> b
  {
    other.Some? && CompareTo(t, other.value) == 0
  }

  /** `compareTo` is antisymmetric: swapping the arguments negates the sign. */
  lemma CompareToAntisymmetric(t: Temperature, u: Temperature)
    ensures CompareTo(t, u) < 0 <==> CompareTo(u, t) > 0
    ensures CompareTo(t, u) == 0 <==> CompareTo(u, t) == 0
  {
  }

  /** `compareTo` is transitive, and so is the equivalence it induces. */
  lemma CompareToTransitive(t: Temperature, u: Temperature, v: Temperature)
    ensures CompareTo(t, u) < 0 && CompareTo(u, v) < 0 ==> CompareTo(t, v) < 0
    ensures CompareTo(t, u) == 0 && CompareTo(u, v) == 0 ==> CompareTo(t, v) == 0
  {
  }

  /** One temperature is warmer than another exactly when the other is cooler. */
  lemma WarmerIsConverseOfCooler(t: Temperature, u: Temperature)
    ensures IsWarmerThan(t, u) <==> IsCoolerThan(u, t)
  {
    CompareToAntisymmetric(t, u);
  }

  /** The same temperature given in either unit is equal; 50 ℃ and 50 ℉ are not. */
  lemma EqualAcrossUnits()
    ensures New(Finite(0.0), Some(Celsius)).Ok? && New(Finite(32.0), Some(Fahrenheit)).Ok?
    ensures Equals(New(Finite(0.0), Some(Celsius)).value, Some(New(Finite(32.0), Some(Fahrenheit)).value))
    ensures !Equals(New(Finite(50.0), Some(Celsius)).value, Some(New(Finite(50.0), Some(Fahrenheit)).value))
  {
  }

  /** Values that round to the same hundredth of a degree are equal, though they differ. */
  lemma EqualWithinAHundredth()
    ensures Equals(Temperature(20.0), Some(Temperature(20.004)))
    ensures !Equals(Temperature(20.0), Some(Temperature(20.006)))
  {
  }
}
