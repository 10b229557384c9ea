/**
 * `TemperatureUnits`: each unit of temperature converts values to and from the reference
 * unit, degrees Celsius (src/main/java/com/ciderref/sdk/property/TemperatureUnits.java).
 * The `ConversionLogic` interface each unit carries is folded into the two functions below.
 */
module TemperatureUnits {
  import opened Units
  import CelsiusToFahrenheitFunction

  /** A value in degrees Celsius, expressed in `units`: converting it back gives the value again. */
  function FromReferenceUnits(units: TemperatureUnit, value: real): (r: real)
    ensures ToReferenceUnits(units, r) == value
  {
    match units
    case Celsius => value
    case Fahrenheit => value * 9.0 / 5.0 + 32.0
  }

  /**
   * A value expressed in `units`, in degrees Celsius: water freezes at 32 ℉ and boils at
   * 212 ℉, and −40 is the same in both scales.
   */
  function ToReferenceUnits(units: TemperatureUnit, value: real): (r: real)
    ensures units == Fahrenheit ==> (r == 0.0 <==> value == 32.0) && (r == 100.0 <==> value == 212.0)
    ensures value == -40.0 ==> r == -40.0
  {
    match units
    case Celsius => value
    case Fahrenheit => (value - 32.0) * 5.0 / 9.0
  }

  /**
   * `units.convert(value, newUnits)`: the same temperature expressed in `newUnits`.
   * The result denotes the same temperature in degrees Celsius as the argument.
   */
  function Convert(units: TemperatureUnit, value: real, newUnits: TemperatureUnit): (r: real)
    ensures units == newUnits ==> r == value
    ensures ToReferenceUnits(newUnits, r) == ToReferenceUnits(units, value)
  {
    if units == newUnits then value
    else FromReferenceUnits(newUnits, ToReferenceUnits(units, value))
  }

  /** Converting to the reference unit and back loses nothing, in either direction. */
  lemma ReferenceRoundTrip(units: TemperatureUnit, value: real)
    ensures FromReferenceUnits(units, ToReferenceUnits(units, value)) == value
    ensures ToReferenceUnits(units, FromReferenceUnits(units, value)) == value
  {
  }

  /** Converting there and back gives the original value. */
  lemma ConvertRoundTrip(a: TemperatureUnit, b: TemperatureUnit, value: real)
    ensures Convert(b, Convert(a, value, b), a) == value
  {
    if a != b {
      ReferenceRoundTrip(a, value);
      ReferenceRoundTrip(b, ToReferenceUnits(a, value));
    }
  }

  /** Conversion keeps the order of temperatures. */
  lemma ConvertIsIncreasing(a: TemperatureUnit, b: TemperatureUnit, x: real, y: real)
    requires x < y
    ensures Convert(a, x, b) < Convert(a, y, b)
  {
  }

  /** Water freezes at 0 ℃ = 32 ℉ and boils at 100 ℃ = 212 ℉. */
  lemma FixedPoints()
    ensures Convert(Celsius, 0.0, Fahrenheit) == 32.0
    ensures Convert(Celsius, 100.0, Fahrenheit) == 212.0
    ensures Convert(Fahrenheit, -40.0, Celsius) == -40.0
  {
  }

  /** The units agree with the conversion functions of the temperature conversion table. */
  lemma AgreesWithConversionFunctions(value: real)
    ensures Convert(Celsius, value, Fahrenheit)
      == CelsiusToFahrenheitFunction.ApplyTo(CelsiusToFahrenheitFunction.CelsiusToFahrenheit, value)
    ensures Convert(Fahrenheit, value, Celsius)
      == CelsiusToFahrenheitFunction.ApplyTo(CelsiusToFahrenheitFunction.FahrenheitToCelsius, value)
  {
  }
}
