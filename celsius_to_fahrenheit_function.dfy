/**
 * The affine temperature conversion and its anonymous inverse
 * (src/main/java/com/ciderref/sdk/property/units/CelsiusToFahrenheitFunction.java).
 */
module CelsiusToFahrenheitFunction {

  /** The Celsius-to-Fahrenheit function object and the inverse object it hands out. */
  datatype TemperatureFunction = CelsiusToFahrenheit | FahrenheitToCelsius

  /** `applyTo`: both directions fix −40, and Celsius-to-Fahrenheit sends only freezing to 32. */
  function ApplyTo(f: TemperatureFunction, degrees: real): (r: real)
    ensures degrees == -40.0 ==> r == -40.0
    ensures f == CelsiusToFahrenheit ==> (r == 32.0 <==> degrees == 0.0)
  {
    match f
    case CelsiusToFahrenheit => degrees * 9.0 / 5.0 + 32.0
    case FahrenheitToCelsius => (degrees - 32.0) * 5.0 / 9.0
  }

  /** The inverse's own `getInverse` returns the enclosing Celsius-to-Fahrenheit object. */
  function GetInverse(f: TemperatureFunction): (g: TemperatureFunction)
    ensures g != f
  {
    match f
    case CelsiusToFahrenheit => FahrenheitToCelsius
    case FahrenheitToCelsius => CelsiusToFahrenheit
  }

  /** Freezing and boiling points of water map as expected, and the map is strictly increasing. */
  lemma CelsiusToFahrenheitValues(c: real, d: real)
    ensures ApplyTo(CelsiusToFahrenheit, 0.0) == 32.0
    ensures ApplyTo(CelsiusToFahrenheit, 100.0) == 212.0
    ensures ApplyTo(FahrenheitToCelsius, 212.0) == 100.0
    ensures c < d ==> ApplyTo(CelsiusToFahrenheit, c) < ApplyTo(CelsiusToFahrenheit, d)
  {
  }

  /** Either function followed by its inverse is the identity. */
  lemma InverseUndoesApply(f: TemperatureFunction, x: real)
    ensures ApplyTo(GetInverse(f), ApplyTo(f, x)) == x
  {
  }

  /** The inverse of the inverse is the original function object. */
  lemma InverseOfInverse(f: TemperatureFunction)
    ensures GetInverse(GetInverse(f)) == f
  {
  }
}
