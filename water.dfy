/**
 * Pure water: its freezing and boiling points under standard pressure, and an
 * empirical piecewise-polynomial fit of its density between them
 * (src/main/java/com/ciderref/sdk/substance/Water.java).
 */
module Water {
  import opened Wrappers
  import opened Temperature

  /** The freezing point of pure water under standard pressure: 0 ℃. */
  const StandardFreezingPoint: Temperature := Temperature(0.0)

  /** The boiling point of pure water under standard pressure: 100 ℃. */
  const StandardBoilingPoint: Temperature := Temperature(100.0)

  /** The base regression, solid from 0 ℃ to 50 ℃. */
  function BaseDensity(t: real): real
  {
    999.85 + 0.0531 * t - 0.0075 * (t * t) + 0.00004 * (t * t * t) - 0.0000001 * (t * t * t * t)
  }

  /** The correction subtracted above 50 ℃, in degrees above 50. */
  function CorrectionAbove50(d: real): real
  {
    0.0299 + 0.0267 * d - 0.0019 * (d * d) + 0.00009 * (d * d * d) - 0.0000009 * (d * d * d * d)
  }

  /** The correction added above 70 ℃, in degrees above 70. */
  function CorrectionAbove70(e: real): (r: real)
    ensures e >= 0.0 ==> r >= 0.0463
  {
    0.0463 + 0.0024 * e + 0.0006 * (e * e)
  }

  /** The regression at `degreesC`, in g/L: the base, corrected above 50 ℃ and again above 70 ℃. */
  function DensityAt(degreesC: real): real
  {
    var sg := BaseDensity(degreesC);
    var sg' := if degreesC > 50.0 then sg - CorrectionAbove50(degreesC - 50.0) else sg;
    if degreesC > 70.0 then sg' + CorrectionAbove70(degreesC - 70.0) else sg'
  }

  /** A temperature the density is defined for: not cooler than freezing, not warmer than boiling. */
  predicate IsLiquid(t: Temperature)
  {
    !IsCoolerThan(t, StandardFreezingPoint) && !IsWarmerThan(t, StandardBoilingPoint)
  }

  /** At hundredth-of-a-degree resolution, water is liquid from -0.005 ℃ up to, not including, 100.005 ℃. */
  lemma IsLiquidRange(t: Temperature)
    ensures IsLiquid(t) <==> -0.005 <= t.degreesC < 100.005
  {
  }

  /**
   * `getDensity(temperature)`, in g/L: a missing temperature is an illegal argument; one
   * cooler than freezing or warmer than boiling is an illegal property value; otherwise
   * the regression, which is positive over the whole range.
   */
  function GetDensity(temperature: Option<Temperature>): (r: Result<real>)
    ensures temperature.None? <==> r == Err(IllegalArgument)
    ensures temperature.Some? ==>
      (r == Err(IllegalPropertyValue) <==> temperature.value.degreesC < -0.005 || temperature.value.degreesC >= 100.005)
    ensures r.Ok? ==> r.value == DensityAt(temperature.value.degreesC)
    ensures r.Ok? ==> 850.0 < r.value < 1050.0
  {
    if temperature.None? then Err(IllegalArgument)
    else if IsCoolerThan(temperature.value, StandardFreezingPoint)
      || IsWarmerThan(temperature.value, StandardBoilingPoint) then
      IsLiquidRange(temperature.value);
      Err(IllegalPropertyValue)
    else
      IsLiquidRange(temperature.value);
      DensityBounds(temperature.value.degreesC);
      Ok(DensityAt(temperature.value.degreesC))
  }

  /** `DENSITY_AT_20_DEGREES_CELSIUS`, in g/L: the regression's value at 20 ℃ (see `DensityAt20`). */
  const DensityAt20DegreesCelsius: real := 998.216

  /** Bounds on the powers of a value no larger in magnitude than `b`. */
  lemma PowerBounds(x: real, b: real)
    requires 0.0 <= b && -b <= x <= b
    ensures 0.0 <= x * x <= b * b
    ensures -(b * b * b) <= x * x * x <= b * b * b
    ensures 0.0 <= x * x * x * x <= b * b * b * b
  {
    assert x * x <= b * b by {
      if x >= 0.0 {
        assert x * x <= x * b <= b * b;
      } else {
        assert x * x <= -x * b <= b * b;
      }
    }
    var s := x * x;
    assert x * x * x == s * x;
    if x >= 0.0 {
      assert s * x <= s * b <= b * b * b;
    } else {
      assert -(s * b) <= s * x;
      assert s * b <= b * b * b;
    }
    assert x * x * x * x == s * s;
    assert s * s <= s * (b * b) <= (b * b) * (b * b);
  }

  /** Over the liquid range the regression stays between 850 and 1050 g/L. */
  lemma DensityBounds(t: real)
    requires -0.005 <= t < 100.005
    ensures 850.0 < DensityAt(t) < 1050.0
  {
    PowerBounds(t, 100.005);
    assert 869.0 < BaseDensity(t) < 1046.0;
    if t > 50.0 {
      var d := t - 50.0;
      PowerBounds(d, 50.005);
      assert -25.0 < CorrectionAbove50(d) < 13.0;
    }
    if t > 70.0 {
      var e := t - 70.0;
      PowerBounds(e, 30.005);
      assert 0.0 < CorrectionAbove70(e) < 1.0;
    }
  }

  /** The density at 20 ℃ is 998.216 g/L, within 0.05 g/L of the tabulated 998.2 g/L. */
  lemma DensityAt20()
    ensures DensityAt20DegreesCelsius == DensityAt(20.0)
    ensures GetDensity(Some(Temperature(20.0))) == Ok(DensityAt20DegreesCelsius)
    ensures -0.05 <= DensityAt20DegreesCelsius - 998.2 <= 0.05
  {
  }
}
