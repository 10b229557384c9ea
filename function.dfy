/**
 * The SDK's `Function` interface (a real-to-real map with an inverse) closed over its
 * implementations: the identity, a conversion factor, and the temperature conversions.
 */
module Function {
  import CF = ConversionFactorFunction
  import CelsiusToFahrenheitFunction

  datatype Function =
    | Identity
    | Factor(factor: CF.ConversionFactorFunction)
    | TemperatureConversion(conversion: CelsiusToFahrenheitFunction.TemperatureFunction)

  function ApplyTo(f: Function, value: real): real
  {
    match f
    case Identity => value
    case Factor(g) => CF.ApplyTo(g, value)
    case TemperatureConversion(g) => CelsiusToFahrenheitFunction.ApplyTo(g, value)
  }

  /** `IdentityFunction.getInverse()` returns the identity itself. */
  function GetInverse(f: Function): (g: Function)
    ensures g.Identity? <==> f.Identity?
    ensures g.Factor? <==> f.Factor?
    ensures f.TemperatureConversion? ==> g.TemperatureConversion? && g != f
  {
    match f
    case Identity => Identity
    case Factor(g) => Factor(CF.GetInverse(g))
    case TemperatureConversion(g) => TemperatureConversion(CelsiusToFahrenheitFunction.GetInverse(g))
  }

  /** True for the identity and the conversion factors, which scale their input. */
  predicate IsScaling(f: Function)
  {
    f.Identity? || f.Factor?
  }

  /** The factor by which a scaling function multiplies its input. */
  function Multiplier(f: Function): real
    requires IsScaling(f)
  {
    if f.Identity? then 1.0 else f.factor.numerator / f.factor.denominator
  }

  /** A scaling function multiplies its input by its multiplier. */
  lemma ApplyScaling(f: Function, x: real)
    requires IsScaling(f)
    ensures ApplyTo(f, x) == Multiplier(f) * x
  {
  }

  /** Only a zero conversion factor has no true inverse. */
  predicate Invertible(f: Function)
  {
    !(f.Factor? && f.factor.numerator == 0.0)
  }

  /** For every invertible function, applying the inverse after the function gives the input back. */
  lemma InverseUndoesApply(f: Function, x: real)
    requires Invertible(f)
    ensures ApplyTo(GetInverse(f), ApplyTo(f, x)) == x
  {
    match f
    case Identity =>
    case Factor(g) => CF.InverseUndoesApply(g, x);
    case TemperatureConversion(g) => CelsiusToFahrenheitFunction.InverseUndoesApply(g, x);
  }

  /** Inverting an invertible function twice gives it back. */
  lemma InverseOfInverse(f: Function)
    requires Invertible(f)
    ensures GetInverse(GetInverse(f)) == f
  {
    match f
    case Identity =>
    case Factor(g) => CF.InverseOfInverse(g);
    case TemperatureConversion(g) => CelsiusToFahrenheitFunction.InverseOfInverse(g);
  }

  /** Scaling by ga/gb and then by gb/gc is scaling by ga/gc. */
  lemma ScalingsCompose(f: Function, g: Function, h: Function, ga: real, gb: real, gc: real, x: real)
    requires IsScaling(f) && IsScaling(g) && IsScaling(h)
    requires gb > 0.0 && gc > 0.0
    requires Multiplier(f) == ga / gb && Multiplier(g) == gb / gc && Multiplier(h) == ga / gc
    ensures ApplyTo(g, ApplyTo(f, x)) == ApplyTo(h, x)
  {
    ApplyScaling(f, x);
    ApplyScaling(g, ApplyTo(f, x));
    ApplyScaling(h, x);
    RatiosChain(ga, gb, gc, x);
  }

  /** The arithmetic behind `ScalingsCompose`. */
  lemma RatiosChain(ga: real, gb: real, gc: real, x: real)
    requires gb > 0.0 && gc > 0.0
    ensures gb / gc * (ga / gb * x) == ga / gc * x
  {
    calc {
      gb / gc * (ga / gb * x);
      (gb * ga * x) / (gc * gb);
      ga / gc * x;
    }
  }
}
