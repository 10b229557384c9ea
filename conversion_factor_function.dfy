/**
 * A conversion by multiplication with a factor, or with a ratio numerator/denominator
 * (src/main/java/com/ciderref/sdk/math/ConversionFactorFunction.java).
 */
module ConversionFactorFunction {
  import opened Wrappers

  datatype Ratio = Ratio(numerator: real, denominator: real)

  /** Both constructors guarantee a nonzero denominator; the fields are final. */
  type ConversionFactorFunction = f: Ratio | f.denominator != 0.0 witness Ratio(1.0, 1.0)

  /** The single-factor constructor: multiply by `factor`. */
  function FromFactor(factor: real): (f: ConversionFactorFunction)
    ensures f.numerator == factor && f.denominator == 1.0
  {
    Ratio(factor, 1.0)
  }

  /** The ratio constructor: rejects a zero denominator with IllegalArgumentException. */
  function FromRatio(numerator: real, denominator: real): (r: Result<ConversionFactorFunction>)
    ensures r.Err? <==> denominator == 0.0
    ensures r.Err? ==> r.error == IllegalArgument
    ensures r.Ok? ==> r.value.numerator == numerator && r.value.denominator == denominator
  {
    if denominator == 0.0 then Err(IllegalArgument) else Ok(Ratio(numerator, denominator))
  }

  /** `applyTo(value)`: numerator times value over denominator. */
  function ApplyTo(f: ConversionFactorFunction, value: real): real
  {
    f.numerator * value / f.denominator
  }

  /**
   * `getInverse()`: the ratio turned upside down; a zero numerator has no inverse,
   * and the source answers with the factor-0 function instead of failing.
   */
  function GetInverse(f: ConversionFactorFunction): (g: ConversionFactorFunction)
    ensures f.numerator == 0.0 ==> g == FromFactor(0.0)
    ensures f.numerator != 0.0 ==> g.numerator == f.denominator && g.denominator == f.numerator
  {
    if f.numerator == 0.0 then FromFactor(0.0) else Ratio(f.denominator, f.numerator)
  }

  /** `equals`: the numerators and the denominators are each equal. */
  function Equals(f: ConversionFactorFunction, g: ConversionFactorFunction): (b: bool)
    ensures b <==> f == g
  {
    f.numerator == g.numerator && f.denominator == g.denominator
  }

  /** The inverse undoes the function whenever the numerator is nonzero. */
  lemma InverseUndoesApply(f: ConversionFactorFunction, x: real)
    requires f.numerator != 0.0
    ensures ApplyTo(GetInverse(f), ApplyTo(f, x)) == x
  {
    var y := ApplyTo(f, x);
    assert y * f.denominator == f.numerator * x;
  }

  /** Inverting twice gives back the original ratio whenever the numerator is nonzero. */
  lemma InverseOfInverse(f: ConversionFactorFunction)
    requires f.numerator != 0.0
    ensures GetInverse(GetInverse(f)) == f
  {
  }

  /** A single-factor function multiplies by its factor. */
  lemma ApplyFactor(factor: real, x: real)
    ensures ApplyTo(FromFactor(factor), x) == factor * x
    ensures ApplyTo(FromFactor(factor), 0.0) == 0.0
  {
  }

  /** The "inverse" of a zero-numerator function maps everything to zero. */
  lemma InverseOfZeroFactor(f: ConversionFactorFunction, x: real)
    requires f.numerator == 0.0
    ensures ApplyTo(f, x) == 0.0
    ensures ApplyTo(GetInverse(f), x) == 0.0
  {
  }

  /** Equality is on the representation: 2/4 and 1/2 convert alike but are not equal. */
  lemma EqualsIsNotExtensional(x: real)
    ensures ApplyTo(Ratio(2.0, 4.0), x) == ApplyTo(Ratio(1.0, 2.0), x)
    ensures !Equals(Ratio(2.0, 4.0), Ratio(1.0, 2.0))
  {
  }
}
