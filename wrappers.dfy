/**
 * Failure-compatible wrappers shared by the whole model, and the two exception
 * kinds the SDK throws.
 */
module Wrappers {

  /** A value that may be absent: models a nullable Java reference. */
  datatype Option<+T> = None | Some(value: T)

  /**
   * The SDK's two exception kinds. `IllegalArgument` is java.lang.IllegalArgumentException
   * (malformed input); `IllegalPropertyValue` is the SDK's IllegalPropertyValueException
   * (well-formed input outside the supported physical range), which in Java is a
   * subclass of the first.
   */
  datatype Error = IllegalArgument | IllegalPropertyValue

  /** The result of a computation that may throw one of the SDK's exceptions. */
  datatype Result<+T> = Ok(value: T) | Err(error: Error) {
    predicate IsFailure() { Err? }

    function PropagateFailure<U>(): Result<U>
      requires Err?
    {
      Err(error)
    }

    function Extract(): T
      requires Ok?
    {
      value
    }
  }

  /** The result of a `void` Java method that may throw. */
  datatype Outcome = Pass | Fail(error: Error)
}

/**
 * Java's numeric primitives as the model sees them: a `double` argument that may be
 * NaN or infinite, `Math.round`, `Long.compare` and `Double.compare`.
 */
module Numerics {

  /** A Java `double` argument: finite values are reals; NaN and the infinities are kept apart. */
  datatype Double = Finite(value: real) | NaN | PositiveInfinity | NegativeInfinity {
    predicate IsNaN() { NaN? }
    predicate IsInfinite() { PositiveInfinity? || NegativeInfinity? }
  }

  /** `Long.compare(a, b)`: -1, 0 or 1. */
  function Compare(a: int, b: int): (c: int)
    ensures c == 0 <==> a == b
    ensures c < 0 <==> a < b
    ensures c > 0 <==> a > b
  {
    if a < b then -1 else if a == b then 0 else 1
  }

  /** `Double.compare(a, b)` on two finite values: -1, 0 or 1. */
  function CompareReals(a: real, b: real): (c: int)
    ensures c == 0 <==> a == b
    ensures c < 0 <==> a < b
    ensures c > 0 <==> a > b
  {
    if a < b then -1 else if a == b then 0 else 1
  }

  /**
   * `Double.compare(d, r)` for a possibly non-finite `d` against a finite `r`:
   * Java orders NaN above every other value, including positive infinity.
   */
  function CompareDouble(d: Double, r: real): (c: int)
    ensures d.Finite? ==> c == CompareReals(d.value, r)
    ensures d.NegativeInfinity? ==> c < 0
    ensures d.PositiveInfinity? || d.NaN? ==> c > 0
  {
    match d
    case Finite(v) => CompareReals(v, r)
    case NegativeInfinity => -1
    case _ => 1
  }

  /** `Math.round(x)`: the nearest integer, halves rounded up. */
  function Round(x: real): (n: int)
    ensures x - 0.5 < n as real <= x + 0.5
  {
    (x + 0.5).Floor
  }

  /** Rounding never reverses an order. */
  lemma RoundMonotone(x: real, y: real)
    requires x <= y
    ensures Round(x) <= Round(y)
  {
  }

  /** Two values at least one unit apart never round to the same integer. */
  lemma RoundSeparates(x: real, y: real)
    requires x + 1.0 <= y
    ensures Round(x) < Round(y)
  {
  }

  /** A strict order between rounded values comes from a strict order between the values. */
  lemma RoundedLessThan(x: real, y: real)
    requires Round(x) < Round(y)
    ensures x < y
  {
    if y <= x {
      RoundMonotone(y, x);
    }
  }

  /** Both directions in which rounding relates to order. */
  lemma RoundOrder(x: real, y: real)
    ensures Round(x) < Round(y) ==> x < y
    ensures x + 1.0 <= y ==> Round(x) < Round(y)
  {
    if Round(x) < Round(y) {
      RoundedLessThan(x, y);
    }
    if x + 1.0 <= y {
      RoundSeparates(x, y);
    }
  }
}
