/**
 * A sugar content between 0 and 25 degrees Brix inclusive, compared to the nearest
 * hundred-thousandth of a degree (src/main/java/com/ciderref/sdk/property/Brix.java).
 */
module Brix {
  import opened Wrappers
  import opened Numerics

  datatype BrixData = BrixData(value: real)

  /** The constructor's range checks keep every value between 0 and 25. */
  type Brix = b: BrixData | 0.0 <= b.value <= 25.0 witness BrixData(0.0)

  /**
   * The constructor: NaN, values below 0 and values above 25 (so both infinities) are
   * illegal arguments; the value is kept as given.
   */
  function New(value: Double): (r: Result<Brix>)
    ensures r.Err? <==> !value.Finite? || value.value < 0.0 || value.value > 25.0
    ensures r.Err? ==> r.error == IllegalArgument
    ensures r.Ok? ==> GetValue(r.value) == value.value
  {
    if value.IsNaN() then Err(IllegalArgument)
    else if CompareDouble(value, 0.0) < 0 then Err(IllegalArgument)
    else if CompareDouble(value, 25.0) > 0 then Err(IllegalArgument)
    else Ok(BrixData(value.value))
  }

  /** `getValue()`. */
  function GetValue(b: Brix): real
  {
    b.value
  }

  /** The value in hundred-thousandths of a degree, rounded half up. */
  function ComparableBrix(b: Brix): (c: int)
    ensures b.value * 100000.0 - 0.5 < c as real <= b.value * 100000.0 + 0.5
  {
    Round(b.value * 100000.0)
  }

  /** Orders values to the nearest hundred-thousandth of a degree Brix. */
  function CompareTo(b: Brix, other: Brix): (c: int)
    ensures c < 0 ==> b.value < other.value
    ensures c > 0 ==> b.value > other.value
    ensures b.value + 0.00001 <= other.value ==> c < 0
    ensures other.value + 0.00001 <= b.value ==> c > 0
  {
    RoundOrder(b.value * 100000.0, other.value * 100000.0);
    RoundOrder(other.value * 100000.0, b.value * 100000.0);
    Compare(ComparableBrix(b), ComparableBrix(other))
  }

  /** `equals`: the other object is a Brix value and compares as the same. */
  function Equals(b: Brix, other: Option<Brix>): (e: bool)
    ensures e ==> other.Some? && -0.00001 < b.value - other.value.value < 0.00001
    ensures other.Some? && b == other.value ==> e
  {
    other.Some? && CompareTo(b, other.value) == 0
  }

  /** `compareTo` is antisymmetric and transitive. */
  lemma CompareToIsAnOrder(b: Brix, c: Brix, d: Brix)
    ensures CompareTo(b, c) < 0 <==> CompareTo(c, b) > 0
    ensures CompareTo(b, c) == 0 <==> CompareTo(c, b) == 0
    ensures CompareTo(b, c) < 0 && CompareTo(c, d) < 0 ==> CompareTo(b, d) < 0
    ensures CompareTo(b, c) == 0 && CompareTo(c, d) == 0 ==> CompareTo(b, d) == 0
  {
  }

  /** Both ends of the range are accepted, and both infinities are refused by the range checks. */
  lemma RangeEndpoints()
    ensures New(Finite(0.0)).Ok? && New(Finite(25.0)).Ok?
    ensures New(PositiveInfinity) == Err(IllegalArgument) && New(NegativeInfinity) == Err(IllegalArgument)
  {
  }
}
