/**
 * A non-negative sugar content in degrees Brix with no upper bound, compared to the
 * nearest hundred-thousandth of a degree
 * (src/main/java/com/ciderref/sdk/property/DegreesBrix.java).
 */
module DegreesBrix {
  import opened Wrappers
  import opened Numerics

  datatype DegreesBrixData = DegreesBrixData(value: real)

  /** The constructor rejects negative values, so every value is non-negative. */
  type DegreesBrix = b: DegreesBrixData | b.value >= 0.0 witness DegreesBrixData(0.0)

  /** The constructor: NaN, infinities and negative values are illegal arguments; the value is kept as given. */
  function New(value: Double): (r: Result<DegreesBrix>)
    ensures r.Err? <==> !value.Finite? || value.value < 0.0
    ensures r.Err? ==> r.error == IllegalArgument
    ensures r.Ok? ==> GetValue(r.value) == value.value
  {
    if value.IsNaN() then Err(IllegalArgument)
    else if value.IsInfinite() then Err(IllegalArgument)
    else if CompareDouble(value, 0.0) < 0 then Err(IllegalArgument)
    else Ok(DegreesBrixData(value.value))
  }

  /** `getValue()`. */
  function GetValue(b: DegreesBrix): real
  {
    b.value
  }

  /** The value in hundred-thousandths of a degree, rounded half up. */
  function ComparableBrix(b: DegreesBrix): (c: int)
    ensures b.value * 100000.0 - 0.5 < c as real <= b.value * 100000.0 + 0.5
  {
    Round(b.value * 100000.0)
  }

  /** Orders values to the nearest hundred-thousandth of a degree Brix. */
  function CompareTo(b: DegreesBrix, other: DegreesBrix): (c: int)
    ensures c < 0 ==> b.value < other.value
    ensures c > 0 ==> b.value > other.value
    ensures b.value + 0.00001 <= other.value ==> c < 0
    ensures other.value + 0.00001 <= b.value ==> c > 0
  {
    RoundOrder(b.value * 100000.0, other.value * 100000.0);
    RoundOrder(other.value * 100000.0, b.value * 100000.0);
    Compare(ComparableBrix(b), ComparableBrix(other))
  }

  /** `equals`: the other object is a Brix value and compares as the same. */
  function Equals(b: DegreesBrix, other: Option<DegreesBrix>): (e: bool)
    ensures e ==> other.Some? && -0.00001 < b.value - other.value.value < 0.00001
    ensures other.Some? && b == other.value ==> e
  {
    other.Some? && CompareTo(b, other.value) == 0
  }

  /** `compareTo` is antisymmetric and transitive. */
  lemma CompareToIsAnOrder(b: DegreesBrix, c: DegreesBrix, d: DegreesBrix)
    ensures CompareTo(b, c) < 0 <==> CompareTo(c, b) > 0
    ensures CompareTo(b, c) == 0 <==> CompareTo(c, b) == 0
    ensures CompareTo(b, c) < 0 && CompareTo(c, d) < 0 ==> CompareTo(b, d) < 0
    ensures CompareTo(b, c) == 0 && CompareTo(c, d) == 0 ==> CompareTo(b, d) == 0
  {
  }

  /** 8 is below 8.00001, but equal to 8.0000049; there is no upper bound. */
  lemma Resolution()
    ensures CompareTo(DegreesBrixData(8.0), DegreesBrixData(8.00001)) < 0
    ensures Equals(DegreesBrixData(8.0), Some(DegreesBrixData(8.0000049)))
    ensures New(Finite(1000.0)).Ok?
  {
  }
}
