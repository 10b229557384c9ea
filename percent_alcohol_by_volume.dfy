/**
 * Alcohol content between 0 % and 100 % by volume inclusive, compared to the nearest
 * hundredth of a percent (src/main/java/com/ciderref/sdk/property/PercentAlcoholByVolume.java).
 */
module PercentAlcoholByVolume {
  import opened Wrappers
  import opened Numerics

  datatype PercentAlcoholByVolumeData = PercentAlcoholByVolumeData(value: real)

  /** The constructor's range checks keep every value between 0 and 100. */
  type PercentAlcoholByVolume = a: PercentAlcoholByVolumeData | 0.0 <= a.value <= 100.0
    witness PercentAlcoholByVolumeData(0.0)

  /**
   * The constructor: NaN is an illegal argument; an infinity, a value below 0 or above
   * 100 is an illegal property value; the value is kept as given.
   */
  function New(abv: Double): (r: Result<PercentAlcoholByVolume>)
    ensures abv.NaN? <==> r == Err(IllegalArgument)
    ensures r == Err(IllegalPropertyValue) <==> abv.IsInfinite() || (abv.Finite? && (abv.value < 0.0 || abv.value > 100.0))
    ensures r.Ok? ==> GetValue(r.value) == abv.value
  {
    if abv.IsNaN() then Err(IllegalArgument)
    else if abv.IsInfinite() || CompareDouble(abv, 0.0) < 0 || CompareDouble(abv, 100.0) > 0 then
      Err(IllegalPropertyValue)
    else Ok(PercentAlcoholByVolumeData(abv.value))
  }

  /** `getValue()`. */
  function GetValue(a: PercentAlcoholByVolume): real
  {
    a.value
  }

  /** The value in hundredths of a percent, rounded half up. */
  function ComparableValue(a: PercentAlcoholByVolume): (c: int)
    ensures a.value * 100.0 - 0.5 < c as real <= a.value * 100.0 + 0.5
  {
    Round(a.value * 100.0)
  }

  /** Orders values to the nearest hundredth of a percent. */
  function CompareTo(a: PercentAlcoholByVolume, other: PercentAlcoholByVolume): (c: int)
    ensures c < 0 ==> a.value < other.value
    ensures c > 0 ==> a.value > other.value
    ensures a.value + 0.01 <= other.value ==> c < 0
    ensures other.value + 0.01 <= a.value ==> c > 0
  {
    RoundOrder(a.value * 100.0, other.value * 100.0);
    RoundOrder(other.value * 100.0, a.value * 100.0);
    Compare(ComparableValue(a), ComparableValue(other))
  }

  /** `equals`: the other object is an alcohol content and compares as the same. */
  function Equals(a: PercentAlcoholByVolume, other: Option<PercentAlcoholByVolume>): (e: bool)
    ensures e ==> other.Some? && -0.01 < a.value - other.value.value < 0.01
    ensures other.Some? && a == other.value ==> e
  {
    other.Some? && CompareTo(a, other.value) == 0
  }

  /** `compareTo` is antisymmetric and transitive. */
  lemma CompareToIsAnOrder(a: PercentAlcoholByVolume, b: PercentAlcoholByVolume, c: PercentAlcoholByVolume)
    ensures CompareTo(a, b) < 0 <==> CompareTo(b, a) > 0
    ensures CompareTo(a, b) == 0 <==> CompareTo(b, a) == 0
    ensures CompareTo(a, b) < 0 && CompareTo(b, c) < 0 ==> CompareTo(a, c) < 0
    ensures CompareTo(a, b) == 0 && CompareTo(b, c) == 0 ==> CompareTo(a, c) == 0
  {
  }

  /** 2.525 % rounds half up to 2.53 %; both ends of the range are accepted. */
  lemma Resolution()
    ensures Equals(PercentAlcoholByVolumeData(2.525), Some(PercentAlcoholByVolumeData(2.53)))
    ensures New(Finite(0.0)).Ok? && New(Finite(100.0)).Ok?
  {
  }
}
