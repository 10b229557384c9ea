/**
 * A non-negative volume, held in milliliters and compared to the nearest microliter
 * (src/main/java/com/ciderref/sdk/property/Volume.java).
 *
 * The constructor multiplies US gallons by 3785.41178 while `getValue` divides by the
 * exact 3785.411784 of the volume conversion table. `New` keeps the constructor as
 * written and `GallonRoundTripFailsAsWritten` shows the discrepancy; `NewCorrected`
 * multiplies by the exact factor and round-trips in every unit. The rest of the model builds
 * volumes only in liters, where the two agree (`CorrectionOnlyAffectsGallons`).
 */
module Volume {
  import opened Wrappers
  import opened Numerics
  import opened Units
  import opened Function
  import VolumeConversionFunctions

  datatype VolumeData = VolumeData(milliliters: real)

  /** The constructor rejects negative volumes, so every volume holds a non-negative number of milliliters. */
  type Volume = v: VolumeData | v.milliliters >= 0.0 witness VolumeData(0.0)

  /** `Volume.ONE_LITER`. */
  const OneLiter: Volume := VolumeData(1000.0)

  /** The number of milliliters in one of `units`, as `getValue` divides by it. */
  function MillilitersPer(units: VolumeUnit): (ml: real)
    ensures ml > 0.0
  {
    VolumeConversionFunctions.MillilitersIn(units)
  }

  /** The factor the Java constructor multiplies by: 3785.41178 for US gallons. */
  function ConstructorFactorAsWritten(units: VolumeUnit): real
  {
    match units
    case Liters => 1000.0
    case USGallons => 3785.41178
    case Milliliters => 1.0
  }

  /** The constructor's argument checks: missing units, NaN, negative or infinite values. */
  predicate Rejects(value: Double, units: Option<VolumeUnit>)
  {
    units.None? || value.IsNaN() || CompareDouble(value, 0.0) < 0 || value.IsInfinite()
  }

  /**
   * The constructor as written: missing units, NaN, a negative value and infinity are
   * illegal arguments; otherwise the volume is converted to milliliters. Reading it back
   * in the same units gives the value passed in, except in US gallons.
   */
  function New(value: Double, units: Option<VolumeUnit>): (r: Result<Volume>)
    ensures r.Err? <==> units.None? || !value.Finite? || value.value < 0.0
    ensures r.Err? ==> r.error == IllegalArgument
    ensures r.Ok? && units != Some(USGallons) ==> GetValue(r.value, units) == Ok(value.value)
  {
    if Rejects(value, units) then Err(IllegalArgument)
    else Ok(VolumeData(value.value * ConstructorFactorAsWritten(units.value)))
  }

  /**
   * The constructor as intended: the same checks, and the exact factors, so that reading
   * the volume back in the same units gives the value passed in, for every unit.
   */
  function NewCorrected(value: Double, units: Option<VolumeUnit>): (r: Result<Volume>)
    ensures r.Err? <==> units.None? || !value.Finite? || value.value < 0.0
    ensures r.Err? ==> r.error == IllegalArgument
    ensures r.Ok? ==> GetValue(r.value, units) == Ok(value.value)
  {
    if Rejects(value, units) then Err(IllegalArgument)
    else Ok(VolumeData(value.value * MillilitersPer(units.value)))
  }

  /** `getValue(units)`: the volume in `units`; missing units are an illegal argument. */
  function GetValue(v: Volume, units: Option<VolumeUnit>): (r: Result<real>)
    ensures units.None? <==> r == Err(IllegalArgument)
    ensures r.Ok? ==> r.value >= 0.0
  {
    if units.None? then Err(IllegalArgument)
    else Ok(v.milliliters / MillilitersPer(units.value))
  }

  /** The volume in microliters, rounded half up. */
  function ComparableValue(v: Volume): (c: int)
    ensures v.milliliters * 1000.0 - 0.5 < c as real <= v.milliliters * 1000.0 + 0.5
  {
    Round(v.milliliters * 1000.0)
  }

  /** Orders volumes from smallest to largest, to the nearest microliter. */
  function CompareTo(v: Volume, other: Volume): (c: int)
    ensures c < 0 ==> v.milliliters < other.milliliters
    ensures c > 0 ==> v.milliliters > other.milliliters
    ensures v.milliliters + 0.001 <= other.milliliters ==> c < 0
    ensures other.milliliters + 0.001 <= v.milliliters ==> c > 0
  {
    RoundOrder(v.milliliters * 1000.0, other.milliliters * 1000.0);
    RoundOrder(other.milliliters * 1000.0, v.milliliters * 1000.0);
    Compare(ComparableValue(v), ComparableValue(other))
  }

  /** `equals`: the other object is a volume and compares as the same. */
  function Equals(v: Volume, other: Option<Volume>): (b: bool)
    ensures b ==> other.Some? && -0.001 < v.milliliters - other.value.milliliters < 0.001
    ensures other.Some? && v == other.value ==> b
  {
    other.Some? && CompareTo(v, other.value) == 0
  }

  /** `new Volume(0, Milliliters)`, the zero volume mass concentrations and densities refuse. */
  const ZeroVolume: Volume := VolumeData(0.0)

  /** `ZERO_VOLUME.equals(v)`: the volume rounds to zero microliters. */
  function EqualsZero(v: Volume): (b: bool)
    ensures b <==> v.milliliters < 0.0005
  {
    Equals(ZeroVolume, Some(v))
  }

  /** As written, five US gallons do not read back as five US gallons. */
  lemma GallonRoundTripFailsAsWritten()
    ensures New(Finite(5.0), Some(USGallons)).Ok?
    ensures GetValue(New(Finite(5.0), Some(USGallons)).value, Some(USGallons)) != Ok(5.0)
  {
    var v := New(Finite(5.0), Some(USGallons)).value;
    assert v.milliliters == 18927.0589;
    assert 18927.0589 / 3785.411784 < 5.0;
  }

  /** The two constructors differ only for US gallons. */
  lemma CorrectionOnlyAffectsGallons(value: Double, units: Option<VolumeUnit>)
    requires units != Some(USGallons)
    ensures NewCorrected(value, units) == New(value, units)
  {
  }

  /** Reading a volume in any unit agrees with the volume conversion table's entry from milliliters. */
  lemma GetValueAgreesWithTable(v: Volume, units: VolumeUnit)
    ensures GetValue(v, Some(units))
      == Ok(ApplyTo(VolumeConversionFunctions.VolumeConversion(Milliliters, units), v.milliliters))
  {
    VolumeConversionFunctions.ConvertsByMilliliters(Milliliters, units, v.milliliters);
  }

  /** A volume given in any unit holds the table's conversion of the value to milliliters. */
  lemma NewAgreesWithTable(value: real, units: VolumeUnit)
    requires value >= 0.0
    ensures NewCorrected(Finite(value), Some(units)).Ok?
    ensures NewCorrected(Finite(value), Some(units)).value.milliliters
      == ApplyTo(VolumeConversionFunctions.VolumeConversion(units, Milliliters), value)
  {
    VolumeConversionFunctions.ConvertsByMilliliters(units, Milliliters, value);
  }

  /**
   * A volume given in one unit and read in another is the table's conversion of the value
   * between those units.
   */
  lemma ConvertsLikeTable(value: real, from: VolumeUnit, to: VolumeUnit)
    requires value >= 0.0
    ensures NewCorrected(Finite(value), Some(from)).Ok?
    ensures GetValue(NewCorrected(Finite(value), Some(from)).value, Some(to))
      == Ok(ApplyTo(VolumeConversionFunctions.VolumeConversion(from, to), value))
  {
    var v := NewCorrected(Finite(value), Some(from)).value;
    NewAgreesWithTable(value, from);
    GetValueAgreesWithTable(v, to);
    VolumeConversionFunctions.PathConsistent(from, Milliliters, to, value);
  }

  /** `compareTo` is antisymmetric and transitive. */
  lemma CompareToIsAnOrder(u: Volume, v: Volume, w: Volume)
    ensures CompareTo(u, v) < 0 <==> CompareTo(v, u) > 0
    ensures CompareTo(u, v) == 0 <==> CompareTo(v, u) == 0
    ensures CompareTo(u, v) < 0 && CompareTo(v, w) < 0 ==> CompareTo(u, w) < 0
    ensures CompareTo(u, v) == 0 && CompareTo(v, w) == 0 ==> CompareTo(u, w) == 0
  {
  }

  /**
   * Volumes less than a microliter apart may still compare as different: rounding to
   * the nearest microliter splits 0.0004 mL and 0.0006 mL.
   */
  lemma NearbyVolumesMayDiffer()
    ensures !Equals(VolumeData(0.0004), Some(VolumeData(0.0006)))
  {
  }

  /** One liter is 1000 milliliters, and no volume is no volume in any units. */
  lemma EqualAcrossUnits()
    ensures New(Finite(1.0), Some(Liters)).Ok? && New(Finite(1000.0), Some(Milliliters)).Ok?
    ensures Equals(New(Finite(1.0), Some(Liters)).value, Some(New(Finite(1000.0), Some(Milliliters)).value))
    ensures New(Finite(0.0), Some(Liters)).Ok? && New(Finite(0.0), Some(USGallons)).Ok?
    ensures Equals(New(Finite(0.0), Some(Liters)).value, Some(New(Finite(0.0), Some(USGallons)).value))
  {
  }
}
