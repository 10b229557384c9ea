/**
 * The table of conversions between units of volume, with the exact factors of NIST
 * Handbook 44 (2012), Appendix C
 * (src/main/java/com/ciderref/sdk/property/units/VolumeConversionFunctions.java).
 */
module VolumeConversionFunctions {
  import opened Wrappers
  import opened Units
  import opened Function
  import CF = ConversionFactorFunction
  import opened TableOfConversionFunctions

  // The following conversion factors are exact.
  const LitersPerUSGallon: real := 3.785411784
  const MillilitersPerLiter: real := 1000.0
  const MillilitersPerUSGallon: real := 3785.411784

  const LitersToMilliliters: Function := Factor(CF.FromFactor(MillilitersPerLiter))
  const USGallonsToLiters: Function := Factor(CF.FromFactor(LitersPerUSGallon))
  const USGallonsToMilliliters: Function := Factor(CF.FromFactor(MillilitersPerUSGallon))

  /** The function the constructor stores under (fromUnits, toUnits). */
  function VolumeConversion(fromUnits: VolumeUnit, toUnits: VolumeUnit): (f: Function)
    ensures f == Identity <==> fromUnits == toUnits
    ensures !f.TemperatureConversion?
  {
    match (fromUnits, toUnits)
    case (Liters, Liters) => Identity
    case (Liters, Milliliters) => LitersToMilliliters
    case (Liters, USGallons) => GetInverse(USGallonsToLiters)
    case (Milliliters, Liters) => GetInverse(LitersToMilliliters)
    case (Milliliters, Milliliters) => Identity
    case (Milliliters, USGallons) => GetInverse(USGallonsToMilliliters)
    case (USGallons, Liters) => USGallonsToLiters
    case (USGallons, Milliliters) => USGallonsToMilliliters
    case (USGallons, USGallons) => Identity
  }

  /** The constructor: a row per unit of volume, then the nine `put` calls, row by row. */
  method NewVolumeConversionFunctions() returns (t: TableOfConversionFunctions<VolumeUnit>)
    ensures fresh(t)
    ensures forall a, b :: a in t.functionMap && t.Entry(a, b) == Some(VolumeConversion(a, b))
  {
    t := new TableOfConversionFunctions(VolumeUnits);
    VolumeUnitsComplete(Liters);
    PutLitersRow(t);
    PutMillilitersRow(t);
    PutUSGallonsRow(t);
    RowsAreVolumeConversions(t.functionMap);
  }

  /** The constructor's three `put` calls from liters. */
  method PutLitersRow(t: TableOfConversionFunctions<VolumeUnit>)
    requires Liters in t.functionMap && t.functionMap[Liters] == map[]
    modifies t
    ensures t.functionMap == old(t.functionMap)[Liters := map[Liters := Some(Identity),
      Milliliters := Some(LitersToMilliliters), USGallons := Some(GetInverse(USGallonsToLiters))]]
  {
    var _ := t.Put(Some(Liters), Some(Liters), Some(Identity));
    var _ := t.Put(Some(Liters), Some(Milliliters), Some(LitersToMilliliters));
    var _ := t.Put(Some(Liters), Some(USGallons), Some(GetInverse(USGallonsToLiters)));
  }

  /** The constructor's three `put` calls from milliliters. */
  method PutMillilitersRow(t: TableOfConversionFunctions<VolumeUnit>)
    requires Milliliters in t.functionMap && t.functionMap[Milliliters] == map[]
    modifies t
    ensures t.functionMap == old(t.functionMap)[Milliliters := map[Liters := Some(GetInverse(LitersToMilliliters)),
      Milliliters := Some(Identity), USGallons := Some(GetInverse(USGallonsToMilliliters))]]
  {
    var _ := t.Put(Some(Milliliters), Some(Liters), Some(GetInverse(LitersToMilliliters)));
    var _ := t.Put(Some(Milliliters), Some(Milliliters), Some(Identity));
    var _ := t.Put(Some(Milliliters), Some(USGallons), Some(GetInverse(USGallonsToMilliliters)));
  }

  /** The constructor's three `put` calls from US gallons. */
  method PutUSGallonsRow(t: TableOfConversionFunctions<VolumeUnit>)
    requires USGallons in t.functionMap && t.functionMap[USGallons] == map[]
    modifies t
    ensures t.functionMap == old(t.functionMap)[USGallons := map[Liters := Some(USGallonsToLiters),
      Milliliters := Some(USGallonsToMilliliters), USGallons := Some(Identity)]]
  {
    var _ := t.Put(Some(USGallons), Some(Liters), Some(USGallonsToLiters));
    var _ := t.Put(Some(USGallons), Some(Milliliters), Some(USGallonsToMilliliters));
    var _ := t.Put(Some(USGallons), Some(USGallons), Some(Identity));
  }

  /** The three rows the constructor fills in hold exactly the entries of `VolumeConversion`. */
  lemma RowsAreVolumeConversions(m: map<VolumeUnit, map<VolumeUnit, Option<Function>>>)
    requires Liters in m && Milliliters in m && USGallons in m
    requires m[Liters] == map[Liters := Some(Identity),
      Milliliters := Some(LitersToMilliliters), USGallons := Some(GetInverse(USGallonsToLiters))]
    requires m[Milliliters] == map[Liters := Some(GetInverse(LitersToMilliliters)),
      Milliliters := Some(Identity), USGallons := Some(GetInverse(USGallonsToMilliliters))]
    requires m[USGallons] == map[Liters := Some(USGallonsToLiters),
      Milliliters := Some(USGallonsToMilliliters), USGallons := Some(Identity)]
    ensures forall a :: a in m
    ensures forall a, b :: b in m[a] && m[a][b] == Some(VolumeConversion(a, b))
  {
    forall a ensures a in m {
      VolumeUnitsComplete(a);
    }
    forall a, b ensures b in m[a] && m[a][b] == Some(VolumeConversion(a, b)) {
      match a
      case Liters => VolumeUnitsComplete(b);
      case Milliliters => VolumeUnitsComplete(b);
      case USGallons => VolumeUnitsComplete(b);
    }
  }

  /** Every diagonal entry is the identity. */
  lemma DiagonalIsIdentity(u: VolumeUnit)
    ensures VolumeConversion(u, u) == Identity
  {
  }

  /** The exact factors agree with one another. */
  lemma FactorsAreConsistent()
    ensures MillilitersPerUSGallon == MillilitersPerLiter * LitersPerUSGallon
  {
  }

  /** One US gallon is 3785.411784 milliliters, and the milliliters-to-gallons entry undoes it. */
  lemma GallonsAndMilliliters(x: real)
    ensures ApplyTo(VolumeConversion(USGallons, Milliliters), x) == 3785.411784 * x
    ensures ApplyTo(VolumeConversion(Milliliters, USGallons), 3785.411784 * x) == x
  {
  }

  /**
   * Converting through any intermediate unit gives the same result as converting
   * directly: the table is path-consistent.
   */
  lemma PathConsistent(a: VolumeUnit, b: VolumeUnit, c: VolumeUnit, x: real)
    ensures ApplyTo(VolumeConversion(b, c), ApplyTo(VolumeConversion(a, b), x)) == ApplyTo(VolumeConversion(a, c), x)
  {
    ConversionScalesByMilliliters(a, b);
    ConversionScalesByMilliliters(b, c);
    ConversionScalesByMilliliters(a, c);
    ScalingsCompose(VolumeConversion(a, b), VolumeConversion(b, c), VolumeConversion(a, c),
      MillilitersIn(a), MillilitersIn(b), MillilitersIn(c), x);
  }

  /** The (a, b) and (b, a) entries are mutual inverses. */
  lemma EntriesAreMutualInverses(a: VolumeUnit, b: VolumeUnit, x: real)
    ensures ApplyTo(VolumeConversion(b, a), ApplyTo(VolumeConversion(a, b), x)) == x
  {
    PathConsistent(a, b, a, x);
    DiagonalIsIdentity(a);
  }

  /** The number of milliliters in one of `u`. */
  function MillilitersIn(u: VolumeUnit): (ml: real)
    ensures ml > 0.0
  {
    match u
    case Milliliters => 1.0
    case Liters => MillilitersPerLiter
    case USGallons => MillilitersPerUSGallon
  }

  /** Every entry scales by the ratio of the two units' milliliter equivalents. */
  lemma ConversionScalesByMilliliters(a: VolumeUnit, b: VolumeUnit)
    ensures IsScaling(VolumeConversion(a, b))
    ensures Multiplier(VolumeConversion(a, b)) == MillilitersIn(a) / MillilitersIn(b)
  {
  }

  /** Converting `x` from `a` to `b` multiplies it by the ratio of their milliliter equivalents. */
  lemma ConvertsByMilliliters(a: VolumeUnit, b: VolumeUnit, x: real)
    ensures ApplyTo(VolumeConversion(a, b), x) == MillilitersIn(a) / MillilitersIn(b) * x
  {
    ConversionScalesByMilliliters(a, b);
    ApplyScaling(VolumeConversion(a, b), x);
  }
}
