/**
 * The table of conversions between units of mass, with the exact factors of NIST
 * Handbook 44 (2012), Appendix C
 * (src/main/java/com/ciderref/sdk/property/units/MassConversionFunctions.java).
 */
module MassConversionFunctions {
  import opened Wrappers
  import opened Units
  import opened Function
  import CF = ConversionFactorFunction
  import opened TableOfConversionFunctions

  // The following conversion factors are exact.
  const KilogramsPerPound: real := 0.45359237
  const KilogramsPerOunce: real := 0.028349523125
  const GramsPerKilogram: real := 1000.0
  const GramsPerPound: real := 453.59237
  const GramsPerOunce: real := 28.349523125
  const OuncesPerPound: real := 16.0

  const KilogramsToGrams: Function := Factor(CF.FromFactor(GramsPerKilogram))
  const PoundsToKilograms: Function := Factor(CF.FromFactor(KilogramsPerPound))
  const PoundsToGrams: Function := Factor(CF.FromFactor(GramsPerPound))
  const PoundsToOunces: Function := Factor(CF.FromFactor(OuncesPerPound))
  const OuncesToKilograms: Function := Factor(CF.FromFactor(KilogramsPerOunce))
  const OuncesToGrams: Function := Factor(CF.FromFactor(GramsPerOunce))

  /** The function the constructor stores under (fromUnits, toUnits). */
  function MassConversion(fromUnits: MassUnit, toUnits: MassUnit): (f: Function)
    ensures f == Identity <==> fromUnits == toUnits
    ensures !f.TemperatureConversion?
  {
    match (fromUnits, toUnits)
    case (Kilograms, Kilograms) => Identity
    case (Kilograms, Grams) => KilogramsToGrams
    case (Kilograms, Pounds) => GetInverse(PoundsToKilograms)
    case (Kilograms, Ounces) => GetInverse(OuncesToKilograms)
    case (Grams, Kilograms) => GetInverse(KilogramsToGrams)
    case (Grams, Grams) => Identity
    case (Grams, Pounds) => GetInverse(PoundsToGrams)
    case (Grams, Ounces) => GetInverse(OuncesToGrams)
    case (Pounds, Kilograms) => PoundsToKilograms
    case (Pounds, Grams) => PoundsToGrams
    case (Pounds, Pounds) => Identity
    case (Pounds, Ounces) => PoundsToOunces
    case (Ounces, Kilograms) => OuncesToKilograms
    case (Ounces, Grams) => OuncesToGrams
    case (Ounces, Pounds) => GetInverse(PoundsToOunces)
    case (Ounces, Ounces) => Identity
  }

  /** The constructor: a row per unit of mass, then the sixteen `put` calls, row by row. */
  method NewMassConversionFunctions() returns (t: TableOfConversionFunctions<MassUnit>)
    ensures fresh(t)
    ensures forall a, b :: a in t.functionMap && t.Entry(a, b) == Some(MassConversion(a, b))
  {
    t := new TableOfConversionFunctions(MassUnits);
    MassUnitsComplete(Kilograms);
    PutKilogramsRow(t);
    PutGramsRow(t);
    PutPoundsRow(t);
    PutOuncesRow(t);
    RowsAreMassConversions(t.functionMap);
  }

  /** The constructor's four `put` calls from kilograms. */
  method PutKilogramsRow(t: TableOfConversionFunctions<MassUnit>)
    requires Kilograms in t.functionMap && t.functionMap[Kilograms] == map[]
    modifies t
    ensures t.functionMap == old(t.functionMap)[Kilograms := map[Kilograms := Some(Identity), Grams := Some(KilogramsToGrams),
        Pounds := Some(GetInverse(PoundsToKilograms)), Ounces := Some(GetInverse(OuncesToKilograms))]]
  {
    var _ := t.Put(Some(Kilograms), Some(Kilograms), Some(Identity));
    var _ := t.Put(Some(Kilograms), Some(Grams), Some(KilogramsToGrams));
    var _ := t.Put(Some(Kilograms), Some(Pounds), Some(GetInverse(PoundsToKilograms)));
    var _ := t.Put(Some(Kilograms), Some(Ounces), Some(GetInverse(OuncesToKilograms)));
  }

  /** The constructor's four `put` calls from grams. */
  method PutGramsRow(t: TableOfConversionFunctions<MassUnit>)
    requires Grams in t.functionMap && t.functionMap[Grams] == map[]
    modifies t
    ensures t.functionMap == old(t.functionMap)[Grams := map[Kilograms := Some(GetInverse(KilogramsToGrams)), Grams := Some(Identity),
        Pounds := Some(GetInverse(PoundsToGrams)), Ounces := Some(GetInverse(OuncesToGrams))]]
  {
    var _ := t.Put(Some(Grams), Some(Kilograms), Some(GetInverse(KilogramsToGrams)));
    var _ := t.Put(Some(Grams), Some(Grams), Some(Identity));
    var _ := t.Put(Some(Grams), Some(Pounds), Some(GetInverse(PoundsToGrams)));
    var _ := t.Put(Some(Grams), Some(Ounces), Some(GetInverse(OuncesToGrams)));
  }

  /** The constructor's four `put` calls from pounds. */
  method PutPoundsRow(t: TableOfConversionFunctions<MassUnit>)
    requires Pounds in t.functionMap && t.functionMap[Pounds] == map[]
    modifies t
    ensures t.functionMap == old(t.functionMap)[Pounds := map[Kilograms := Some(PoundsToKilograms), Grams := Some(PoundsToGrams),
        Pounds := Some(Identity), Ounces := Some(PoundsToOunces)]]
  {
    var _ := t.Put(Some(Pounds), Some(Kilograms), Some(PoundsToKilograms));
    var _ := t.Put(Some(Pounds), Some(Grams), Some(PoundsToGrams));
    var _ := t.Put(Some(Pounds), Some(Pounds), Some(Identity));
    var _ := t.Put(Some(Pounds), Some(Ounces), Some(PoundsToOunces));
  }

  /** The constructor's four `put` calls from ounces. */
  method PutOuncesRow(t: TableOfConversionFunctions<MassUnit>)
    requires Ounces in t.functionMap && t.functionMap[Ounces] == map[]
    modifies t
    ensures t.functionMap == old(t.functionMap)[Ounces := map[Kilograms := Some(OuncesToKilograms), Grams := Some(OuncesToGrams),
        Pounds := Some(GetInverse(PoundsToOunces)), Ounces := Some(Identity)]]
  {
    var _ := t.Put(Some(Ounces), Some(Kilograms), Some(OuncesToKilograms));
    var _ := t.Put(Some(Ounces), Some(Grams), Some(OuncesToGrams));
    var _ := t.Put(Some(Ounces), Some(Pounds), Some(GetInverse(PoundsToOunces)));
    var _ := t.Put(Some(Ounces), Some(Ounces), Some(Identity));
  }

  /** The four rows the constructor fills in hold exactly the entries of `MassConversion`. */
  lemma RowsAreMassConversions(m: map<MassUnit, map<MassUnit, Option<Function>>>)
    requires Kilograms in m && Grams in m && Pounds in m && Ounces in m
    requires m[Kilograms] == map[Kilograms := Some(Identity), Grams := Some(KilogramsToGrams),
      Pounds := Some(GetInverse(PoundsToKilograms)), Ounces := Some(GetInverse(OuncesToKilograms))]
    requires m[Grams] == map[Kilograms := Some(GetInverse(KilogramsToGrams)), Grams := Some(Identity),
      Pounds := Some(GetInverse(PoundsToGrams)), Ounces := Some(GetInverse(OuncesToGrams))]
    requires m[Pounds] == map[Kilograms := Some(PoundsToKilograms), Grams := Some(PoundsToGrams),
      Pounds := Some(Identity), Ounces := Some(PoundsToOunces)]
    requires m[Ounces] == map[Kilograms := Some(OuncesToKilograms), Grams := Some(OuncesToGrams),
      Pounds := Some(GetInverse(PoundsToOunces)), Ounces := Some(Identity)]
    ensures forall a :: a in m
    ensures forall a, b :: b in m[a] && m[a][b] == Some(MassConversion(a, b))
  {
    forall a ensures a in m {
      MassUnitsComplete(a);
    }
    forall a, b ensures b in m[a] && m[a][b] == Some(MassConversion(a, b)) {
      match a
      case Kilograms => MassUnitsComplete(b);
      case Grams => MassUnitsComplete(b);
      case Pounds => MassUnitsComplete(b);
      case Ounces => MassUnitsComplete(b);
    }
  }

  /** Every diagonal entry is the identity. */
  lemma DiagonalIsIdentity(u: MassUnit)
    ensures MassConversion(u, u) == Identity
  {
  }

  /** The exact factors agree with one another. */
  lemma FactorsAreConsistent()
    ensures GramsPerPound == GramsPerKilogram * KilogramsPerPound == OuncesPerPound * GramsPerOunce
    ensures GramsPerOunce == GramsPerKilogram * KilogramsPerOunce
    ensures KilogramsPerPound == OuncesPerPound * KilogramsPerOunce
  {
  }

  /** Pounds to ounces multiplies by 16, and the ounces-to-pounds entry undoes it. */
  lemma PoundsAndOunces(x: real)
    ensures ApplyTo(MassConversion(Pounds, Ounces), x) == 16.0 * x
    ensures ApplyTo(MassConversion(Ounces, Pounds), 16.0 * x) == x
  {
  }

  /**
   * Converting through any intermediate unit gives the same result as converting
   * directly: the table is path-consistent.
   */
  lemma PathConsistent(a: MassUnit, b: MassUnit, c: MassUnit, x: real)
    ensures ApplyTo(MassConversion(b, c), ApplyTo(MassConversion(a, b), x)) == ApplyTo(MassConversion(a, c), x)
  {
    ConversionScalesByGrams(a, b);
    ConversionScalesByGrams(b, c);
    ConversionScalesByGrams(a, c);
    ScalingsCompose(MassConversion(a, b), MassConversion(b, c), MassConversion(a, c), GramsIn(a), GramsIn(b), GramsIn(c), x);
  }

  /** The (a, b) and (b, a) entries are mutual inverses. */
  lemma EntriesAreMutualInverses(a: MassUnit, b: MassUnit, x: real)
    ensures ApplyTo(MassConversion(b, a), ApplyTo(MassConversion(a, b), x)) == x
  {
    PathConsistent(a, b, a, x);
    DiagonalIsIdentity(a);
  }

  /** The number of grams in one of `u`. */
  function GramsIn(u: MassUnit): (g: real)
    ensures g > 0.0
  {
    match u
    case Grams => 1.0
    case Kilograms => GramsPerKilogram
    case Ounces => GramsPerOunce
    case Pounds => GramsPerPound
  }

  /** Every entry scales by the ratio of the two units' gram equivalents. */
  lemma ConversionScalesByGrams(a: MassUnit, b: MassUnit)
    ensures IsScaling(MassConversion(a, b))
    ensures Multiplier(MassConversion(a, b)) == GramsIn(a) / GramsIn(b)
  {
  }

  /** Converting `x` from `a` to `b` multiplies it by the ratio of their gram equivalents. */
  lemma ConvertsByGrams(a: MassUnit, b: MassUnit, x: real)
    ensures ApplyTo(MassConversion(a, b), x) == GramsIn(a) / GramsIn(b) * x
  {
    ConversionScalesByGrams(a, b);
    ApplyScaling(MassConversion(a, b), x);
  }
}
