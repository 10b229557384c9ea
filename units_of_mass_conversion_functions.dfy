/**
 * A stand-alone table of conversions between units of mass
 * (src/main/java/com/ciderref/sdk/property/units/UnitsOfMassConversionFunctions.java).
 * It keeps its own map of rows rather than extending the generic table, and it holds the
 * same functions as `MassConversionFunctions`; the factors are shared with that module.
 */
module UnitsOfMassConversionFunctions {
  import opened Wrappers
  import opened Units
  import opened Function
  import opened MassConversionFunctions

  class UnitsOfMassConversionFunctions {
    var functionMap: map<MassUnit, map<MassUnit, Function>>

    /** Every pair of units has an entry, and it is the conversion `MassConversion` describes. */
    ghost predicate Valid()
      reads this
    {
      && (forall a :: a in functionMap)
      && (forall a, b :: b in functionMap[a] && functionMap[a][b] == MassConversion(a, b))
    }

    /** The constructor: an empty row per unit of mass, then the sixteen entries. */
    constructor ()
      ensures Valid()
    {
      var m: map<MassUnit, map<MassUnit, Function>> := map[];
      var i := 0;
      while i < |MassUnits|
        invariant 0 <= i <= |MassUnits|
        invariant m.Keys == set u | u in MassUnits[..i]
        invariant forall u :: u in m ==> m[u] == map[]
      {
        m := m[MassUnits[i] := map[]];
        i := i + 1;
      }
      assert MassUnits[..i] == MassUnits;
      assert Kilograms in m && Grams in m && Pounds in m && Ounces in m;

      m := m[Kilograms := m[Kilograms][Kilograms := Identity]];
      m := m[Kilograms := m[Kilograms][Grams := KilogramsToGrams]];
      m := m[Kilograms := m[Kilograms][Pounds := GetInverse(PoundsToKilograms)]];
      m := m[Kilograms := m[Kilograms][Ounces := GetInverse(OuncesToKilograms)]];

      m := m[Grams := m[Grams][Kilograms := GetInverse(KilogramsToGrams)]];
      m := m[Grams := m[Grams][Grams := Identity]];
      m := m[Grams := m[Grams][Pounds := GetInverse(PoundsToGrams)]];
      m := m[Grams := m[Grams][Ounces := GetInverse(OuncesToGrams)]];

      m := m[Pounds := m[Pounds][Kilograms := PoundsToKilograms]];
      m := m[Pounds := m[Pounds][Grams := PoundsToGrams]];
      m := m[Pounds := m[Pounds][Pounds := Identity]];
      m := m[Pounds := m[Pounds][Ounces := PoundsToOunces]];

      m := m[Ounces := m[Ounces][Kilograms := OuncesToKilograms]];
      m := m[Ounces := m[Ounces][Grams := OuncesToGrams]];
      m := m[Ounces := m[Ounces][Pounds := GetInverse(PoundsToOunces)]];
      m := m[Ounces := m[Ounces][Ounces := Identity]];

      functionMap := m;
      new;
      RowsHoldMassConversions(functionMap);
    }

    /**
     * The function converting from `fromUnits` to `toUnits`; a missing unit is an
     * illegal argument.
     */
    function GetFunction(fromUnits: Option<MassUnit>, toUnits: Option<MassUnit>): (r: Result<Function>)
      reads this
      requires Valid()
      ensures fromUnits.None? || toUnits.None? <==> r == Err(IllegalArgument)
      ensures fromUnits.Some? && toUnits.Some? ==> r == Ok(MassConversion(fromUnits.value, toUnits.value))
    {
      if fromUnits.None? || toUnits.None? then Err(IllegalArgument)
      else Ok(functionMap[fromUnits.value][toUnits.value])
    }
  }

  /** Rows built by the constructor's entries hold exactly the entries of `MassConversion`. */
  lemma RowsHoldMassConversions(m: map<MassUnit, map<MassUnit, Function>>)
    requires Kilograms in m && Grams in m && Pounds in m && Ounces in m
    requires m[Kilograms] == map[Kilograms := Identity, Grams := KilogramsToGrams,
      Pounds := GetInverse(PoundsToKilograms), Ounces := GetInverse(OuncesToKilograms)]
    requires m[Grams] == map[Kilograms := GetInverse(KilogramsToGrams), Grams := Identity,
      Pounds := GetInverse(PoundsToGrams), Ounces := GetInverse(OuncesToGrams)]
    requires m[Pounds] == map[Kilograms := PoundsToKilograms, Grams := PoundsToGrams,
      Pounds := Identity, Ounces := PoundsToOunces]
    requires m[Ounces] == map[Kilograms := OuncesToKilograms, Grams := OuncesToGrams,
      Pounds := GetInverse(PoundsToOunces), Ounces := Identity]
    ensures forall a :: a in m
    ensures forall a, b :: b in m[a] && m[a][b] == MassConversion(a, b)
  {
    forall a ensures a in m {
      MassUnitsComplete(a);
    }
    forall a, b ensures b in m[a] && m[a][b] == MassConversion(a, b) {
      match a
      case Kilograms => MassUnitsComplete(b);
      case Grams => MassUnitsComplete(b);
      case Pounds => MassUnitsComplete(b);
      case Ounces => MassUnitsComplete(b);
    }
  }

  /** Both tables of mass conversions give the same function for every pair of units. */
  lemma AgreesWithMassConversionFunctions(
    t: UnitsOfMassConversionFunctions, s: TableOfConversionFunctions.TableOfConversionFunctions<MassUnit>,
    a: MassUnit, b: MassUnit)
    requires t.Valid()
    requires a in s.functionMap && s.Entry(a, b) == Some(MassConversion(a, b))
    ensures s.GetFunction(Some(a), Some(b)) == Ok(Some(t.GetFunction(Some(a), Some(b)).value))
  {
  }
}
