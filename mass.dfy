/**
 * A non-negative mass, held in grams and compared to the nearest hundredth of a gram
 * (src/main/java/com/ciderref/sdk/property/Mass.java). The factors are the exact ones of
 * the mass conversion table.
 */
module Mass {
  import opened Wrappers
  import opened Numerics
  import opened Units
  import opened Function
  import MassConversionFunctions

  datatype MassData = MassData(grams: real)

  /** The constructor rejects negative masses, so every mass holds a non-negative number of grams. */
  type Mass = m: MassData | m.grams >= 0.0 witness MassData(0.0)

  /** The number of grams in one of `units`. */
  function GramsPer(units: MassUnit): (g: real)
    ensures g > 0.0
  {
    MassConversionFunctions.GramsIn(units)
  }

  /**
   * The constructor: missing units, NaN, a negative value and infinity are illegal
   * arguments; otherwise the mass is converted to grams, and reading it back in the same
   * units gives the value passed in.
   */
  function New(value: Double, units: Option<MassUnit>): (r: Result<Mass>)
    ensures r.Err? <==> units.None? || !value.Finite? || value.value < 0.0
    ensures r.Err? ==> r.error == IllegalArgument
    ensures r.Ok? ==> GetValue(r.value, units) == Ok(value.value)
  {
    if units.None? then Err(IllegalArgument)
    else if value.IsNaN() then Err(IllegalArgument)
    else if CompareDouble(value, 0.0) < 0 then Err(IllegalArgument)
    else if value.IsInfinite() then Err(IllegalArgument)
    else Ok(MassData(value.value * GramsPer(units.value)))
  }

  /** `getValue(units)`: the mass in `units`; missing units are an illegal argument. */
  function GetValue(m: Mass, units: Option<MassUnit>): (r: Result<real>)
    ensures units.None? <==> r == Err(IllegalArgument)
    ensures r.Ok? ==> r.value >= 0.0
  {
    if units.None? then Err(IllegalArgument)
    else Ok(m.grams / GramsPer(units.value))
  }

  /** The mass in hundredths of a gram, rounded half up. */
  function ComparableValue(m: Mass): (c: int)
    ensures m.grams * 100.0 - 0.5 < c as real <= m.grams * 100.0 + 0.5
  {
    Round(m.grams * 100.0)
  }

  /** Orders masses from lightest to heaviest, to the nearest hundredth of a gram. */
  function CompareTo(m: Mass, other: Mass): (c: int)
    ensures c < 0 ==> m.grams < other.grams
    ensures c > 0 ==> m.grams > other.grams
    ensures m.grams + 0.01 <= other.grams ==> c < 0
    ensures other.grams + 0.01 <= m.grams ==> c > 0
  {
    RoundOrder(m.grams * 100.0, other.grams * 100.0);
    RoundOrder(other.grams * 100.0, m.grams * 100.0);
    Compare(ComparableValue(m), ComparableValue(other))
  }

  /** `equals`: the other object is a mass and compares as the same. */
  function Equals(m: Mass, other: Option<Mass>): (b: bool)
    ensures b ==> other.Some? && -0.01 < m.grams - other.value.grams < 0.01
    ensures other.Some? && m == other.value ==> b
  {
    other.Some? && CompareTo(m, other.value) == 0
  }

  /** Reading a mass in any unit agrees with the mass conversion table's entry from grams. */
  lemma GetValueAgreesWithTable(m: Mass, units: MassUnit)
    ensures GetValue(m, Some(units))
      == Ok(ApplyTo(MassConversionFunctions.MassConversion(Grams, units), m.grams))
  {
    MassConversionFunctions.ConvertsByGrams(Grams, units, m.grams);
  }

  /**
   * A mass given in one unit and read in another is the table's conversion of the value
   * between those units.
   */
  lemma ConvertsLikeTable(value: real, from: MassUnit, to: MassUnit)
    requires value >= 0.0
    ensures New(Finite(value), Some(from)).Ok?
    ensures GetValue(New(Finite(value), Some(from)).value, Some(to))
      == Ok(ApplyTo(MassConversionFunctions.MassConversion(from, to), value))
  {
    var m := New(Finite(value), Some(from)).value;
    NewAgreesWithTable(value, from);
    GetValueAgreesWithTable(m, to);
    MassConversionFunctions.PathConsistent(from, Grams, to, value);
  }

  /** A mass given in any unit holds the table's conversion of the value to grams. */
  lemma NewAgreesWithTable(value: real, units: MassUnit)
    requires value >= 0.0
    ensures New(Finite(value), Some(units)).Ok?
    ensures New(Finite(value), Some(units)).value.grams
      == ApplyTo(MassConversionFunctions.MassConversion(units, Grams), value)
  {
    MassConversionFunctions.ConvertsByGrams(units, Grams, value);
  }

  /** `compareTo` is antisymmetric and transitive. */
  lemma CompareToIsAnOrder(m: Mass, n: Mass, p: Mass)
    ensures CompareTo(m, n) < 0 <==> CompareTo(n, m) > 0
    ensures CompareTo(m, n) == 0 <==> CompareTo(n, m) == 0
    ensures CompareTo(m, n) < 0 && CompareTo(n, p) < 0 ==> CompareTo(m, p) < 0
    ensures CompareTo(m, n) == 0 && CompareTo(n, p) == 0 ==> CompareTo(m, p) == 0
  {
  }

  /** One pound is sixteen ounces and 453.59237 grams; one kilogram is 1000 grams. */
  lemma PoundInOtherUnits()
    ensures New(Finite(1.0), Some(Pounds)).Ok?
    ensures Equals(New(Finite(1.0), Some(Pounds)).value, Some(New(Finite(16.0), Some(Ounces)).value))
    ensures GetValue(New(Finite(1.0), Some(Pounds)).value, Some(Grams)) == Ok(453.59237)
    ensures New(Finite(1.0), Some(Kilograms)).Ok?
    ensures Equals(New(Finite(1.0), Some(Kilograms)).value, Some(New(Finite(1000.0), Some(Grams)).value))
  {
  }
}
