/**
 * The mass of a constituent divided by the volume of the mixture, compared to the
 * nearest hundredth of a gram per liter
 * (src/main/java/com/ciderref/sdk/property/MassConcentration.java).
 */
module MassConcentration {
  import opened Wrappers
  import opened Numerics
  import opened Units
  import M = Mass
  import V = Volume

  datatype MassConcentrationData = MassConcentrationData(mass: M.Mass, volume: V.Volume)

  /** The constructor refuses a volume equal to zero, so the volume is never zero. */
  type MassConcentration = c: MassConcentrationData | !V.EqualsZero(c.volume)
    witness MassConcentrationData(M.MassData(0.0), V.OneLiter)

  /**
   * The constructor: a missing mass or volume, or a volume that rounds to zero
   * microliters, is an illegal argument.
   */
  function New(mass: Option<M.Mass>, volume: Option<V.Volume>): (r: Result<MassConcentration>)
    ensures r.Err? <==> mass.None? || volume.None? || volume.value.milliliters < 0.0005
    ensures r.Err? ==> r.error == IllegalArgument
    ensures r.Ok? ==> r.value.mass == mass.value && r.value.volume == volume.value
  {
    if mass.None? || volume.None? then Err(IllegalArgument)
    else if V.EqualsZero(volume.value) then Err(IllegalArgument)
    else Ok(MassConcentrationData(mass.value, volume.value))
  }

  /**
   * `new MassConcentration(new Mass(grams, Grams), Volume.ONE_LITER)`, the way the
   * calculators build a concentration in grams per liter: a negative number of grams is
   * an illegal argument from the mass constructor; otherwise the concentration is `grams` g/L.
   */
  function PerLiter(grams: real): (r: Result<MassConcentration>)
    ensures r.Ok? <==> grams >= 0.0
    ensures r.Err? ==> r.error == IllegalArgument
    ensures r.Ok? ==> GramsPerLiter(r.value) == grams && r.value.volume == V.OneLiter
  {
    var mass :- M.New(Finite(grams), Some(Grams));
    New(Some(mass), Some(V.OneLiter))
  }

  /**
   * `getValue(massUnits, volumeUnits)`: the concentration in those units, which multiplied
   * by the volume in `volumeUnits` gives back the mass in `massUnits`; a missing unit is
   * an illegal argument.
   */
  function GetValue(c: MassConcentration, massUnits: Option<MassUnit>, volumeUnits: Option<VolumeUnit>)
    : (r: Result<real>)
    ensures massUnits.None? || volumeUnits.None? <==> r == Err(IllegalArgument)
    ensures r.Ok? ==> r.value >= 0.0
    ensures r.Ok? ==> r.value * V.GetValue(c.volume, volumeUnits).value == M.GetValue(c.mass, massUnits).value
  {
    if massUnits.None? || volumeUnits.None? then Err(IllegalArgument)
    else
      var m := M.GetValue(c.mass, massUnits).value;
      var v := V.GetValue(c.volume, volumeUnits).value;
      assert v > 0.0;
      Ok(m / v)
  }

  /** `getValue(Grams, Liters)`, the unit every comparison uses. */
  function GramsPerLiter(c: MassConcentration): (g: real)
    ensures g == 1000.0 * c.mass.grams / c.volume.milliliters
  {
    GetValue(c, Some(Grams), Some(Liters)).value
  }

  /** The concentration in hundredths of a gram per liter, rounded half up. */
  function ComparableValue(c: MassConcentration): (k: int)
    ensures GramsPerLiter(c) * 100.0 - 0.5 < k as real <= GramsPerLiter(c) * 100.0 + 0.5
  {
    Round(GramsPerLiter(c) * 100.0)
  }

  /** Orders mass concentrations from lowest to highest, to the nearest hundredth of a gram per liter. */
  function CompareTo(c: MassConcentration, other: MassConcentration): (r: int)
    ensures r < 0 ==> GramsPerLiter(c) < GramsPerLiter(other)
    ensures r > 0 ==> GramsPerLiter(c) > GramsPerLiter(other)
    ensures GramsPerLiter(c) + 0.01 <= GramsPerLiter(other) ==> r < 0
    ensures GramsPerLiter(other) + 0.01 <= GramsPerLiter(c) ==> r > 0
  {
    RoundOrder(GramsPerLiter(c) * 100.0, GramsPerLiter(other) * 100.0);
    RoundOrder(GramsPerLiter(other) * 100.0, GramsPerLiter(c) * 100.0);
    Compare(ComparableValue(c), ComparableValue(other))
  }

  /** `equals`: the other object is a mass concentration and compares as the same. */
  function Equals(c: MassConcentration, other: Option<MassConcentration>): (b: bool)
    ensures b ==> other.Some? && -0.01 < GramsPerLiter(c) - GramsPerLiter(other.value) < 0.01
    ensures other.Some? && c == other.value ==> b
  {
    other.Some? && CompareTo(c, other.value) == 0
  }

  /** `compareTo` is antisymmetric and transitive. */
  lemma CompareToIsAnOrder(c: MassConcentration, d: MassConcentration, e: MassConcentration)
    ensures CompareTo(c, d) < 0 <==> CompareTo(d, c) > 0
    ensures CompareTo(c, d) == 0 <==> CompareTo(d, c) == 0
    ensures CompareTo(c, d) < 0 && CompareTo(d, e) < 0 ==> CompareTo(c, e) < 0
    ensures CompareTo(c, d) == 0 && CompareTo(d, e) == 0 ==> CompareTo(c, e) == 0
  {
  }

  /**
   * Equality sees only grams per liter, not how mass and volume make it up: 4 g in 2 L
   * equals 2 g in 1 L.
   */
  lemma EqualsIgnoresSplit(c: MassConcentration, d: MassConcentration)
    requires GramsPerLiter(c) == GramsPerLiter(d)
    ensures Equals(c, Some(d)) && Equals(d, Some(c))
  {
  }

  lemma FourGramsInTwoLiters()
    ensures var c := New(Some(M.MassData(4.0)), Some(V.VolumeData(2000.0)));
            var d := New(Some(M.MassData(2.0)), Some(V.OneLiter));
            c.Ok? && d.Ok? && Equals(c.value, Some(d.value))
  {
    EqualsIgnoresSplit(MassConcentrationData(M.MassData(4.0), V.VolumeData(2000.0)),
                       MassConcentrationData(M.MassData(2.0), V.OneLiter));
  }

  /** The same concentration described in different units compares as equal: 1 kg in 1 L is 1000 g in 1000 mL. */
  lemma EqualAcrossUnits()
    ensures M.New(Finite(1.0), Some(Kilograms)).Ok? && V.NewCorrected(Finite(1.0), Some(Liters)).Ok?
    ensures M.New(Finite(1000.0), Some(Grams)).Ok? && V.NewCorrected(Finite(1000.0), Some(Milliliters)).Ok?
    ensures var c := New(Some(M.New(Finite(1.0), Some(Kilograms)).value), Some(V.NewCorrected(Finite(1.0), Some(Liters)).value));
            var d := New(Some(M.New(Finite(1000.0), Some(Grams)).value), Some(V.NewCorrected(Finite(1000.0), Some(Milliliters)).value));
            c.Ok? && d.Ok? && GramsPerLiter(c.value) == 1000.0 && Equals(c.value, Some(d.value))
  {
  }
}
