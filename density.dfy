/**
 * Volumic mass, compared with a tolerance of a hundredth of a gram per liter
 * (src/main/java/com/ciderref/sdk/property/Density.java).
 */
module Density {
  import opened Wrappers
  import opened Numerics
  import opened Units
  import M = Mass
  import V = Volume

  datatype DensityData = DensityData(mass: M.Mass, volume: V.Volume)

  /** The constructor refuses a volume equal to zero, so the volume is never zero. */
  type Density = d: DensityData | !V.EqualsZero(d.volume)
    witness DensityData(M.MassData(0.0), V.OneLiter)

  /**
   * The constructor: a missing mass or volume, or a volume that rounds to zero
   * microliters, is an illegal argument.
   */
  function New(mass: Option<M.Mass>, volume: Option<V.Volume>): (r: Result<Density>)
    ensures r.Err? <==> mass.None? || volume.None? || volume.value.milliliters < 0.0005
    ensures r.Err? ==> r.error == IllegalArgument
    ensures r.Ok? ==> r.value.mass == mass.value && r.value.volume == volume.value
  {
    if mass.None? || volume.None? then Err(IllegalArgument)
    else if V.EqualsZero(volume.value) then Err(IllegalArgument)
    else Ok(DensityData(mass.value, volume.value))
  }

  /**
   * `getValue(massUnits, volumeUnits)`: the density in those units, which multiplied by
   * the volume in `volumeUnits` gives back the mass in `massUnits`; a missing unit is an
   * illegal argument.
   */
  function GetValue(d: Density, massUnits: Option<MassUnit>, volumeUnits: Option<VolumeUnit>): (r: Result<real>)
    ensures massUnits.None? || volumeUnits.None? <==> r == Err(IllegalArgument)
    ensures r.Ok? ==> r.value >= 0.0
    ensures r.Ok? ==> r.value * V.GetValue(d.volume, volumeUnits).value == M.GetValue(d.mass, massUnits).value
  {
    if massUnits.None? || volumeUnits.None? then Err(IllegalArgument)
    else
      var m := M.GetValue(d.mass, massUnits).value;
      var v := V.GetValue(d.volume, volumeUnits).value;
      assert v > 0.0;
      Ok(m / v)
  }

  /** `getValue(Grams, Liters)`, the unit every comparison uses. */
  function GramsPerLiter(d: Density): (g: real)
    ensures g == 1000.0 * d.mass.grams / d.volume.milliliters
  {
    GetValue(d, Some(Grams), Some(Liters)).value
  }

  /**
   * Densities within 0.01 g/L of each other compare as the same; otherwise they are
   * ordered by their value in grams per liter.
   */
  function CompareTo(d: Density, other: Density): (r: int)
    ensures r == 0 <==> -0.01 <= GramsPerLiter(d) - GramsPerLiter(other) <= 0.01
    ensures r < 0 <==> GramsPerLiter(d) + 0.01 < GramsPerLiter(other)
    ensures r > 0 <==> GramsPerLiter(other) + 0.01 < GramsPerLiter(d)
  {
    var a, b := GramsPerLiter(d), GramsPerLiter(other);
    if (if a - b < 0.0 then b - a else a - b) <= 0.01 then 0
    else CompareReals(a, b)
  }

  /** `equals`: the other object is a density and compares as the same. */
  function Equals(d: Density, other: Option<Density>): (b: bool)
    ensures b <==> other.Some? && -0.01 <= GramsPerLiter(d) - GramsPerLiter(other.value) <= 0.01
  {
    other.Some? && CompareTo(d, other.value) == 0
  }

  /** `compareTo` is reflexive and antisymmetric. */
  lemma CompareToReflexiveAndAntisymmetric(d: Density, e: Density)
    ensures CompareTo(d, d) == 0
    ensures CompareTo(d, e) < 0 <==> CompareTo(e, d) > 0
    ensures CompareTo(d, e) == 0 <==> CompareTo(e, d) == 0
  {
  }

  /** The strict order `compareTo` induces is transitive. */
  lemma CompareToStrictlyTransitive(d: Density, e: Density, f: Density)
    requires CompareTo(d, e) < 0 && CompareTo(e, f) < 0
    ensures CompareTo(d, f) < 0
  {
  }

  /**
   * The tolerance makes equality intransitive: 1.000 g/L equals 1.008 g/L, which equals
   * 1.016 g/L, but 1.000 g/L does not equal 1.016 g/L.
   */
  lemma EqualsIsNotTransitive()
    ensures var liter := V.OneLiter;
            var d, e, f := DensityData(M.MassData(1.0), liter), DensityData(M.MassData(1.008), liter),
              DensityData(M.MassData(1.016), liter);
            Equals(d, Some(e)) && Equals(e, Some(f)) && !Equals(d, Some(f))
  {
  }
}
