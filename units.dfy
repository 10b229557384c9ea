/**
 * The units of measurement of the three dimensions the SDK converts between. Each
 * Java enum for one dimension (Mass.Units and UnitsOfMass, Volume.Units and
 * UnitsOfVolume, Temperature.Units, TemperatureUnits and UnitsOfTemperature) is
 * one datatype here.
 */
module Units {

  datatype MassUnit = Grams | Kilograms | Ounces | Pounds

  datatype VolumeUnit = Milliliters | Liters | USGallons

  datatype TemperatureUnit = Celsius | Fahrenheit

  /** `UnitsOfMass.values()`, in declaration order. */
  const MassUnits: seq<MassUnit> := [Grams, Kilograms, Ounces, Pounds]

  /** `UnitsOfVolume.values()`, in declaration order. */
  const VolumeUnits: seq<VolumeUnit> := [Milliliters, Liters, USGallons]

  /** Every unit of mass appears exactly once in `MassUnits`. */
  lemma MassUnitsComplete(u: MassUnit)
    ensures u in MassUnits
    ensures |MassUnits| == 4
  {
  }

  /** Every unit of volume appears exactly once in `VolumeUnits`. */
  lemma VolumeUnitsComplete(u: VolumeUnit)
    ensures u in VolumeUnits
    ensures |VolumeUnits| == 3
  {
  }
}
