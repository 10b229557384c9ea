/**
 * A solution in water: its specific gravity, its concentrations of all solids and of sugar,
 * and its volume (src/main/java/com/ciderref/sdk/substance/AqueousSolution.java).
 */
module AqueousSolution {
  import opened Wrappers
  import SG = SpecificGravity
  import MC = MassConcentration
  import V = Volume

  /** The four fields, which the accessors return unchanged. */
  datatype AqueousSolution = AqueousSolution(
    specificGravity: SG.SpecificGravity,
    solids: MC.MassConcentration,
    sugar: MC.MassConcentration,
    volume: V.Volume)

  /** The constructor: every argument is required; nothing relates sugar to solids. */
  function New(specificGravity: Option<SG.SpecificGravity>, solids: Option<MC.MassConcentration>,
               sugar: Option<MC.MassConcentration>, volume: Option<V.Volume>): (r: Result<AqueousSolution>)
    ensures r.Err? <==> specificGravity.None? || solids.None? || sugar.None? || volume.None?
    ensures r.Err? ==> r.error == IllegalArgument
    ensures r.Ok? ==> r.value.specificGravity == specificGravity.value && r.value.solids == solids.value
                      && r.value.sugar == sugar.value && r.value.volume == volume.value
  {
    if specificGravity.None? || solids.None? || sugar.None? || volume.None? then Err(IllegalArgument)
    else Ok(AqueousSolution(specificGravity.value, solids.value, sugar.value, volume.value))
  }

  /**
   * `getSugarFreeDryExtract`: the solids that are not sugar, in grams per liter. More sugar
   * than solids is an illegal argument from the mass constructor.
   */
  function GetSugarFreeDryExtract(s: AqueousSolution): (r: Result<MC.MassConcentration>)
    ensures r.Ok? <==> MC.GramsPerLiter(s.sugar) <= MC.GramsPerLiter(s.solids)
    ensures r.Err? ==> r.error == IllegalArgument
    ensures r.Ok? ==> MC.GramsPerLiter(r.value) + MC.GramsPerLiter(s.sugar) == MC.GramsPerLiter(s.solids)
  {
    MC.PerLiter(MC.GramsPerLiter(s.solids) - MC.GramsPerLiter(s.sugar))
  }

  /**
   * The constructor accepts a solution with more sugar than solids, whose sugar-free dry
   * extract then fails: 1 g/L of solids with 2 g/L of sugar.
   */
  lemma ConstructorDoesNotCheckSugarAgainstSolids()
    ensures MC.PerLiter(1.0).Ok? && MC.PerLiter(2.0).Ok?
    ensures var s := New(Some(SG.SpecificGravityData(1.0)), Some(MC.PerLiter(1.0).value),
                         Some(MC.PerLiter(2.0).value), Some(V.OneLiter));
            s.Ok? && GetSugarFreeDryExtract(s.value) == Err(IllegalArgument)
  {
  }
}
