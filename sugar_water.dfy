/**
 * A solution of sucrose in pure water, whose Brix follows from its specific gravity
 * (src/main/java/com/ciderref/sdk/substance/SugarWater.java).
 */
module SugarWater {
  import opened Wrappers
  import opened Numerics
  import SG = SpecificGravity
  import Brix
  import BrixCalculator

  /** The regression's value, with the physically impossible negative values forced to 0. */
  function ClampedBrix(sg: real): (b: real)
    ensures b >= 0.0
    ensures BrixCalculator.BrixOf(sg) >= 0.0 ==> b == BrixCalculator.BrixOf(sg)
    ensures BrixCalculator.BrixOf(sg) < 0.0 ==> b == 0.0
  {
    var value := BrixCalculator.BrixOf(sg);
    if CompareReals(value, 0.0) < 0 then 0.0 else value
  }

  /**
   * `getBrix`: a missing gravity is an illegal argument; otherwise the clamped regression
   * value. The Brix constructor would refuse a value above 25, but no supported gravity
   * regresses that far, so a present gravity always has a Brix.
   */
  function GetBrix(specificGravity: Option<SG.SpecificGravity>): (r: Result<Brix.Brix>)
    ensures r.Ok? <==> specificGravity.Some?
    ensures r.Err? ==> r.error == IllegalArgument
    ensures r.Ok? ==> r.value.value == ClampedBrix(specificGravity.value.value)
  {
    if specificGravity.None? then Err(IllegalArgument)
    else
      BrixCalculator.BrixRange(specificGravity.value.value);
      Brix.New(Finite(ClampedBrix(specificGravity.value.value)))
  }

  /**
   * From the Brix calculator's threshold on, sugar water and the calculator agree wherever
   * the calculator has an answer; below it both answers are 0 wherever the regression is negative.
   */
  lemma AgreesWithBrixCalculator(sg: SG.SpecificGravity)
    ensures sg.value >= BrixCalculator.MinimumSgForBrixRegression && BrixCalculator.GetDegreesBrix(Some(sg)).Ok?
            ==> GetBrix(Some(sg)).value.value == BrixCalculator.GetDegreesBrix(Some(sg)).value.value
    ensures BrixCalculator.BrixOf(sg.value) < 0.0 && BrixCalculator.GetDegreesBrix(Some(sg)).Ok?
            ==> GetBrix(Some(sg)).value.value == BrixCalculator.GetDegreesBrix(Some(sg)).value.value == 0.0
  {
  }

  /** Water itself (gravity 1) regresses to a negative Brix, which is clamped to exactly 0. */
  lemma WaterHasNoSugar()
    ensures BrixCalculator.BrixOf(1.0) < 0.0
    ensures GetBrix(Some(SG.SpecificGravityData(1.0))) == Ok(Brix.BrixData(0.0))
  {
  }
}
