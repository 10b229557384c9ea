/**
 * An average apple juice: a fixed sugar profile and total solids derived from the Brix of
 * its specific gravity (src/main/java/com/ciderref/sdk/substance/GenericAppleJuice.java).
 * `AppleJuice` stands for the interface the potential alcohol calculator consumes.
 */
module GenericAppleJuice {
  import opened Wrappers
  import opened Numerics
  import SG = SpecificGravity
  import MC = MassConcentration
  import SCP = SugarConcentrationProfile
  import BrixCalculator
  import Water

  /** An apple juice as the calculators see it: a sugar profile and a total-solids function. */
  datatype AppleJuice = AppleJuice(
    sugarConcentrationProfile: SCP.SugarConcentrationProfile,
    totalSolidsConcentration: Option<SG.SpecificGravity> -> Result<MC.MassConcentration>)

  /** `getSugarConcentrationProfile()`: 2130 g/L per unit of gravity, standard deviation 120. */
  function GetSugarConcentrationProfile(): (p: SCP.SugarConcentrationProfile)
    ensures SCP.New(Finite(2130.0), Finite(120.0)) == Ok(p)
  {
    SCP.SugarConcentrationProfileData(2130.0, 120.0)
  }

  /** The Brix the calculator reports for `sg`, which exists whenever the total solids do. */
  function BrixOf(sg: SG.SpecificGravity): real
    requires BrixCalculator.GetDegreesBrix(Some(sg)).Ok?
  {
    BrixCalculator.GetDegreesBrix(Some(sg)).value.value
  }

  /**
   * `getTotalSolidsConcentration`: the juice's density (gravity times the density of water at
   * 20 ℃) times its Brix as a fraction, in one liter. A missing gravity is an illegal
   * argument, as is a failure of the Brix calculator.
   */
  function GetTotalSolidsConcentration(specificGravity: Option<SG.SpecificGravity>): (r: Result<MC.MassConcentration>)
    ensures specificGravity.None? ==> r == Err(IllegalArgument)
    ensures r.Err? <==> BrixCalculator.GetDegreesBrix(specificGravity).Err?
    ensures r.Err? ==> r.error == IllegalArgument
    ensures r.Ok? ==> MC.GramsPerLiter(r.value)
                      == specificGravity.value.value * Water.DensityAt20DegreesCelsius * BrixOf(specificGravity.value) / 100.0
  {
    if specificGravity.None? then Err(IllegalArgument)
    else
      var sg := specificGravity.value.value;
      var brix :- BrixCalculator.GetDegreesBrix(specificGravity);
      var pw := Water.DensityAt20DegreesCelsius;
      var density := sg * pw;
      var totalSolids := density * brix.value / 100.0;
      NonNegativeSolids(sg, pw, brix.value);
      MC.PerLiter(totalSolids)
  }

  /** The generic juice as an `AppleJuice`. */
  const Juice: AppleJuice := AppleJuice(GetSugarConcentrationProfile(), GetTotalSolidsConcentration)

  /** Solids computed from non-negative factors are non-negative. */
  lemma NonNegativeSolids(sg: real, pw: real, brix: real)
    requires sg >= 0.0 && pw >= 0.0 && brix >= 0.0
    ensures sg * pw * brix / 100.0 >= 0.0
  {
    assert sg * pw >= 0.0;
  }

  /** A juice below the Brix calculator's threshold has exactly no solids. */
  lemma NoSolidsBelowThreshold(sg: SG.SpecificGravity)
    requires sg.value < BrixCalculator.MinimumSgForBrixRegression
    ensures GetTotalSolidsConcentration(Some(sg)).Ok?
    ensures MC.GramsPerLiter(GetTotalSolidsConcentration(Some(sg)).value) == 0.0
  {
    BrixCalculator.ClampedBelowThreshold(sg);
  }

  /** At gravities 1.040, 1.050 and 1.060 the solids are within 1 g/L of 2608 g/L per unit of gravity. */
  lemma SolidsNearLinearFit()
    ensures forall s :: s in {1.040, 1.050, 1.060} ==>
      var r := GetTotalSolidsConcentration(Some(SG.SpecificGravityData(s)));
      r.Ok? && -1.0 < MC.GramsPerLiter(r.value) - 2608.0 * (s - 1.0) < 1.0
  {
    forall s | s in {1.040, 1.050, 1.060}
      ensures var r := GetTotalSolidsConcentration(Some(SG.SpecificGravityData(s)));
        r.Ok? && -1.0 < MC.GramsPerLiter(r.value) - 2608.0 * (s - 1.0) < 1.0
    {
      BrixCalculator.BrixRange(s);
    }
  }
}
