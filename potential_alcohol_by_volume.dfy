/**
 * The range of alcohol an apple juice ferments to, from the minimum, average and maximum
 * sugar of its profile (src/main/java/com/ciderref/sdk/calculate/PotentialAlcoholByVolume.java).
 */
module PotentialAlcoholByVolume {
  import opened Wrappers
  import opened Numerics
  import opened Units
  import SG = SpecificGravity
  import MC = MassConcentration
  import ABV = PercentAlcoholByVolume
  import SCP = SugarConcentrationProfile
  import GenericAppleJuice
  import PotentialAlcoholCalculator

  /** The calculator holds the juice it was built for. */
  datatype PotentialAlcoholByVolume = PotentialAlcoholByVolume(appleJuice: GenericAppleJuice.AppleJuice)

  /** The constructor: a missing juice is an illegal argument. */
  function New(appleJuice: Option<GenericAppleJuice.AppleJuice>): (r: Result<PotentialAlcoholByVolume>)
    ensures appleJuice.None? <==> r == Err(IllegalArgument)
    ensures r.Ok? ==> r.value.appleJuice == appleJuice.value
  {
    if appleJuice.None? then Err(IllegalArgument)
    else Ok(PotentialAlcoholByVolume(appleJuice.value))
  }

  /** `calculateAbv`: 0.06 times the sugar in grams per liter. */
  function CalculateAbv(sugarContent: MC.MassConcentration): (abv: real)
    ensures abv == PotentialAlcoholCalculator.AbvPerGramPerLiter * MC.GramsPerLiter(sugarContent)
  {
    PotentialAlcoholCalculator.AbvPerGramPerLiter * MC.GetValue(sugarContent, Some(Grams), Some(Liters)).value
  }

  /** The shared body of the three getters: the alcohol of a sugar concentration the profile gives. */
  function AbvOf(sugar: Result<MC.MassConcentration>): (r: Result<ABV.PercentAlcoholByVolume>)
    ensures sugar.Err? ==> r == Err(sugar.error)
    ensures sugar.Ok? ==> r == PotentialAlcoholCalculator.GetPotentialAlcohol(sugar.value)
  {
    var sugarContent :- sugar;
    ABV.New(Finite(CalculateAbv(sugarContent)))
  }

  /** `getMinimum`: the alcohol of the profile's minimum sugar; a missing gravity is an illegal argument. */
  function GetMinimum(calculator: PotentialAlcoholByVolume, specificGravity: Option<SG.SpecificGravity>)
    : (r: Result<ABV.PercentAlcoholByVolume>)
    ensures specificGravity.None? ==> r == Err(IllegalArgument)
    ensures var p := calculator.appleJuice.sugarConcentrationProfile;
            r.Ok? ==> r.value.value == PotentialAlcoholCalculator.AbvPerGramPerLiter
                                       * (p.averageCoefficient - 2.0 * p.standardDeviation)
                                       * (specificGravity.value.value - 1.0)
  {
    if specificGravity.None? then Err(IllegalArgument)
    else AbvOf(SCP.GetMinimumSugarConcentration(calculator.appleJuice.sugarConcentrationProfile, specificGravity))
  }

  /** `getAverage`: the alcohol of the profile's average sugar; a missing gravity is an illegal argument. */
  function GetAverage(calculator: PotentialAlcoholByVolume, specificGravity: Option<SG.SpecificGravity>)
    : (r: Result<ABV.PercentAlcoholByVolume>)
    ensures specificGravity.None? ==> r == Err(IllegalArgument)
    ensures var p := calculator.appleJuice.sugarConcentrationProfile;
            r.Ok? ==> r.value.value == PotentialAlcoholCalculator.AbvPerGramPerLiter
                                       * p.averageCoefficient * (specificGravity.value.value - 1.0)
  {
    if specificGravity.None? then Err(IllegalArgument)
    else AbvOf(SCP.GetAverageSugarConcentration(calculator.appleJuice.sugarConcentrationProfile, specificGravity))
  }

  /** `getMaximum`: the alcohol of the profile's maximum sugar; a missing gravity is an illegal argument. */
  function GetMaximum(calculator: PotentialAlcoholByVolume, specificGravity: Option<SG.SpecificGravity>)
    : (r: Result<ABV.PercentAlcoholByVolume>)
    ensures specificGravity.None? ==> r == Err(IllegalArgument)
    ensures var p := calculator.appleJuice.sugarConcentrationProfile;
            r.Ok? ==> r.value.value == PotentialAlcoholCalculator.AbvPerGramPerLiter
                                       * (p.averageCoefficient + 2.0 * p.standardDeviation)
                                       * (specificGravity.value.value - 1.0)
  {
    if specificGravity.None? then Err(IllegalArgument)
    else AbvOf(SCP.GetMaximumSugarConcentration(calculator.appleJuice.sugarConcentrationProfile, specificGravity))
  }

  /** At a gravity of at least 1 the three estimates are ordered whenever all three exist. */
  lemma MinimumAverageMaximumOrdered(calculator: PotentialAlcoholByVolume, sg: SG.SpecificGravity)
    requires sg.value >= 1.0
    requires GetMinimum(calculator, Some(sg)).Ok? && GetMaximum(calculator, Some(sg)).Ok?
    ensures GetAverage(calculator, Some(sg)).Ok?
    ensures GetMinimum(calculator, Some(sg)).value.value <= GetAverage(calculator, Some(sg)).value.value
            <= GetMaximum(calculator, Some(sg)).value.value
  {
    var p := calculator.appleJuice.sugarConcentrationProfile;
    SCP.MinimumAverageMaximumOrdered(p, Some(sg).value);
    var minimum := SCP.GetMinimumSugarConcentration(p, Some(sg)).value;
    var average := SCP.GetAverageSugarConcentration(p, Some(sg)).value;
    var maximum := SCP.GetMaximumSugarConcentration(p, Some(sg)).value;
    PotentialAlcoholCalculator.MoreSugarMoreAlcohol(average, maximum);
    PotentialAlcoholCalculator.MoreSugarMoreAlcohol(minimum, average);
  }

  /** For the generic juice at gravity 1.050 the average is 0.06 · 2130 · 0.05 = 6.39 % alcohol. */
  lemma GenericJuiceAverage()
    ensures var calculator := PotentialAlcoholByVolume(GenericAppleJuice.Juice);
            GetAverage(calculator, Some(SG.SpecificGravityData(1.050))).Ok?
            && GetAverage(calculator, Some(SG.SpecificGravityData(1.050))).value.value == 6.39
  {
  }
}
