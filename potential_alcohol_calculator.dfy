/**
 * Potential alcohol from sugar by Warcollier's factor, 0.06 % alcohol by volume per gram of
 * sugar per liter (src/main/java/com/ciderref/sdk/calculate/PotentialAlcoholCalculator.java).
 */
module PotentialAlcoholCalculator {
  import opened Wrappers
  import opened Numerics
  import MC = MassConcentration
  import ABV = PercentAlcoholByVolume

  /** Percent alcohol by volume per gram of sugar per liter. */
  const AbvPerGramPerLiter: real := 0.06

  /**
   * `getPotentialAlcohol`: 0.06 times the sugar in grams per liter; more than 100/0.06 g/L
   * is an illegal property value from the alcohol constructor.
   */
  function GetPotentialAlcohol(sugarConcentration: MC.MassConcentration): (r: Result<ABV.PercentAlcoholByVolume>)
    ensures r.Ok? <==> MC.GramsPerLiter(sugarConcentration) <= 100.0 / AbvPerGramPerLiter
    ensures r.Err? ==> r.error == IllegalPropertyValue
    ensures r.Ok? ==> r.value.value == AbvPerGramPerLiter * MC.GramsPerLiter(sugarConcentration)
  {
    ABV.New(Finite(AbvPerGramPerLiter * MC.GramsPerLiter(sugarConcentration)))
  }

  /** `getSugarConcentration`: the sugar, in one liter, that ferments to `targetAbv`. */
  function GetSugarConcentration(targetAbv: ABV.PercentAlcoholByVolume): (c: MC.MassConcentration)
    ensures AbvPerGramPerLiter * MC.GramsPerLiter(c) == targetAbv.value
  {
    MC.PerLiter(targetAbv.value / AbvPerGramPerLiter).value
  }

  /** The sugar needed for an alcohol content ferments to exactly that content. */
  lemma SugarForAbvRoundTrip(targetAbv: ABV.PercentAlcoholByVolume)
    ensures GetPotentialAlcohol(GetSugarConcentration(targetAbv)) == Ok(targetAbv)
  {
  }

  /** More sugar never gives less alcohol, and no sugar gives none. */
  lemma MoreSugarMoreAlcohol(c: MC.MassConcentration, d: MC.MassConcentration)
    requires MC.GramsPerLiter(c) <= MC.GramsPerLiter(d)
    requires GetPotentialAlcohol(d).Ok?
    ensures GetPotentialAlcohol(c).Ok?
    ensures GetPotentialAlcohol(c).value.value <= GetPotentialAlcohol(d).value.value
    ensures MC.GramsPerLiter(c) == 0.0 ==> GetPotentialAlcohol(c).value.value == 0.0
  {
  }
}
