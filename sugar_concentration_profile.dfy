/**
 * The sugar concentration of a class of fluid as a function of its specific gravity: an
 * average coefficient of sugar per degree of gravity and its standard deviation
 * (src/main/java/com/ciderref/sdk/property/SugarConcentrationProfile.java).
 */
module SugarConcentrationProfile {
  import opened Wrappers
  import opened Numerics
  import SG = SpecificGravity
  import MC = MassConcentration

  datatype SugarConcentrationProfileData = SugarConcentrationProfileData(averageCoefficient: real, standardDeviation: real)

  /** The constructor refuses negative numbers, so both fields are non-negative. */
  type SugarConcentrationProfile = p: SugarConcentrationProfileData | p.averageCoefficient >= 0.0 && p.standardDeviation >= 0.0
    witness SugarConcentrationProfileData(0.0, 0.0)

  /** The constructor: NaN, infinite or negative arguments are illegal arguments; zero is accepted. */
  function New(averageCoefficient: Double, standardDeviation: Double): (r: Result<SugarConcentrationProfile>)
    ensures r.Err? <==> !averageCoefficient.Finite? || !standardDeviation.Finite?
                        || averageCoefficient.value < 0.0 || standardDeviation.value < 0.0
    ensures r.Err? ==> r.error == IllegalArgument
    ensures r.Ok? ==> r.value.averageCoefficient == averageCoefficient.value
                      && r.value.standardDeviation == standardDeviation.value
  {
    if averageCoefficient.IsNaN() || standardDeviation.IsNaN() then Err(IllegalArgument)
    else if averageCoefficient.IsInfinite() || standardDeviation.IsInfinite() then Err(IllegalArgument)
    else if CompareDouble(averageCoefficient, 0.0) < 0 || CompareDouble(standardDeviation, 0.0) < 0 then
      Err(IllegalArgument)
    else Ok(SugarConcentrationProfileData(averageCoefficient.value, standardDeviation.value))
  }

  /**
   * The shared body of the three getters: `coefficient · (SG − 1)` grams in one liter. A
   * missing gravity is an illegal argument, and so is a negative product, which the mass
   * constructor refuses.
   */
  function SugarConcentration(coefficient: real, specificGravity: Option<SG.SpecificGravity>)
    : (r: Result<MC.MassConcentration>)
    ensures specificGravity.None? ==> r == Err(IllegalArgument)
    ensures specificGravity.Some? ==> (r.Ok? <==> coefficient * (specificGravity.value.value - 1.0) >= 0.0)
    ensures r.Err? ==> r.error == IllegalArgument
    ensures r.Ok? ==> MC.GramsPerLiter(r.value) == coefficient * (specificGravity.value.value - 1.0)
  {
    if specificGravity.None? then Err(IllegalArgument)
    else MC.PerLiter(coefficient * (specificGravity.value.value - 1.0))
  }

  /** `getAverageSugarConcentration`: the average coefficient times the degrees of gravity. */
  function GetAverageSugarConcentration(p: SugarConcentrationProfile, specificGravity: Option<SG.SpecificGravity>)
    : (r: Result<MC.MassConcentration>)
    ensures specificGravity.None? ==> r == Err(IllegalArgument)
    ensures specificGravity.Some? ==> (r.Ok? <==> specificGravity.value.value >= 1.0 || p.averageCoefficient == 0.0)
    ensures r.Ok? ==> MC.GramsPerLiter(r.value) == p.averageCoefficient * (specificGravity.value.value - 1.0)
  {
    match specificGravity
    case None => SugarConcentration(p.averageCoefficient, specificGravity)
    case Some(sg) =>
      ProductSign(p.averageCoefficient, sg.value - 1.0);
      SugarConcentration(p.averageCoefficient, specificGravity)
  }

  /** `getMinimumSugarConcentration`: two standard deviations below the average coefficient. */
  function GetMinimumSugarConcentration(p: SugarConcentrationProfile, specificGravity: Option<SG.SpecificGravity>)
    : (r: Result<MC.MassConcentration>)
    ensures specificGravity.None? ==> r == Err(IllegalArgument)
    ensures r.Err? ==> r.error == IllegalArgument
    ensures r.Ok? ==> MC.GramsPerLiter(r.value)
                      == (p.averageCoefficient - 2.0 * p.standardDeviation) * (specificGravity.value.value - 1.0)
  {
    SugarConcentration(p.averageCoefficient - 2.0 * p.standardDeviation, specificGravity)
  }

  /** `getMaximumSugarConcentration`: two standard deviations above the average coefficient. */
  function GetMaximumSugarConcentration(p: SugarConcentrationProfile, specificGravity: Option<SG.SpecificGravity>)
    : (r: Result<MC.MassConcentration>)
    ensures specificGravity.None? ==> r == Err(IllegalArgument)
    ensures specificGravity.Some? ==> (r.Ok? <==> specificGravity.value.value >= 1.0
                                                  || p.averageCoefficient + 2.0 * p.standardDeviation == 0.0)
    ensures r.Ok? ==> MC.GramsPerLiter(r.value)
                      == (p.averageCoefficient + 2.0 * p.standardDeviation) * (specificGravity.value.value - 1.0)
  {
    match specificGravity
    case None => SugarConcentration(p.averageCoefficient + 2.0 * p.standardDeviation, specificGravity)
    case Some(sg) =>
      ProductSign(p.averageCoefficient + 2.0 * p.standardDeviation, sg.value - 1.0);
      SugarConcentration(p.averageCoefficient + 2.0 * p.standardDeviation, specificGravity)
  }

  /** `equals`: the other object is a profile with exactly the same two fields. */
  function Equals(p: SugarConcentrationProfile, other: Option<SugarConcentrationProfile>): (b: bool)
    ensures b <==> other == Some(p)
  {
    other.Some? && CompareReals(other.value.averageCoefficient, p.averageCoefficient) == 0
    && CompareReals(other.value.standardDeviation, p.standardDeviation) == 0
  }

  /** At a gravity of at least 1 the minimum, average and maximum are ordered whenever all three exist. */
  lemma MinimumAverageMaximumOrdered(p: SugarConcentrationProfile, sg: SG.SpecificGravity)
    requires sg.value >= 1.0
    requires GetMinimumSugarConcentration(p, Some(sg)).Ok?
    ensures GetAverageSugarConcentration(p, Some(sg)).Ok? && GetMaximumSugarConcentration(p, Some(sg)).Ok?
    ensures MC.GramsPerLiter(GetMinimumSugarConcentration(p, Some(sg)).value)
            <= MC.GramsPerLiter(GetAverageSugarConcentration(p, Some(sg)).value)
            <= MC.GramsPerLiter(GetMaximumSugarConcentration(p, Some(sg)).value)
  {
    var low, average, high := p.averageCoefficient - 2.0 * p.standardDeviation, p.averageCoefficient,
      p.averageCoefficient + 2.0 * p.standardDeviation;
    MoreSugarPerDegree(low, average, sg);
    MoreSugarPerDegree(average, high, sg);
  }

  /** At a gravity of at least 1, a larger coefficient never gives less sugar. */
  lemma MoreSugarPerDegree(c: real, d: real, sg: SG.SpecificGravity)
    requires sg.value >= 1.0 && c <= d
    requires SugarConcentration(c, Some(sg)).Ok?
    ensures SugarConcentration(d, Some(sg)).Ok?
    ensures MC.GramsPerLiter(SugarConcentration(c, Some(sg)).value)
            <= MC.GramsPerLiter(SugarConcentration(d, Some(sg)).value)
  {
    var x := sg.value - 1.0;
    LargerCoefficientScalesUp(c, d, x);
    assert SugarConcentration(d, Some(sg)).Ok?;
  }

  /** Scaling a non-negative degree count by a larger coefficient keeps the sign and the order. */
  lemma LargerCoefficientScalesUp(c: real, d: real, x: real)
    requires x >= 0.0 && c <= d && c * x >= 0.0
    ensures d * x >= 0.0 && c * x <= d * x
  {
    ProductSign(c, x);
    ProductSign(d, x);
    ScaledInOrder(c * x, d * x, c, d, x);
  }

  /**
   * Below a gravity of 1 the sugar would be negative: a profile with a positive average
   * coefficient fails with an illegal argument from the mass constructor.
   */
  lemma GravityBelowOneFails(p: SugarConcentrationProfile, sg: SG.SpecificGravity)
    requires sg.value < 1.0 && p.averageCoefficient > 0.0
    ensures GetAverageSugarConcentration(p, Some(sg)) == Err(IllegalArgument)
    ensures GetMinimumSugarConcentration(p, Some(sg)) == Err(IllegalArgument)
      <== p.averageCoefficient - 2.0 * p.standardDeviation > 0.0
    ensures GetMaximumSugarConcentration(p, Some(sg)) == Err(IllegalArgument)
  {
    ProductSign(p.averageCoefficient, sg.value - 1.0);
    ProductSign(p.averageCoefficient - 2.0 * p.standardDeviation, sg.value - 1.0);
    ProductSign(p.averageCoefficient + 2.0 * p.standardDeviation, sg.value - 1.0);
  }

  /**
   * A standard deviation of more than half the average coefficient makes the minimum
   * negative above a gravity of 1, which the mass constructor refuses.
   */
  lemma WideDeviationHasNoMinimum(p: SugarConcentrationProfile, sg: SG.SpecificGravity)
    requires sg.value > 1.0 && p.averageCoefficient - 2.0 * p.standardDeviation < 0.0
    ensures GetMinimumSugarConcentration(p, Some(sg)) == Err(IllegalArgument)
  {
    ProductSign(p.averageCoefficient - 2.0 * p.standardDeviation, sg.value - 1.0);
  }

  /** The sign of a product. */
  lemma ProductSign(a: real, d: real)
    ensures a * d >= 0.0 <==> (a >= 0.0 && d >= 0.0) || (a <= 0.0 && d <= 0.0)
  {
    if a > 0.0 && d < 0.0 {
      assert a * d < 0.0;
    } else if a < 0.0 && d > 0.0 {
      assert a * d < 0.0;
    } else if a >= 0.0 && d >= 0.0 {
      assert a * d >= 0.0;
    } else {
      assert a * d >= 0.0;
    }
  }

  /** Multiplying by a non-negative number keeps an order. */
  lemma ScaledInOrder(x: real, y: real, a: real, b: real, d: real)
    requires x == a * d && y == b * d
    requires a <= b && d >= 0.0
    ensures x <= y
  {
    assert (b - a) * d >= 0.0;
  }
}
