/**
 * Converts between degrees Brix and specific gravity with two cubic regressions
 * (src/main/java/com/ciderref/sdk/calculate/BrixCalculator.java).
 */
module BrixCalculator {
  import opened Wrappers
  import opened Numerics
  import SG = SpecificGravity
  import DB = DegreesBrix

  /** The largest Brix the gravity regression is used for. */
  const MaximumBrixForSgRegression: real := 44.0

  /** Below this gravity the Brix regression would be slightly negative, and zero is returned instead. */
  const MinimumSgForBrixRegression: real := 1.0000185477666315

  /** The largest gravity the Brix regression is used for. */
  const MaximumSgForBrixRegression: real := 1.17875

  /** The gravity regression on the NBS Circular 440 table: 1 + (3.8687 B + 0.013048 B² + 0.0000487 B³) / 1000. */
  function SpecificGravityOf(brix: real): real
  {
    1.0 + (3.8687 * brix + 0.013048 * (brix * brix) + 0.0000487 * (brix * brix * brix)) / 1000.0
  }

  /** The Brix regression in Horner form: ((182.4601 s − 775.6821) s + 1262.7794) s − 669.5622. */
  function BrixOf(sg: real): real
  {
    ((182.4601 * sg - 775.6821) * sg + 1262.7794) * sg - 669.5622
  }

  /**
   * `getSpecificGravity`: a missing Brix is an illegal argument; a Brix above 44, or one
   * whose regressed gravity the specific gravity constructor refuses, is an illegal
   * property value; otherwise the gravity is the regression's.
   */
  function GetSpecificGravity(degreesBrix: Option<DB.DegreesBrix>): (r: Result<SG.SpecificGravity>)
    ensures degreesBrix.None? <==> r == Err(IllegalArgument)
    ensures degreesBrix.Some? && degreesBrix.value.value > MaximumBrixForSgRegression ==> r == Err(IllegalPropertyValue)
    ensures r.Ok? <==> degreesBrix.Some? && degreesBrix.value.value <= MaximumBrixForSgRegression
                       && SpecificGravityOf(degreesBrix.value.value) <= SG.MaximumSupportedValue
    ensures r.Err? && degreesBrix.Some? ==> r.error == IllegalPropertyValue
    ensures r.Ok? ==> r.value.value == SpecificGravityOf(degreesBrix.value.value)
  {
    if degreesBrix.None? then Err(IllegalArgument)
    else if CompareReals(degreesBrix.value.value, MaximumBrixForSgRegression) > 0 then Err(IllegalPropertyValue)
    else
      GravityAtLeastOne(degreesBrix.value.value);
      SG.New(SpecificGravityOf(degreesBrix.value.value))
  }

  /**
   * `getDegreesBrix`: a missing gravity is an illegal argument; below the regression's
   * threshold the answer is exactly 0; otherwise it is the regression's value, which the
   * degrees Brix constructor refuses if negative. The check against 1.17875 never fires,
   * because no specific gravity exceeds 1.100.
   */
  function GetDegreesBrix(specificGravity: Option<SG.SpecificGravity>): (r: Result<DB.DegreesBrix>)
    ensures r == Err(IllegalArgument) <==> (specificGravity.None? || (specificGravity.value.value >= MinimumSgForBrixRegression
                                                                     && BrixOf(specificGravity.value.value) < 0.0))
    ensures r.Err? ==> r.error == IllegalArgument
    ensures r.Ok? && specificGravity.value.value < MinimumSgForBrixRegression ==> r.value.value == 0.0
    ensures r.Ok? && specificGravity.value.value >= MinimumSgForBrixRegression
            ==> r.value.value == BrixOf(specificGravity.value.value)
  {
    if specificGravity.None? then Err(IllegalArgument)
    else if CompareReals(specificGravity.value.value, MaximumSgForBrixRegression) > 0 then Err(IllegalPropertyValue)
    else if CompareReals(specificGravity.value.value, MinimumSgForBrixRegression) < 0 then DB.New(Finite(0.0))
    else DB.New(Finite(BrixOf(specificGravity.value.value)))
  }

  /** A non-negative Brix regresses to a gravity of at least 1. */
  lemma GravityAtLeastOne(brix: real)
    requires brix >= 0.0
    ensures SpecificGravityOf(brix) >= 1.0
  {
    assert brix * brix >= 0.0;
    assert brix * brix * brix >= 0.0;
  }

  /** Pure water, 0 °Bx, has a gravity of exactly 1. */
  lemma ZeroBrixIsWater()
    ensures SpecificGravityOf(0.0) == 1.0
    ensures DB.New(Finite(0.0)).Ok? && GetSpecificGravity(Some(DB.New(Finite(0.0)).value)) == Ok(SG.SpecificGravityData(1.0))
  {
  }

  /** The gravity regression is strictly increasing over non-negative Brix. */
  lemma GravityIncreasesWithBrix(a: real, b: real)
    requires 0.0 <= a < b
    ensures SpecificGravityOf(a) < SpecificGravityOf(b)
  {
    ScaledUp(a, b, a);
    ScaledUp(a, b, b);
    ScaledUp(a * a, b * b, a);
    ScaledUp(a, b, b * b);
    TermsInOrder(a, a * a, a * a * a, b, b * b, b * b * b);
  }

  /** The regression's terms, each in order, add up in order. */
  lemma TermsInOrder(a: real, a2: real, a3: real, b: real, b2: real, b3: real)
    requires a < b && a2 <= b2 && a3 <= b3
    ensures 1.0 + (3.8687 * a + 0.013048 * a2 + 0.0000487 * a3) / 1000.0
            < 1.0 + (3.8687 * b + 0.013048 * b2 + 0.0000487 * b3) / 1000.0
  {
  }

  /** Multiplying by a non-negative factor keeps the order of two non-negative numbers. */
  lemma ScaledUp(x: real, y: real, z: real)
    requires 0.0 <= x <= y && z >= 0.0
    ensures x * z <= y * z
  {
    assert (y - x) * z >= 0.0;
  }

  /**
   * 23 °Bx is the last whole degree whose gravity the specific gravity constructor
   * accepts; 44 °Bx passes the regression's own check but is refused there.
   */
  lemma LargestBrix()
    ensures GetSpecificGravity(Some(DB.DegreesBrixData(23.0))).Ok?
    ensures GetSpecificGravity(Some(DB.DegreesBrixData(24.0))) == Err(IllegalPropertyValue)
    ensures GetSpecificGravity(Some(DB.DegreesBrixData(44.0))) == Err(IllegalPropertyValue)
  {
  }

  /** The polynomial identity behind `BrixIncreasesWithGravity`. */
  lemma BrixDifference(a: real, b: real)
    ensures BrixOf(b) - BrixOf(a) == (b - a) * Slope(a, b)
  {
  }

  /** The factor left of `BrixOf(b) - BrixOf(a)` once `b - a` is taken out. */
  function Slope(a: real, b: real): real
  {
    182.4601 * (a * a + a * b + b * b) - 775.6821 * (a + b) + 1262.7794
  }

  /** Over the supported gravities the regression's slope between two readings is positive. */
  lemma SlopePositive(a: real, b: real)
    requires SG.MinimumSupportedValue <= a <= SG.MaximumSupportedValue
    requires SG.MinimumSupportedValue <= b <= SG.MaximumSupportedValue
    ensures Slope(a, b) > 0.0
  {
    ProductAtLeast(a, a, 0.99);
    ProductAtLeast(a, b, 0.99);
    ProductAtLeast(b, b, 0.99);
  }

  /** A product of two non-negative factors is non-negative. */
  lemma ProductNonNegative(x: real, y: real)
    requires x >= 0.0 && y >= 0.0
    ensures x * y >= 0.0
  {
  }

  /** A product of two factors no smaller than `m` is no smaller than `m²`. */
  lemma ProductAtLeast(x: real, y: real, m: real)
    requires 0.0 <= m <= x && m <= y
    ensures x * y >= m * m
  {
    assert x * y >= m * y >= m * m;
  }

  /** Over the supported gravities the Brix regression is increasing. */
  lemma BrixIncreasesWithGravity(a: real, b: real)
    requires SG.MinimumSupportedValue <= a <= b <= SG.MaximumSupportedValue
    ensures BrixOf(a) <= BrixOf(b)
  {
    BrixDifference(a, b);
    SlopePositive(a, b);
    ProductNonNegative(b - a, Slope(a, b));
  }

  /**
   * The regression stays below 24 °Bx over the supported gravities, and is positive from a
   * gravity of 1.0001 on, so `getDegreesBrix` fails only in the sliver just above its threshold.
   */
  lemma BrixRange(s: real)
    requires SG.MinimumSupportedValue <= s <= SG.MaximumSupportedValue
    ensures BrixOf(s) < 24.0
    ensures s >= 1.0001 ==> BrixOf(s) > 0.0
  {
    BrixIncreasesWithGravity(s, SG.MaximumSupportedValue);
    if s >= 1.0001 {
      BrixIncreasesWithGravity(1.0001, s);
    }
  }

  /** Every gravity of at least 1.0001 has a Brix, and a heavier liquid never has less. */
  lemma DegreesBrixIsMonotone(s: SG.SpecificGravity, t: SG.SpecificGravity)
    requires 1.0001 <= s.value <= t.value
    ensures GetDegreesBrix(Some(s)).Ok? && GetDegreesBrix(Some(t)).Ok?
    ensures GetDegreesBrix(Some(s)).value.value <= GetDegreesBrix(Some(t)).value.value
  {
    BrixRange(s.value);
    BrixRange(t.value);
    BrixIncreasesWithGravity(s.value, t.value);
  }

  /** Every gravity below the threshold reads as exactly 0 °Bx. */
  lemma ClampedBelowThreshold(s: SG.SpecificGravity)
    requires s.value < MinimumSgForBrixRegression
    ensures GetDegreesBrix(Some(s)) == Ok(DB.DegreesBrixData(0.0))
  {
  }
}
