/**
 * Chaptalization: the juice that results from adding sugar, and the sugar to add to reach a
 * target potential alcohol, found by bisection
 * (src/main/java/com/ciderref/sdk/calculate/ChaptalizationCalculator.java).
 */
module ChaptalizationCalculator {
  import opened Wrappers
  import opened Numerics
  import opened Units
  import SG = SpecificGravity
  import MC = MassConcentration
  import M = Mass
  import V = Volume
  import DB = DegreesBrix
  import ABV = PercentAlcoholByVolume
  import AS = AqueousSolution
  import BrixCalculator
  import PotentialAlcoholCalculator
  import Water

  /** The lowest original gravity the calculator accepts. */
  const MinimumSpecificGravity: real := 1.035

  /** The highest target alcohol the calculator accepts, in percent by volume. */
  const MaximumTargetAbv: real := 15.0

  /** The mass of one original liter of the solution after adding `added` grams of sugar. */
  function TotalMassPerOriginalLiter(s: AS.AqueousSolution, added: real): (r: real)
    ensures r > added
  {
    s.specificGravity.value * Water.DensityAt20DegreesCelsius + added
  }

  /** The Brix of the amended solution: its solids as a percentage of its mass. */
  function FinalBrix(s: AS.AqueousSolution, added: real): (r: real)
    requires added >= 0.0
    ensures r >= 0.0
  {
    (MC.GramsPerLiter(s.solids) + added) / TotalMassPerOriginalLiter(s, added) * 100.0
  }

  /** The gravity of the amended solution: the Brix calculator's gravity for its Brix. */
  function FinalSpecificGravity(s: AS.AqueousSolution, added: real): (r: Result<SG.SpecificGravity>)
    requires added >= 0.0
    ensures r.Err? ==> r.error == IllegalPropertyValue
    ensures r.Ok? <==> FinalBrix(s, added) <= BrixCalculator.MaximumBrixForSgRegression
                       && BrixCalculator.SpecificGravityOf(FinalBrix(s, added)) <= SG.MaximumSupportedValue
    ensures r.Ok? ==> r.value.value == BrixCalculator.SpecificGravityOf(FinalBrix(s, added))
  {
    var totalSolidsPerOriginalLiter := MC.GramsPerLiter(s.solids) + added;
    var totalSolutionMassPerOriginalLiter := TotalMassPerOriginalLiter(s, added);
    var finalDegreesBrix := DB.New(Finite(totalSolidsPerOriginalLiter / totalSolutionMassPerOriginalLiter * 100.0)).value;
    BrixCalculator.GetSpecificGravity(Some(finalDegreesBrix))
  }

  /** The concentration, in the expanded solution, of `perOriginalLiter` grams first in one liter. */
  function Diluted(perOriginalLiter: real, ratio: real): (r: MC.MassConcentration)
    requires perOriginalLiter >= 0.0 && ratio > 0.0
    ensures MC.GramsPerLiter(r) * ratio == perOriginalLiter
  {
    MC.PerLiter(perOriginalLiter / ratio).value
  }

  /** The volume of the solution once each of its liters has grown to `ratio` liters. */
  function Expanded(volume: V.Volume, ratio: real): (r: V.Volume)
    requires ratio > 0.0
    ensures r.milliliters == volume.milliliters * ratio
  {
    var finalVolumeInLiters := V.GetValue(volume, Some(Liters)).value * ratio;
    V.New(Finite(finalVolumeInLiters), Some(Liters)).value
  }

  /** The number of liters each original liter occupies once `added` grams of sugar are dissolved in it. */
  function ExpansionRatio(s: AS.AqueousSolution, added: real, finalSpecificGravity: SG.SpecificGravity): (ratio: real)
    requires added >= 0.0
    ensures ratio > 0.0
  {
    TotalMassPerOriginalLiter(s, added) / (finalSpecificGravity.value * Water.DensityAt20DegreesCelsius)
  }

  /** The grams of sugar in the whole batch: its concentration times its volume in liters. */
  function SugarInBatch(s: AS.AqueousSolution): real
  {
    AmountInBatch(s.sugar, s.volume)
  }

  /** The grams of solids in the whole batch. */
  function SolidsInBatch(s: AS.AqueousSolution): real
  {
    AmountInBatch(s.solids, s.volume)
  }

  /** The grams held by `volume` at concentration `c`. */
  function AmountInBatch(c: MC.MassConcentration, volume: V.Volume): real
  {
    MC.GramsPerLiter(c) * volume.milliliters / 1000.0
  }

  /** The grams the whole batch weighs: its volume in liters times its density, gravity times that of water. */
  function MassOfBatch(s: AS.AqueousSolution): real
  {
    s.volume.milliliters / 1000.0 * (s.specificGravity.value * Water.DensityAt20DegreesCelsius)
  }

  /** The grams added to a batch of `volume` when `added` grams go into each of its liters. */
  function AddedToBatch(volume: V.Volume, added: real): real
  {
    added * volume.milliliters / 1000.0
  }

  /**
   * Diluting the grams per liter of `before` plus `added` by `ratio`, into the volume expanded
   * by the same ratio, keeps the grams in the batch: what was there plus what was added.
   */
  lemma DilutionKeepsAmount(before: MC.MassConcentration, added: real, volume: V.Volume, ratio: real,
                            after: MC.MassConcentration, expanded: V.Volume)
    requires MC.GramsPerLiter(before) + added >= 0.0 && ratio > 0.0
    requires after == Diluted(MC.GramsPerLiter(before) + added, ratio) && expanded == Expanded(volume, ratio)
    ensures AmountInBatch(after, expanded) == AmountInBatch(before, volume) + AddedToBatch(volume, added)
  {
    var x := MC.GramsPerLiter(after);
    var p := MC.GramsPerLiter(before);
    assert x * expanded.milliliters == x * (volume.milliliters * ratio) == (x * ratio) * volume.milliliters;
    assert (p + added) * volume.milliliters == p * volume.milliliters + added * volume.milliliters;
  }

  /**
   * Amending `o` with `added` grams per liter, diluted and expanded by the same `ratio`, adds
   * exactly `added` grams per original liter of sugar and of solids to the batch.
   */
  lemma AmendingKeepsSugarAndSolids(o: AS.AqueousSolution, added: real, ratio: real, a: AS.AqueousSolution)
    requires added >= 0.0 && ratio > 0.0
    requires a.sugar == Diluted(MC.GramsPerLiter(o.sugar) + added, ratio)
    requires a.solids == Diluted(MC.GramsPerLiter(o.solids) + added, ratio)
    requires a.volume == Expanded(o.volume, ratio)
    ensures SugarInBatch(a) == SugarInBatch(o) + AddedToBatch(o.volume, added)
    ensures SolidsInBatch(a) == SolidsInBatch(o) + AddedToBatch(o.volume, added)
  {
    DilutionKeepsAmount(o.sugar, added, o.volume, ratio, a.sugar, a.volume);
    DilutionKeepsAmount(o.solids, added, o.volume, ratio, a.solids, a.volume);
  }

  /**
   * Expanding `o` by the expansion ratio for `added` grams per liter and the gravity of `a`
   * makes a batch that weighs what `o` weighed plus the added sugar.
   */
  lemma ExpansionKeepsMass(o: AS.AqueousSolution, added: real, a: AS.AqueousSolution)
    requires added >= 0.0
    requires a.volume == Expanded(o.volume, ExpansionRatio(o, added, a.specificGravity))
    ensures MassOfBatch(a) == MassOfBatch(o) + AddedToBatch(o.volume, added)
  {
    var ratio := ExpansionRatio(o, added, a.specificGravity);
    var k := a.specificGravity.value * Water.DensityAt20DegreesCelsius;
    var v := o.volume.milliliters;
    assert ratio * k == TotalMassPerOriginalLiter(o, added);
    assert a.volume.milliliters * k == (v * ratio) * k == v * (ratio * k);
    assert v * TotalMassPerOriginalLiter(o, added)
           == v * (o.specificGravity.value * Water.DensityAt20DegreesCelsius) + added * v;
  }

  /**
   * `getChaptalizationResult`: the solution after dissolving `sugarAdded` in each original
   * liter. Sugar and solids grow by the added mass, the Brix is the solids' share of the new
   * mass and the gravity follows from it; the only failure is the Brix calculator refusing
   * that Brix.
   */
  function GetChaptalizationResult(originalSolution: AS.AqueousSolution, sugarAdded: M.Mass)
    : (r: Result<AS.AqueousSolution>)
    ensures r.Err? ==> r.error == IllegalPropertyValue
    ensures r.Ok? <==> FinalSpecificGravity(originalSolution, sugarAdded.grams).Ok?
    ensures r.Ok? ==> r.value.specificGravity == FinalSpecificGravity(originalSolution, sugarAdded.grams).value
  {
    var added := sugarAdded.grams;
    match FinalSpecificGravity(originalSolution, added)
    case Err(e) => Err(e)
    case Ok(finalSpecificGravity) =>
      var finalVolumeOfOriginalLiterInLiters := ExpansionRatio(originalSolution, added, finalSpecificGravity);
      var finalSugarConcentration := Diluted(MC.GramsPerLiter(originalSolution.sugar) + added, finalVolumeOfOriginalLiterInLiters);
      var finalSolidsConcentration := Diluted(MC.GramsPerLiter(originalSolution.solids) + added, finalVolumeOfOriginalLiterInLiters);
      var finalVolume := Expanded(originalSolution.volume, finalVolumeOfOriginalLiterInLiters);
      Ok(AS.AqueousSolution(finalSpecificGravity, finalSolidsConcentration, finalSugarConcentration, finalVolume))
  }

  /**
   * Chaptalization conserves sugar, solids and mass: the amended batch holds the original
   * sugar and solids plus what was added, and weighs what the original batch weighed plus
   * the added sugar.
   */
  lemma ChaptalizationConserves(o: AS.AqueousSolution, sugarAdded: M.Mass)
    requires GetChaptalizationResult(o, sugarAdded).Ok?
    ensures SugarInBatch(GetChaptalizationResult(o, sugarAdded).value)
            == SugarInBatch(o) + AddedToBatch(o.volume, sugarAdded.grams)
    ensures SolidsInBatch(GetChaptalizationResult(o, sugarAdded).value)
            == SolidsInBatch(o) + AddedToBatch(o.volume, sugarAdded.grams)
    ensures MassOfBatch(GetChaptalizationResult(o, sugarAdded).value)
            == MassOfBatch(o) + AddedToBatch(o.volume, sugarAdded.grams)
  {
    var a := GetChaptalizationResult(o, sugarAdded).value;
    AmendingKeepsSugarAndSolids(o, sugarAdded.grams, ExpansionRatio(o, sugarAdded.grams, a.specificGravity), a);
    ExpansionKeepsMass(o, sugarAdded.grams, a);
  }

  /**
   * The potential alcohol, in percent by volume, of the solution after adding `grams` of sugar
   * to each liter: a negative mass is an illegal argument from the mass constructor, and the
   * Brix calculator and the alcohol constructor refuse too much sugar as illegal property values.
   */
  function AbvAfterAdding(s: AS.AqueousSolution, grams: real): (r: Result<real>)
    ensures grams < 0.0 ==> r == Err(IllegalArgument)
    ensures grams >= 0.0 && r.Err? ==> r.error == IllegalPropertyValue
    ensures r.Ok? ==> 0.0 <= r.value <= 100.0
  {
    var added :- M.New(Finite(grams), Some(Grams));
    var amendedSolution :- GetChaptalizationResult(s, added);
    var abv :- PotentialAlcoholCalculator.GetPotentialAlcohol(amendedSolution.sugar);
    Ok(abv.value)
  }

  /**
   * The potential alcohol after adding each amount of sugar per liter, as a function value:
   * the bisection below is stated over any such function and applied to this one.
   */
  function AbvAfterAddingTo(s: AS.AqueousSolution): real -> Result<real>
  {
    grams => AbvAfterAdding(s, grams)
  }

  /** Every failure of `abvAfter` on a non-negative amount is an illegal property value. */
  ghost predicate PropertyErrorsOnly(abvAfter: real -> Result<real>)
  {
    forall grams :: grams >= 0.0 && abvAfter(grams).Err? ==> abvAfter(grams).error == IllegalPropertyValue
  }

  /** Amending a solution fails on a non-negative amount only by refusing a property value. */
  lemma AbvAfterAddingPropertyErrorsOnly(s: AS.AqueousSolution)
    ensures PropertyErrorsOnly(AbvAfterAddingTo(s))
  {
    forall grams | grams >= 0.0 && AbvAfterAddingTo(s)(grams).Err?
      ensures AbvAfterAddingTo(s)(grams).error == IllegalPropertyValue
    {
      assert AbvAfterAddingTo(s)(grams) == AbvAfterAdding(s, grams);
    }
  }

  /** Adding `grams` per liter leaves the solution short of the target alcohol. */
  predicate FallsShort(abvAfter: real -> Result<real>, targetAbv: ABV.PercentAlcoholByVolume, grams: real)
  {
    abvAfter(grams).Ok? && abvAfter(grams).value < targetAbv.value
  }

  /** Adding `grams` per liter reaches or passes the target alcohol. */
  predicate Reaches(abvAfter: real -> Result<real>, targetAbv: ABV.PercentAlcoholByVolume, grams: real)
  {
    abvAfter(grams).Ok? && abvAfter(grams).value >= targetAbv.value
  }

  /** The bracket the bisection ends with, in grams per liter. */
  datatype Bounds = Bounds(low: real, high: real)
  {
    /** The middle of the bracket, where the search settles. */
    function Midpoint(): real
    {
      (high + low) / 2.0
    }
  }

  /** Halving a bracket wider than 0.01 lowers its width in hundredths, rounded down. */
  lemma HalvingShrinks(low: real, high: real)
    requires high - low > 0.01
    ensures 0 <= ((high - (high + low) / 2.0) * 100.0).Floor < ((high - low) * 100.0).Floor
    ensures 0 <= (((high + low) / 2.0 - low) * 100.0).Floor < ((high - low) * 100.0).Floor
  {
    var x := (high - low) * 100.0;
    assert (high - (high + low) / 2.0) * 100.0 == x / 2.0;
    assert ((high + low) / 2.0 - low) * 100.0 == x / 2.0;
    assert (x / 2.0).Floor < x.Floor by {
      if x < 2.0 {
        assert x.Floor == 1;
      }
    }
  }

  /**
   * The loop of `getAmountOfSugarToAdd`: while the bracket is wider than 0.01 g/L, try its
   * midpoint; a midpoint that falls short of the target becomes the low end, any other the
   * high end. The bracket ends no wider than 0.01 g/L (and, when it started wider, wider than
   * 0.005 g/L), inside the starting bracket, with each end either where it started or on its
   * side of the target. From a non-negative start, when `abvAfter` fails only by refusing
   * property values, so does the search.
   */
  function Bisect(abvAfter: real -> Result<real>, targetAbv: ABV.PercentAlcoholByVolume, low: real, high: real)
    : (r: Result<Bounds>)
    ensures r.Ok? ==> r.value.high - r.value.low <= 0.01
    ensures r.Ok? && low <= high ==> low <= r.value.low <= r.value.high <= high
    ensures r.Ok? && high - low > 0.01 ==> r.value.high - r.value.low > 0.005
    ensures r.Ok? ==> r.value.low == low || FallsShort(abvAfter, targetAbv, r.value.low)
    ensures r.Ok? ==> r.value.high == high || Reaches(abvAfter, targetAbv, r.value.high)
    ensures r.Err? && low >= 0.0 && PropertyErrorsOnly(abvAfter) ==> r.error == IllegalPropertyValue
    decreases ((high - low) * 100.0).Floor
  {
    if CompareReals(high - low, 0.01) <= 0 then Ok(Bounds(low, high))
    else
      var meanAddedSugar := (high + low) / 2.0;
      HalvingShrinks(low, high);
      var meanAbv :- abvAfter(meanAddedSugar);
      if CompareReals(meanAbv, targetAbv.value) < 0 then Bisect(abvAfter, targetAbv, meanAddedSugar, high)
      else Bisect(abvAfter, targetAbv, low, meanAddedSugar)
  }

  /** One round of the bisection: a bracket wider than 0.01 g/L is narrowed by testing its midpoint. */
  lemma BisectStep(abvAfter: real -> Result<real>, targetAbv: ABV.PercentAlcoholByVolume, low: real, high: real)
    requires high - low > 0.01
    ensures var mean := (high + low) / 2.0;
      Bisect(abvAfter, targetAbv, low, high)
      == match abvAfter(mean)
         case Err(e) => Err(e)
         case Ok(abv) =>
           if abv < targetAbv.value then Bisect(abvAfter, targetAbv, mean, high) else Bisect(abvAfter, targetAbv, low, mean)
  {
  }

  /**
   * The sugar per liter that would reach `targetAbv` if adding sugar did not change the
   * volume: the target's sugar concentration less the solution's. It underestimates, so the
   * search starts from it and from half as much again.
   */
  function NaiveDeficit(s: AS.AqueousSolution, targetAbv: ABV.PercentAlcoholByVolume): real
  {
    MC.GramsPerLiter(PotentialAlcoholCalculator.GetSugarConcentration(targetAbv)) - MC.GramsPerLiter(s.sugar)
  }

  /** A solution whose potential alcohol is below the target needs more sugar per liter than it has. */
  lemma NaiveDeficitPositive(s: AS.AqueousSolution, targetAbv: ABV.PercentAlcoholByVolume)
    requires PotentialAlcoholCalculator.GetPotentialAlcohol(s.sugar).Ok?
    requires PotentialAlcoholCalculator.GetPotentialAlcohol(s.sugar).value.value < targetAbv.value
    ensures NaiveDeficit(s, targetAbv) > 0.0
  {
  }

  /** The solution's volume in liters. */
  function LitersOf(s: AS.AqueousSolution): (l: real)
    ensures l == s.volume.milliliters / 1000.0
  {
    V.GetValue(s.volume, Some(Liters)).value
  }

  /** `perLiter` grams for each liter of `s`, as a mass; a negative amount is an illegal argument. */
  function ForWholeBatch(s: AS.AqueousSolution, perLiter: real): (r: Result<M.Mass>)
    ensures r.Ok? <==> perLiter >= 0.0 || s.volume.milliliters == 0.0
    ensures r.Err? ==> r.error == IllegalArgument
  {
    M.New(Finite(perLiter * LitersOf(s)), Some(Grams))
  }

  /** The mass `ForWholeBatch` returns is `perLiter` grams for each liter of `s`. */
  lemma ForWholeBatchGrams(s: AS.AqueousSolution, perLiter: real)
    requires ForWholeBatch(s, perLiter).Ok?
    ensures ForWholeBatch(s, perLiter).value.grams == perLiter * LitersOf(s)
  {
  }

  /**
   * The bisection's answer from the naive deficit `naive` (grams per liter): the search
   * brackets [`naive`, 1.5 `naive`], and the midpoint of the final bracket is scaled to the
   * liters of solution. From a non-negative deficit, when `abvAfter` fails only by refusing
   * property values, so does this.
   */
  function BisectedSugar(s: AS.AqueousSolution, abvAfter: real -> Result<real>, targetAbv: ABV.PercentAlcoholByVolume, naive: real)
    : (r: Result<M.Mass>)
    ensures naive >= 0.0 && PropertyErrorsOnly(abvAfter) && r.Err? ==> r.error == IllegalPropertyValue
  {
    match Bisect(abvAfter, targetAbv, 1.0 * naive, 1.5 * naive)
    case Err(e) => Err(e)
    case Ok(bounds) => ForWholeBatch(s, bounds.Midpoint())
  }

  /** `BisectedSugar` once the outcome of its bisection is known. */
  lemma BisectedSugarOf(s: AS.AqueousSolution, abvAfter: real -> Result<real>, targetAbv: ABV.PercentAlcoholByVolume,
                        naive: real, bracket: Result<Bounds>)
    requires bracket == Bisect(abvAfter, targetAbv, 1.0 * naive, 1.5 * naive)
    ensures bracket.Err? ==> BisectedSugar(s, abvAfter, targetAbv, naive) == Err(bracket.error)
    ensures bracket.Ok? ==> BisectedSugar(s, abvAfter, targetAbv, naive) == ForWholeBatch(s, bracket.value.Midpoint())
  {
  }

  /** The bisection from a deficit `naive` settles between `naive` and 1.5 `naive` grams per liter of solution. */
  lemma BisectedSugarWithinBracket(s: AS.AqueousSolution, abvAfter: real -> Result<real>,
                                   targetAbv: ABV.PercentAlcoholByVolume, naive: real)
    requires naive >= 0.0 && BisectedSugar(s, abvAfter, targetAbv, naive).Ok?
    ensures naive * LitersOf(s) <= BisectedSugar(s, abvAfter, targetAbv, naive).value.grams <= 1.5 * naive * LitersOf(s)
  {
    var bracket := Bisect(abvAfter, targetAbv, 1.0 * naive, 1.5 * naive);
    BisectedSugarOf(s, abvAfter, targetAbv, naive, bracket);
    ForWholeBatchWithinBracket(s, naive, bracket.value.Midpoint());
  }

  /** `perLiter` within [`naive`, 1.5 `naive`] gives a batch amount within the scaled bracket. */
  lemma ForWholeBatchWithinBracket(s: AS.AqueousSolution, naive: real, perLiter: real)
    requires naive <= perLiter <= 1.5 * naive && ForWholeBatch(s, perLiter).Ok?
    ensures naive * LitersOf(s) <= ForWholeBatch(s, perLiter).value.grams <= 1.5 * naive * LitersOf(s)
  {
    ForWholeBatchGrams(s, perLiter);
    ScaleWithinBracket(naive, perLiter, LitersOf(s), ForWholeBatch(s, perLiter).value.grams);
  }

  /** An amount per liter within [`naive`, 1.5 `naive`], scaled by non-negative liters, stays within the scaled bracket. */
  lemma ScaleWithinBracket(naive: real, perLiter: real, liters: real, amount: real)
    requires naive <= perLiter <= 1.5 * naive && liters >= 0.0 && amount == perLiter * liters
    ensures naive * liters <= amount <= 1.5 * naive * liters
  {
    assert (perLiter - naive) * liters >= 0.0;
    assert (1.5 * naive - perLiter) * liters >= 0.0;
  }

  /**
   * What `getAmountOfSugarToAdd` computes for a given solution and target: a gravity below
   * 1.035 or a target above 15 % is an illegal property value; a solution whose potential
   * alcohol already compares at or above the target needs nothing; otherwise the bisection's
   * answer.
   */
  function SugarToAdd(s: AS.AqueousSolution, targetAbv: ABV.PercentAlcoholByVolume): (r: Result<M.Mass>)
    ensures s.specificGravity.value < MinimumSpecificGravity ==> r == Err(IllegalPropertyValue)
    ensures targetAbv.value > MaximumTargetAbv ==> r == Err(IllegalPropertyValue)
    ensures r.Err? ==> r.error == IllegalPropertyValue
  {
    if CompareReals(s.specificGravity.value, MinimumSpecificGravity) < 0 then Err(IllegalPropertyValue)
    else if CompareReals(MaximumTargetAbv, targetAbv.value) < 0 then Err(IllegalPropertyValue)
    else
      var current :- PotentialAlcoholCalculator.GetPotentialAlcohol(s.sugar);
      if ABV.CompareTo(current, targetAbv) >= 0 then M.New(Finite(0.0), Some(Grams))
      else
        NaiveDeficitPositive(s, targetAbv);
        AbvAfterAddingPropertyErrorsOnly(s);
        BisectedSugar(s, AbvAfterAddingTo(s), targetAbv, NaiveDeficit(s, targetAbv))
  }

  /**
   * A solution whose potential alcohol already reaches the target, compared at the hundredth of a
   * percent, needs no sugar: so does one that falls short by less than that resolution.
   */
  lemma EnoughAlreadyNeedsNone(s: AS.AqueousSolution, targetAbv: ABV.PercentAlcoholByVolume)
    requires s.specificGravity.value >= MinimumSpecificGravity && targetAbv.value <= MaximumTargetAbv
    requires PotentialAlcoholCalculator.GetPotentialAlcohol(s.sugar).Ok?
    requires ABV.CompareTo(PotentialAlcoholCalculator.GetPotentialAlcohol(s.sugar).value, targetAbv) >= 0
    ensures SugarToAdd(s, targetAbv).Ok? && SugarToAdd(s, targetAbv).value.grams == 0.0
  {
  }

  /** Past the guards, a sugar concentration the alcohol calculator refuses fails the same way. */
  lemma PotentialAlcoholRefused(s: AS.AqueousSolution, targetAbv: ABV.PercentAlcoholByVolume)
    requires s.specificGravity.value >= MinimumSpecificGravity && targetAbv.value <= MaximumTargetAbv
    requires PotentialAlcoholCalculator.GetPotentialAlcohol(s.sugar).Err?
    ensures SugarToAdd(s, targetAbv) == Err(PotentialAlcoholCalculator.GetPotentialAlcohol(s.sugar).error)
  {
  }

  /**
   * Past the guards, a solution short of the target has a positive naive deficit and gets the
   * bisection's answer from it (which `BisectedSugarWithinBracket` bounds).
   */
  lemma SugarToAddBisects(s: AS.AqueousSolution, targetAbv: ABV.PercentAlcoholByVolume)
    requires s.specificGravity.value >= MinimumSpecificGravity && targetAbv.value <= MaximumTargetAbv
    requires PotentialAlcoholCalculator.GetPotentialAlcohol(s.sugar).Ok?
    requires ABV.CompareTo(PotentialAlcoholCalculator.GetPotentialAlcohol(s.sugar).value, targetAbv) < 0
    ensures NaiveDeficit(s, targetAbv) > 0.0
    ensures SugarToAdd(s, targetAbv) == BisectedSugar(s, AbvAfterAddingTo(s), targetAbv, NaiveDeficit(s, targetAbv))
  {
    NaiveDeficitPositive(s, targetAbv);
  }

  /**
   * The potential alcohol after amending depends on the solution's gravity, sugar and solids,
   * never on how much of it there is: amending a whole batch is amending each of its liters.
   */
  lemma AbvAfterAddingIgnoresVolume(s: AS.AqueousSolution, volume: V.Volume, grams: real)
    ensures AbvAfterAdding(s, grams) == AbvAfterAdding(s.(volume := volume), grams)
  {
    var added := M.New(Finite(grams), Some(Grams));
    if added.Ok? {
      ChaptalizationIgnoresVolume(s, volume, added.value);
    }
  }

  /** Amending two solutions that differ only in volume succeeds for both or neither, with the same sugar. */
  lemma ChaptalizationIgnoresVolume(s: AS.AqueousSolution, volume: V.Volume, sugarAdded: M.Mass)
    ensures GetChaptalizationResult(s, sugarAdded).Ok? <==> GetChaptalizationResult(s.(volume := volume), sugarAdded).Ok?
    ensures GetChaptalizationResult(s, sugarAdded).Ok? ==>
              GetChaptalizationResult(s, sugarAdded).value.sugar
              == GetChaptalizationResult(s.(volume := volume), sugarAdded).value.sugar
  {
    var other := s.(volume := volume);
    assert FinalSpecificGravity(s, sugarAdded.grams) == FinalSpecificGravity(other, sugarAdded.grams);
  }

  /** Two trial functions that agree everywhere lead the bisection to the same bracket. */
  lemma {:induction false} BisectSameTrials(abvAfter: real -> Result<real>, other: real -> Result<real>,
                                            targetAbv: ABV.PercentAlcoholByVolume, low: real, high: real)
    requires forall grams :: abvAfter(grams) == other(grams)
    ensures Bisect(abvAfter, targetAbv, low, high) == Bisect(other, targetAbv, low, high)
    decreases ((high - low) * 100.0).Floor
  {
    if high - low > 0.01 {
      var mean := (high + low) / 2.0;
      HalvingShrinks(low, high);
      BisectStep(abvAfter, targetAbv, low, high);
      BisectStep(other, targetAbv, low, high);
      assert abvAfter(mean) == other(mean);
      if abvAfter(mean).Ok? && abvAfter(mean).value < targetAbv.value {
        BisectSameTrials(abvAfter, other, targetAbv, mean, high);
      } else if abvAfter(mean).Ok? {
        BisectSameTrials(abvAfter, other, targetAbv, low, mean);
      }
    }
  }

  /**
   * The sugar to add scales with the batch: two solutions that differ only in volume succeed or
   * fail together, and when they succeed they get the same grams per liter, so the amounts are
   * in the ratio of their volumes.
   */
  lemma SugarToAddScalesWithVolume(s: AS.AqueousSolution, volume: V.Volume, targetAbv: ABV.PercentAlcoholByVolume)
    ensures SugarToAdd(s, targetAbv).Ok? <==> SugarToAdd(s.(volume := volume), targetAbv).Ok?
    ensures SugarToAdd(s, targetAbv).Ok? ==>
              InVolumeRatio(SugarToAdd(s, targetAbv).value.grams, LitersOf(s),
                            SugarToAdd(s.(volume := volume), targetAbv).value.grams, LitersOf(s.(volume := volume)))
  {
    var other := s.(volume := volume);
    var current := PotentialAlcoholCalculator.GetPotentialAlcohol(s.sugar);
    if s.specificGravity.value < MinimumSpecificGravity || targetAbv.value > MaximumTargetAbv {
    } else if current.Err? {
      PotentialAlcoholRefused(s, targetAbv);
      PotentialAlcoholRefused(other, targetAbv);
    } else if ABV.CompareTo(current.value, targetAbv) >= 0 {
      EnoughAlreadyNeedsNone(s, targetAbv);
      EnoughAlreadyNeedsNone(other, targetAbv);
    } else {
      BisectionScalesWithVolume(s, volume, targetAbv);
    }
  }

  /** `SugarToAddScalesWithVolume` for a solution short of the target, which the bisection answers. */
  lemma BisectionScalesWithVolume(s: AS.AqueousSolution, volume: V.Volume, targetAbv: ABV.PercentAlcoholByVolume)
    requires s.specificGravity.value >= MinimumSpecificGravity && targetAbv.value <= MaximumTargetAbv
    requires PotentialAlcoholCalculator.GetPotentialAlcohol(s.sugar).Ok?
    requires ABV.CompareTo(PotentialAlcoholCalculator.GetPotentialAlcohol(s.sugar).value, targetAbv) < 0
    ensures SugarToAdd(s, targetAbv).Ok? <==> SugarToAdd(s.(volume := volume), targetAbv).Ok?
    ensures SugarToAdd(s, targetAbv).Ok? ==>
              InVolumeRatio(SugarToAdd(s, targetAbv).value.grams, LitersOf(s),
                            SugarToAdd(s.(volume := volume), targetAbv).value.grams, LitersOf(s.(volume := volume)))
  {
    var other := s.(volume := volume);
    SugarToAddBisects(s, targetAbv);
    SugarToAddBisects(other, targetAbv);
    assert NaiveDeficit(other, targetAbv) == NaiveDeficit(s, targetAbv);
    forall grams ensures AbvAfterAddingTo(s)(grams) == AbvAfterAddingTo(other)(grams) {
      AbvAfterAddingIgnoresVolume(s, volume, grams);
    }
    var naive := NaiveDeficit(s, targetAbv);
    BisectedSugarScalesWithVolume(s, volume, AbvAfterAddingTo(s), AbvAfterAddingTo(other), targetAbv, naive);
    assert SugarToAdd(other, targetAbv) == BisectedSugar(other, AbvAfterAddingTo(other), targetAbv, naive);
  }

  /**
   * From a positive deficit, two solutions that differ only in volume, searched with trial
   * functions that agree everywhere, get the same bracket: both fail or both get its midpoint
   * per liter, so their amounts are in the ratio of their volumes.
   */
  lemma BisectedSugarScalesWithVolume(s: AS.AqueousSolution, volume: V.Volume, abvAfter: real -> Result<real>,
                                      otherAbvAfter: real -> Result<real>, targetAbv: ABV.PercentAlcoholByVolume,
                                      naive: real)
    requires naive > 0.0 && forall grams :: abvAfter(grams) == otherAbvAfter(grams)
    ensures BisectedSugar(s, abvAfter, targetAbv, naive).Ok?
            <==> BisectedSugar(s.(volume := volume), otherAbvAfter, targetAbv, naive).Ok?
    ensures BisectedSugar(s, abvAfter, targetAbv, naive).Ok? ==>
              InVolumeRatio(BisectedSugar(s, abvAfter, targetAbv, naive).value.grams, LitersOf(s),
                            BisectedSugar(s.(volume := volume), otherAbvAfter, targetAbv, naive).value.grams,
                            LitersOf(s.(volume := volume)))
  {
    var other := s.(volume := volume);
    BisectSameTrials(abvAfter, otherAbvAfter, targetAbv, 1.0 * naive, 1.5 * naive);
    var bracket := Bisect(abvAfter, targetAbv, 1.0 * naive, 1.5 * naive);
    BisectedSugarOf(s, abvAfter, targetAbv, naive, bracket);
    BisectedSugarOf(other, otherAbvAfter, targetAbv, naive, bracket);
    if bracket.Ok? {
      assert bracket.value.Midpoint() > 0.0;
      ForWholeBatchScalesWithVolume(s, volume, bracket.value.Midpoint());
    }
  }

  /** A positive amount per liter scales to two volumes as amounts in the ratio of the volumes. */
  lemma ForWholeBatchScalesWithVolume(s: AS.AqueousSolution, volume: V.Volume, perLiter: real)
    requires perLiter > 0.0
    ensures ForWholeBatch(s, perLiter).Ok? && ForWholeBatch(s.(volume := volume), perLiter).Ok?
    ensures InVolumeRatio(ForWholeBatch(s, perLiter).value.grams, LitersOf(s),
                          ForWholeBatch(s.(volume := volume), perLiter).value.grams, LitersOf(s.(volume := volume)))
  {
    var other := s.(volume := volume);
    ForWholeBatchGrams(s, perLiter);
    ForWholeBatchGrams(other, perLiter);
    CrossScaled(perLiter, LitersOf(s), LitersOf(other), ForWholeBatch(s, perLiter).value.grams,
                ForWholeBatch(other, perLiter).value.grams);
  }

  /** `amount` in `liters` and `otherAmount` in `otherLiters` are in the ratio of the volumes. */
  predicate InVolumeRatio(amount: real, liters: real, otherAmount: real, otherLiters: real)
  {
    amount * otherLiters == otherAmount * liters
  }

  /** The same amount per liter, scaled to two volumes, gives amounts in the ratio of the volumes. */
  lemma CrossScaled(perLiter: real, liters: real, otherLiters: real, amount: real, otherAmount: real)
    requires amount == perLiter * liters && otherAmount == perLiter * otherLiters
    ensures InVolumeRatio(amount, liters, otherAmount, otherLiters)
  {
  }

  /**
   * The loop of `getAmountOfSugarToAdd`, from the bracket [`low`, `high`]: it computes what
   * `Bisect` specifies, whose properties are proved there.
   */
  method Narrow(abvAfter: real -> Result<real>, targetAbv: ABV.PercentAlcoholByVolume, low: real, high: real)
    returns (r: Result<Bounds>)
    ensures r == Bisect(abvAfter, targetAbv, low, high)
  {
    var lowBound, highBound := low, high;
    while CompareReals(highBound - lowBound, 0.01) > 0
      invariant Bisect(abvAfter, targetAbv, lowBound, highBound) == Bisect(abvAfter, targetAbv, low, high)
      decreases ((highBound - lowBound) * 100.0).Floor
    {
      var meanAddedSugar := (highBound + lowBound) / 2.0;
      HalvingShrinks(lowBound, highBound);
      BisectStep(abvAfter, targetAbv, lowBound, highBound);
      var meanAbv :- abvAfter(meanAddedSugar);
      if CompareReals(meanAbv, targetAbv.value) < 0 {
        lowBound := meanAddedSugar;
      } else {
        highBound := meanAddedSugar;
      }
    }
    return Ok(Bounds(lowBound, highBound));
  }

  /**
   * The part of `getAmountOfSugarToAdd` past its guards: the naive deficit per liter brackets
   * the search, the loop narrows the bracket, and the midpoint is scaled to the whole batch.
   */
  method AmountByBisection(s: AS.AqueousSolution, abvAfter: real -> Result<real>, targetAbv: ABV.PercentAlcoholByVolume,
                           naiveSugarDeficitPerLiter: real)
    returns (r: Result<M.Mass>)
    ensures r == BisectedSugar(s, abvAfter, targetAbv, naiveSugarDeficitPerLiter)
  {
    var bracket := Narrow(abvAfter, targetAbv, 1.0 * naiveSugarDeficitPerLiter, 1.5 * naiveSugarDeficitPerLiter);
    BisectedSugarOf(s, abvAfter, targetAbv, naiveSugarDeficitPerLiter, bracket);
    if bracket.Err? {
      return Err(bracket.error);
    }
    var sugarAdditionPerLiter := bracket.value.Midpoint();
    r := ForWholeBatch(s, sugarAdditionPerLiter);
  }

  /**
   * `getAmountOfSugarToAdd`: missing arguments are illegal; otherwise the method runs the
   * bisection loop and returns exactly what `SugarToAdd` specifies.
   */
  method GetAmountOfSugarToAdd(solution: Option<AS.AqueousSolution>, targetAbv: Option<ABV.PercentAlcoholByVolume>)
    returns (r: Result<M.Mass>)
    ensures solution.None? || targetAbv.None? ==> r == Err(IllegalArgument)
    ensures solution.Some? && targetAbv.Some? ==> r == SugarToAdd(solution.value, targetAbv.value)
  {
    if targetAbv.None? || solution.None? {
      return Err(IllegalArgument);
    }
    var s, t := solution.value, targetAbv.value;
    if CompareReals(s.specificGravity.value, MinimumSpecificGravity) < 0 {
      return Err(IllegalPropertyValue);
    }
    if CompareReals(MaximumTargetAbv, t.value) < 0 {
      return Err(IllegalPropertyValue);
    }
    var current :- PotentialAlcoholCalculator.GetPotentialAlcohol(s.sugar);
    if ABV.CompareTo(current, t) >= 0 {
      return M.New(Finite(0.0), Some(Grams));
    }
    SugarToAddBisects(s, t);
    var currentSugarPerLiter := MC.GramsPerLiter(s.sugar);
    var targetSugarPerLiter := MC.GramsPerLiter(PotentialAlcoholCalculator.GetSugarConcentration(t));
    var naiveSugarDeficitPerLiter := targetSugarPerLiter - currentSugarPerLiter;
    assert naiveSugarDeficitPerLiter == NaiveDeficit(s, t);
    r := AmountByBisection(s, AbvAfterAddingTo(s), t, naiveSugarDeficitPerLiter);
  }
}
