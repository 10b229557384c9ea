/**
 * The usual sweetness classifications of a cider, each a closed band of specific
 * gravity (src/main/java/com/ciderref/sdk/property/Sweetness.java).
 */
module Sweetness {
  import opened Wrappers
  import SG = SpecificGravity

  datatype Sweetness = Dry | OffDry | MediumDry | MediumSweet | Sweet

  /** `Sweetness.values()`: every classification, in declaration order. */
  const AllSweetnesses: seq<Sweetness> := [Dry, OffDry, MediumDry, MediumSweet, Sweet]

  /** The position of a classification in declaration order. */
  function Ordinal(s: Sweetness): nat
  {
    match s
    case Dry => 0
    case OffDry => 1
    case MediumDry => 2
    case MediumSweet => 3
    case Sweet => 4
  }

  /** `getDisplayName()`. */
  function DisplayName(s: Sweetness): string
  {
    match s
    case Dry => "Dry"
    case OffDry => "Off Dry"
    case MediumDry => "Medium Dry"
    case MediumSweet => "Medium Sweet"
    case Sweet => "Sweet"
  }

  /** No two classifications share a display name. */
  lemma DisplayNamesAreDistinct(s: Sweetness, t: Sweetness)
    requires DisplayName(s) == DisplayName(t)
    ensures s == t
  {
  }

  /**
   * `getMinimumSpecificGravity()`: below the band's maximum; only the driest band starts at the
   * lowest supported gravity.
   */
  function MinimumSpecificGravity(s: Sweetness): (r: SG.SpecificGravity)
    ensures r.value < MaximumSpecificGravity(s).value
    ensures s == Dry <==> r.value == SG.MinimumSupportedValue
  {
    match s
    case Dry => SG.SpecificGravityData(0.990)
    case OffDry => SG.SpecificGravityData(1.004)
    case MediumDry => SG.SpecificGravityData(1.009)
    case MediumSweet => SG.SpecificGravityData(1.015)
    case Sweet => SG.SpecificGravityData(1.020)
  }

  /** `getMaximumSpecificGravity()`: only the sweetest band reaches the highest supported gravity. */
  function MaximumSpecificGravity(s: Sweetness): (r: SG.SpecificGravity)
    ensures s == Sweet <==> r.value == SG.MaximumSupportedValue
  {
    match s
    case Dry => SG.SpecificGravityData(1.004)
    case OffDry => SG.SpecificGravityData(1.009)
    case MediumDry => SG.SpecificGravityData(1.015)
    case MediumSweet => SG.SpecificGravityData(1.020)
    case Sweet => SG.SpecificGravityData(1.100)
  }

  /** Every band but the driest starts where the one before it in declaration order ends. */
  lemma BandsAdjoin(p: Sweetness, s: Sweetness)
    requires Ordinal(p) + 1 == Ordinal(s)
    ensures MaximumSpecificGravity(p) == MinimumSpecificGravity(s)
  {
  }

  /** The test `allValuesOf` applies to each classification: the gravity lies in its closed band. */
  predicate Describes(s: Sweetness, sg: SG.SpecificGravity)
  {
    SG.CompareTo(sg, MinimumSpecificGravity(s)) >= 0 && SG.CompareTo(sg, MaximumSpecificGravity(s)) <= 0
  }

  /** `Describes` is membership of the closed band between the minimum and the maximum. */
  lemma DescribesIsBandMembership(s: Sweetness, sg: SG.SpecificGravity)
    ensures Describes(s, sg) <==> MinimumSpecificGravity(s).value <= sg.value <= MaximumSpecificGravity(s).value
  {
  }

  /** The classifications of `xs` that describe `sg`, in the order of `xs`. */
  ghost function Matching(xs: seq<Sweetness>, sg: SG.SpecificGravity): seq<Sweetness>
  {
    if |xs| == 0 then []
    else Matching(xs[..|xs| - 1], sg) + (if Describes(xs[|xs| - 1], sg) then [xs[|xs| - 1]] else [])
  }

  /**
   * `allValuesOf`: a missing gravity is an illegal argument; otherwise the loop appends,
   * in declaration order, every classification whose band holds the gravity.
   */
  method AllValuesOf(specificGravity: Option<SG.SpecificGravity>) returns (r: Result<seq<Sweetness>>)
    ensures specificGravity.None? <==> r == Err(IllegalArgument)
    ensures r.Ok? ==> r.value == Matching(AllSweetnesses, specificGravity.value)
  {
    if specificGravity.None? {
      return Err(IllegalArgument);
    }
    var sg := specificGravity.value;
    var sweetnesses: seq<Sweetness> := [];
    for i := 0 to |AllSweetnesses|
      invariant sweetnesses == Matching(AllSweetnesses[..i], sg)
    {
      var sweetness := AllSweetnesses[i];
      assert AllSweetnesses[..i + 1][..i] == AllSweetnesses[..i];
      if SG.CompareTo(sg, MinimumSpecificGravity(sweetness)) >= 0
        && SG.CompareTo(sg, MaximumSpecificGravity(sweetness)) <= 0
      {
        sweetnesses := sweetnesses + [sweetness];
      }
    }
    assert AllSweetnesses[..|AllSweetnesses|] == AllSweetnesses;
    return Ok(sweetnesses);
  }

  /** The result holds exactly the classifications of `xs` that describe the gravity. */
  lemma {:induction false} MatchingMembership(xs: seq<Sweetness>, sg: SG.SpecificGravity, s: Sweetness)
    ensures s in Matching(xs, sg) <==> s in xs && Describes(s, sg)
  {
    if |xs| > 0 {
      var init := xs[..|xs| - 1];
      MatchingMembership(init, sg, s);
      assert xs == init + [xs[|xs| - 1]];
    }
  }

  /** `xs` lists classifications in strictly increasing declaration order. */
  predicate InDeclarationOrder(xs: seq<Sweetness>)
  {
    forall i, j :: 0 <= i < j < |xs| ==> Ordinal(xs[i]) < Ordinal(xs[j])
  }

  /** Filtering keeps declaration order and only ever drops entries. */
  lemma {:induction false} MatchingKeepsOrder(xs: seq<Sweetness>, sg: SG.SpecificGravity)
    requires InDeclarationOrder(xs)
    ensures InDeclarationOrder(Matching(xs, sg))
    ensures |Matching(xs, sg)| <= |xs|
  {
    if |xs| > 0 {
      var init := xs[..|xs| - 1];
      var last := xs[|xs| - 1];
      MatchingKeepsOrder(init, sg);
      var m := Matching(init, sg);
      forall s | s in m
        ensures Ordinal(s) < Ordinal(last)
      {
        MatchingMembership(init, sg, s);
        var k :| 0 <= k < |init| && init[k] == s;
        assert xs[k] == s;
      }
    }
  }

  /** A list in strictly increasing declaration order has no duplicates. */
  lemma OrderedHasNoDuplicates(xs: seq<Sweetness>)
    requires InDeclarationOrder(xs)
    ensures forall i, j :: 0 <= i < j < |xs| ==> xs[i] != xs[j]
  {
  }

  /**
   * The answer of `allValuesOf` for any gravity: in declaration order, without
   * duplicates, at most five entries, and a classification is listed exactly when its
   * band holds the gravity.
   */
  lemma AllValuesOfShape(sg: SG.SpecificGravity)
    ensures InDeclarationOrder(Matching(AllSweetnesses, sg))
    ensures forall i, j :: 0 <= i < j < |Matching(AllSweetnesses, sg)| ==>
      Matching(AllSweetnesses, sg)[i] != Matching(AllSweetnesses, sg)[j]
    ensures |Matching(AllSweetnesses, sg)| <= 5
    ensures forall s :: s in Matching(AllSweetnesses, sg) <==>
      MinimumSpecificGravity(s).value <= sg.value <= MaximumSpecificGravity(s).value
  {
    MatchingKeepsOrder(AllSweetnesses, sg);
    OrderedHasNoDuplicates(Matching(AllSweetnesses, sg));
    forall s
      ensures s in Matching(AllSweetnesses, sg) <==>
        MinimumSpecificGravity(s).value <= sg.value <= MaximumSpecificGravity(s).value
    {
      MatchingMembership(AllSweetnesses, sg, s);
      assert s == AllSweetnesses[Ordinal(s)];
    }
  }

  /** The bands tile the supported range, so every gravity has at least one classification. */
  lemma EveryGravityIsClassified(sg: SG.SpecificGravity)
    ensures |Matching(AllSweetnesses, sg)| >= 1
  {
    var s := if sg.value <= 1.004 then Dry
      else if sg.value <= 1.009 then OffDry
      else if sg.value <= 1.015 then MediumDry
      else if sg.value <= 1.020 then MediumSweet
      else Sweet;
    AllValuesOfShape(sg);
    assert s in Matching(AllSweetnesses, sg);
  }

  /** `[s]` when `s` describes the gravity, otherwise nothing. */
  function IfDescribes(s: Sweetness, sg: SG.SpecificGravity): seq<Sweetness>
  {
    if Describes(s, sg) then [s] else []
  }

  /** The filter over all classifications, unfolded one classification at a time. */
  lemma {:induction false} MatchingAllUnfolded(sg: SG.SpecificGravity)
    ensures Matching(AllSweetnesses, sg) == IfDescribes(Dry, sg) + IfDescribes(OffDry, sg)
      + IfDescribes(MediumDry, sg) + IfDescribes(MediumSweet, sg) + IfDescribes(Sweet, sg)
  {
    var a := AllSweetnesses;
    var a4, a3, a2, a1 := a[..4], a[..4][..3], a[..4][..3][..2], a[..4][..3][..2][..1];
    assert a4 == [Dry, OffDry, MediumDry, MediumSweet] && a3 == [Dry, OffDry, MediumDry];
    assert a2 == [Dry, OffDry] && a1 == [Dry] && a1[..0] == [];
    assert Matching(a, sg) == Matching(a4, sg) + IfDescribes(Sweet, sg);
    assert Matching(a4, sg) == Matching(a3, sg) + IfDescribes(MediumSweet, sg);
    assert Matching(a3, sg) == Matching(a2, sg) + IfDescribes(MediumDry, sg);
    assert Matching(a2, sg) == Matching(a1, sg) + IfDescribes(OffDry, sg);
    assert Matching(a1, sg) == IfDescribes(Dry, sg);
  }

  /** Each shared boundary is classified by exactly the two bands that meet there. */
  lemma SharedBoundaries()
    ensures Matching(AllSweetnesses, SG.SpecificGravityData(1.004)) == [Dry, OffDry]
    ensures Matching(AllSweetnesses, SG.SpecificGravityData(1.009)) == [OffDry, MediumDry]
    ensures Matching(AllSweetnesses, SG.SpecificGravityData(1.015)) == [MediumDry, MediumSweet]
    ensures Matching(AllSweetnesses, SG.SpecificGravityData(1.020)) == [MediumSweet, Sweet]
  {
    MatchingAllUnfolded(SG.SpecificGravityData(1.004));
    MatchingAllUnfolded(SG.SpecificGravityData(1.009));
    MatchingAllUnfolded(SG.SpecificGravityData(1.015));
    MatchingAllUnfolded(SG.SpecificGravityData(1.020));
  }

  /** A gravity strictly inside a band is classified by that band alone. */
  lemma InteriorsAreExclusive()
    ensures Matching(AllSweetnesses, SG.SpecificGravityData(1.000)) == [Dry]
    ensures Matching(AllSweetnesses, SG.SpecificGravityData(1.006)) == [OffDry]
    ensures Matching(AllSweetnesses, SG.SpecificGravityData(1.012)) == [MediumDry]
    ensures Matching(AllSweetnesses, SG.SpecificGravityData(1.018)) == [MediumSweet]
    ensures Matching(AllSweetnesses, SG.SpecificGravityData(1.050)) == [Sweet]
  {
    MatchingAllUnfolded(SG.SpecificGravityData(1.000));
    MatchingAllUnfolded(SG.SpecificGravityData(1.006));
    MatchingAllUnfolded(SG.SpecificGravityData(1.012));
    MatchingAllUnfolded(SG.SpecificGravityData(1.018));
    MatchingAllUnfolded(SG.SpecificGravityData(1.050));
  }
}
