/** `interpolate_styles`: normalise the blend weights, mix the contributors'
    coordinates, find the nearest catalog author, extract both vocabularies
    of the blended point and collect signature moves in proportion to the
    weights. */
module Interpolation {
  import opened StyleTypes
  import opened PyRound
  import opened Taxonomy
  import opened Distance
  import opened Vocabulary
  import opened Strings
  import opened WeightOrder
  import opened WeightedSums

  /** The weights of the spec, in order. */
  function Weights(spec: Items): (ws: seq<real>)
    ensures |ws| == |spec| && forall k :: 0 <= k < |spec| ==> ws[k] == spec[k].1
  {
    seq(|spec|, k requires 0 <= k < |spec| => spec[k].1)
  }

  /** `sum(blend_spec.values())` */
  function WeightSum(spec: Items): real
  {
    Sum(Weights(spec))
  }

  /** `{k: v / total_weight for k, v in blend_spec.items()}` */
  function Normalized(spec: Items): (n: Items)
    requires WeightSum(spec) > 0.0
    ensures |n| == |spec|
    ensures forall k :: 0 <= k < |spec| ==> n[k] == (spec[k].0, spec[k].1 / WeightSum(spec))
  {
    var total := WeightSum(spec);
    seq(|spec|, k requires 0 <= k < |spec| => (spec[k].0, spec[k].1 / total))
  }

  /** The normalised weights sum to 1. */
  lemma NormalizedSumIsOne(spec: Items)
    requires WeightSum(spec) > 0.0
    ensures WeightSum(Normalized(spec)) == 1.0
  {
    var ws := Weights(spec);
    assert Weights(Normalized(spec)) == DividedBy(ws, Sum(ws));
    NormalizedSum(ws);
  }

  /** Every id of the spec names a catalog author. */
  predicate AllKnown(spec: Items)
  {
    forall k :: 0 <= k < |spec| ==> spec[k].0 in CatalogKeys
  }

  /** The position of the first id that names no catalog author, or |spec|. */
  function FirstUnknown(spec: Items): (i: nat)
    ensures i <= |spec|
    ensures forall k :: 0 <= k < i ==> spec[k].0 in CatalogKeys
    ensures i < |spec| ==> spec[i].0 !in CatalogKeys
    ensures i == |spec| <==> AllKnown(spec)
  {
    if |spec| == 0 then 0
    else if spec[0].0 !in CatalogKeys then 0
    else 1 + FirstUnknown(spec[1..])
  }

  /** `get_coordinates(author_id)[p]` of a known author. */
  function Coordinate(id: string, d: Dim): (v: real)
    requires id in CatalogKeys
    ensures d in CatalogPoint(AuthorIndex(id)) && v == CatalogPoint(AuthorIndex(id))[d]
  {
    CatalogPointWellFormed(AuthorIndex(id));
    CatalogPoint(AuthorIndex(id))[d]
  }

  /** Each catalog coordinate lies in [0, 1] and has at most four decimals. */
  lemma CoordinateWellFormed(id: string, d: Dim)
    requires id in CatalogKeys
    ensures 0.0 <= Coordinate(id, d) <= 1.0 && OnGrid(Coordinate(id, d), 4)
  {
    CatalogPointWellFormed(AuthorIndex(id));
  }

  /** The contributors' coordinates on d, in order. */
  function Column(spec: Items, d: Dim): (cs: seq<real>)
    requires AllKnown(spec)
    ensures |cs| == |spec| && forall k :: 0 <= k < |spec| ==> cs[k] == Coordinate(spec[k].0, d)
  {
    seq(|spec|, k requires 0 <= k < |spec| => Coordinate(spec[k].0, d))
  }

  /** `val` after the first n contributors: the weighted sum of their coordinates on d. */
  function Mix(spec: Items, d: Dim, n: nat): real
    requires n <= |spec| && AllKnown(spec)
  {
    Dot(Column(spec, d), Weights(spec), n)
  }

  /** p is `blended`: on every dimension, the mix rounded to four decimals. */
  predicate IsBlendedPoint(p: Point, n: Items)
    requires AllKnown(n)
  {
    forall d: Dim :: d in p && p[d] == Round(Mix(n, d, |n|), 4)
  }

  /** The nested loop that fills `blended`, over PARAMETER_NAMES and then
      over the contributors. */
  method BlendCoordinates(n: Items) returns (blended: Point)
    requires AllKnown(n)
    ensures IsBlendedPoint(blended, n)
  {
    blended := map[];
    var i := 0;
    while i < |Dims|
      invariant 0 <= i <= |Dims|
      invariant forall d :: d in blended <==> Position(d) < i
      invariant forall d :: d in blended ==> blended[d] == Round(Mix(n, d, |n|), 4)
    {
      var p := Dims[i];
      PositionOfIndex(i);
      var val := DotAlong(Column(n, p), Weights(n));
      blended := blended[p := Round(val, 4)];
      i := i + 1;
    }
  }

  /** `Coordinate` reads what `get_coordinates` returns. */
  lemma CoordinateIsLookup(id: string, d: Dim)
    requires id in CatalogKeys
    ensures GetCoordinates(id).Ok? && d in GetCoordinates(id).value
    ensures GetCoordinates(id).value[d] == Coordinate(id, d)
  {
  }

  /** With a single contributor of positive weight the normalised weight
      is 1, so the blend reproduces that author's coordinates. */
  lemma SingleAuthorBlend(id: string, w: real, d: Dim)
    requires id in CatalogKeys && w > 0.0
    ensures WeightSum([(id, w)]) == w && AllKnown(Normalized([(id, w)]))
    ensures Round(Mix(Normalized([(id, w)]), d, 1), 4) == Coordinate(id, d)
  {
    SingleNormalized(id, w);
    SingleMix(id, d);
    CoordinateWellFormed(id, d);
    RoundOnGrid(Coordinate(id, d), 4);
  }

  lemma SingleNormalized(id: string, w: real)
    requires w > 0.0
    ensures WeightSum([(id, w)]) == w && Normalized([(id, w)]) == [(id, 1.0)]
  {
    assert Weights([(id, w)]) == [w];
    SingleSum(w);
    assert w / w == 1.0;
  }

  lemma SingleMix(id: string, d: Dim)
    requires id in CatalogKeys
    ensures AllKnown([(id, 1.0)]) && Mix([(id, 1.0)], d, 1) == Coordinate(id, d)
  {
    var c := Coordinate(id, d);
    assert Column([(id, 1.0)], d) == [c];
    assert Weights([(id, 1.0)]) == [1.0];
    SingleDot(c, 1.0);
  }

  /** With non-negative weights each blended coordinate lies between the
      contributors' least and greatest coordinate on that dimension. */
  lemma BlendWithinContributors(spec: Items, d: Dim)
    requires WeightSum(spec) > 0.0 && AllKnown(spec)
    requires forall k :: 0 <= k < |spec| ==> spec[k].1 >= 0.0
    ensures |spec| > 0 && AllKnown(Normalized(spec))
    ensures Least(Column(spec, d)) <= Round(Mix(Normalized(spec), d, |spec|), 4) <= Greatest(Column(spec, d))
  {
    var n := Normalized(spec);
    NormalizedColumn(spec, d);
    NormalizedConvex(spec);
    var cs := Column(spec, d);
    ConvexCombination(cs, Weights(n));
    ExtremesOnGrid(spec, d);
    RoundWithin(Mix(n, d, |n|), Least(cs), Greatest(cs), 4);
  }

  /** Normalising keeps the ids, so the contributors' coordinates stay the same. */
  lemma NormalizedColumn(spec: Items, d: Dim)
    requires WeightSum(spec) > 0.0 && AllKnown(spec)
    ensures AllKnown(Normalized(spec)) && Column(Normalized(spec), d) == Column(spec, d)
  {
  }

  /** Non-negative weights normalise to a convex combination. */
  lemma NormalizedConvex(spec: Items)
    requires WeightSum(spec) > 0.0
    requires forall k :: 0 <= k < |spec| ==> spec[k].1 >= 0.0
    ensures |spec| > 0 && Sum(Weights(Normalized(spec))) == 1.0
    ensures forall k :: 0 <= k < |spec| ==> Weights(Normalized(spec))[k] >= 0.0
  {
    NormalizedSumIsOne(spec);
    var total := WeightSum(spec);
    forall k | 0 <= k < |spec|
      ensures spec[k].1 / total >= 0.0
    {
    }
  }

  /** The least and the greatest coordinate are catalog coordinates, on the four-decimal grid. */
  lemma ExtremesOnGrid(spec: Items, d: Dim)
    requires |spec| > 0 && AllKnown(spec)
    ensures OnGrid(Least(Column(spec, d)), 4) && OnGrid(Greatest(Column(spec, d)), 4)
  {
    var cs := Column(spec, d);
    var i :| 0 <= i < |cs| && cs[i] == Least(cs);
    var j :| 0 <= j < |cs| && cs[j] == Greatest(cs);
    CoordinateWellFormed(spec[i].0, d);
    CoordinateWellFormed(spec[j].0, d);
  }

  /** Two parts of one author and minus one part of another. */
  function TwoMinusOne(a: string, b: string): Items
  {
    [(a, 2.0), (b, -1.0)]
  }

  /** A negative weight is accepted when the total is positive: this spec
      passes the weight check and is already normalised. */
  lemma TwoMinusOneAccepted(a: string, b: string)
    ensures WeightSum(TwoMinusOne(a, b)) == 1.0
    ensures Normalized(TwoMinusOne(a, b)) == TwoMinusOne(a, b)
  {
    TwoMinusOneWeights(a, b);
    PairSum(2.0, -1.0);
  }

  lemma TwoMinusOneWeights(a: string, b: string)
    ensures Weights(TwoMinusOne(a, b)) == [2.0, -1.0]
  {
  }

  /** Its blended coordinate on d is twice the first author's minus the
      second's (authors given by their catalog positions). */
  lemma TwoMinusOneMix(i: nat, j: nat, d: Dim)
    requires i < |CatalogKeys| && j < |CatalogKeys|
    ensures AllKnown(TwoMinusOne(CatalogKeys[i], CatalogKeys[j]))
    ensures Mix(TwoMinusOne(CatalogKeys[i], CatalogKeys[j]), d, 2) ==
            2.0 * Coordinate(CatalogKeys[i], d) - Coordinate(CatalogKeys[j], d)
  {
    TwoMinusOneColumn(i, j, d);
    TwoMinusOneWeights(CatalogKeys[i], CatalogKeys[j]);
    TwoMinusOneDot(Coordinate(CatalogKeys[i], d), Coordinate(CatalogKeys[j], d));
  }

  lemma TwoMinusOneColumn(i: nat, j: nat, d: Dim)
    requires i < |CatalogKeys| && j < |CatalogKeys|
    ensures AllKnown(TwoMinusOne(CatalogKeys[i], CatalogKeys[j]))
    ensures Column(TwoMinusOne(CatalogKeys[i], CatalogKeys[j]), d) ==
            [Coordinate(CatalogKeys[i], d), Coordinate(CatalogKeys[j], d)]
  {
    var c := Column(TwoMinusOne(CatalogKeys[i], CatalogKeys[j]), d);
    PairEquals(c, Coordinate(CatalogKeys[i], d), Coordinate(CatalogKeys[j], d));
  }

  /** Such a blend can leave the unit cube: 2 parts Hemingway and -1 part
      de Sade give a syntactic density of -0.75. */
  lemma NegativeWeightLeavesUnitCube(p: Point)
    requires WeightSum(TwoMinusOne("hemingway", "de_sade")) > 0.0 && AllKnown(TwoMinusOne("hemingway", "de_sade"))
    requires AllKnown(Normalized(TwoMinusOne("hemingway", "de_sade")))
    requires IsBlendedPoint(p, Normalized(TwoMinusOne("hemingway", "de_sade")))
    ensures p[SyntacticDensity] == -0.75 && !InUnitCube(p)
  {
    TwoMinusOneAccepted("hemingway", "de_sade");
    HemingwayAndDeSade();
    TwoMinusOneMix(0, 1, SyntacticDensity);
    NegativeRounded();
  }

  /** The syntactic densities of the first two catalog entries. */
  lemma HemingwayAndDeSade()
    ensures |CatalogKeys| > 1 && CatalogKeys[0] == "hemingway" && CatalogKeys[1] == "de_sade"
    ensures Coordinate(CatalogKeys[0], SyntacticDensity) == 0.1
    ensures Coordinate(CatalogKeys[1], SyntacticDensity) == 0.95
  {
    HemingwayAndDeSadeEntries();
    AuthorIndexOfKey(0);
    AuthorIndexOfKey(1);
  }

  lemma NegativeRounded()
    ensures Round(-0.75, 4) == -0.75
  {
    Scale4();
    assert OnGrid(-0.75, 4) by { assert -0.75 * Scale(4) == -7500 as real; }
    RoundOnGrid(-0.75, 4);
  }

  /** The unweighted squared distance from catalog entry i to p. */
  function SquaredDistanceTo(p: Point, i: nat): real
    requires Complete(p) && i < |CatalogHundredths|
  {
    CatalogPointWellFormed(i);
    SquaredDistance(CatalogPoint(i), p, false)
  }

  /** Entry i is the first catalog entry closest to p. */
  predicate IsNearest(p: Point, i: nat)
    requires Complete(p)
  {
    CatalogKeysShape();
    i < |CatalogKeys| &&
    (forall j :: 0 <= j < |CatalogKeys| ==> SquaredDistanceTo(p, i) <= SquaredDistanceTo(p, j)) &&
    (forall j :: 0 <= j < i ==> SquaredDistanceTo(p, i) < SquaredDistanceTo(p, j))
  }

  /** The scan for `nearest`: a strictly smaller distance replaces the
      candidate; the first entry is always taken, since `min_dist` starts
      at infinity (here: no candidate yet). */
  method NearestAuthor(p: Point) returns (nearest: nat, minDist: real)
    requires Complete(p)
    ensures IsNearest(p, nearest) && minDist == SquaredDistanceTo(p, nearest)
  {
    CatalogKeysShape();
    var found := false;
    nearest, minDist := 0, 0.0;
    var j := 0;
    while j < |CatalogKeys|
      invariant 0 <= j <= |CatalogKeys|
      invariant found <==> j > 0
      invariant found ==> nearest < j && minDist == SquaredDistanceTo(p, nearest)
      invariant found ==> forall k :: 0 <= k < j ==> minDist <= SquaredDistanceTo(p, k)
      invariant found ==> forall k :: 0 <= k < nearest ==> minDist < SquaredDistanceTo(p, k)
    {
      var dist := SquaredDistanceTo(p, j);
      if !found || dist < minDist {
        nearest, minDist := j, dist;
        found := true;
      }
      j := j + 1;
    }
  }

  /** The nearest entry is unique. */
  lemma NearestUnique(p: Point, a: nat, b: nat)
    requires Complete(p) && IsNearest(p, a) && IsNearest(p, b)
    ensures a == b
  {
    var da, db := SquaredDistanceTo(p, a), SquaredDistanceTo(p, b);
    assert da <= db && db <= da;
  }

  /** A point equal to catalog entry i is nearest to entry i: its distance
      to i is zero and to every other entry positive. */
  lemma CatalogPointNearest(p: Point, i: nat)
    requires i < |CatalogHundredths| && Complete(p)
    requires forall d: Dim :: d in CatalogPoint(i) && p[d] == CatalogPoint(i)[d]
    ensures IsNearest(p, i) && SquaredDistanceTo(p, i) == 0.0
  {
    CatalogKeysShape();
    CatalogPointWellFormed(i);
    SquaredDistanceZero(CatalogPoint(i), p, false);
    forall j | 0 <= j < |CatalogKeys| && j != i
      ensures SquaredDistanceTo(p, j) > 0.0
    {
      CatalogPointWellFormed(j);
      SyntacticDensityDistinct(i, j);
      SquaredDistanceZero(CatalogPoint(j), p, false);
    }
  }

  /** A single contributor's blend is that author's own point, so the
      nearest catalog author is the contributor, at distance zero. */
  lemma SingleAuthorNearest(i: nat, w: real, p: Point)
    requires i < |CatalogKeys| && w > 0.0
    requires WeightSum([(CatalogKeys[i], w)]) > 0.0 && AllKnown(Normalized([(CatalogKeys[i], w)]))
    requires IsBlendedPoint(p, Normalized([(CatalogKeys[i], w)]))
    ensures Complete(p) && IsNearest(p, i) && SquaredDistanceTo(p, i) == 0.0
  {
    var id := CatalogKeys[i];
    AuthorIndexOfKey(i);
    forall d: Dim
      ensures d in CatalogPoint(i) && p[d] == CatalogPoint(i)[d]
    {
      SingleAuthorBlend(id, w, d);
    }
    CatalogPointNearest(p, i);
  }

  /** `max(1, round(weight * 5))` */
  function MoveCount(w: real): (n: int)
    ensures n >= 1
  {
    Max(1, RoundHalfEven(w * 5.0))
  }

  /** `entry["signature_moves"][:n_moves]`: every contributor adds at
      least one move and at most five. */
  function MovesOf(item: (string, real)): (moves: seq<string>)
    requires item.0 in CatalogKeys
    ensures 1 <= |moves| <= 5
  {
    CatalogKeysShape();
    MovesShape();
    FiveSignatureMoves();
    SignatureMoves[AuthorIndex(item.0)][..Min(MoveCount(item.1), 5)]
  }

  /** `blended_moves` after the first k contributors. */
  function BlendedMoves(sorted: Items, k: nat): seq<string>
    requires k <= |sorted| && AllKnown(sorted)
  {
    if k == 0 then [] else BlendedMoves(sorted, k - 1) + MovesOf(sorted[k - 1])
  }

  /** The loop that extends `blended_moves`, contributor by contributor. */
  method CollectMoves(sorted: Items) returns (moves: seq<string>)
    requires AllKnown(sorted)
    ensures moves == BlendedMoves(sorted, |sorted|)
  {
    moves := [];
    var k := 0;
    while k < |sorted|
      invariant 0 <= k <= |sorted|
      invariant moves == BlendedMoves(sorted, k)
    {
      var next := MovesOf(sorted[k]);
      BlendedMovesStep(sorted, k, next);
      moves := moves + next;
      k := k + 1;
    }
  }

  lemma BlendedMovesStep(sorted: Items, k: nat, next: seq<string>)
    requires k < |sorted| && AllKnown(sorted) && next == MovesOf(sorted[k])
    ensures BlendedMoves(sorted, k + 1) == BlendedMoves(sorted, k) + next
  {
  }

  /** An author's moves are the first `max(1, round(weight * 5))` of its
      five signature moves. */
  lemma MovesOfPrefix(item: (string, real))
    requires item.0 in CatalogKeys
    ensures |MovesOf(item)| == Min(MoveCount(item.1), 5) <= |SignatureMoves[AuthorIndex(item.0)]|
    ensures MovesOf(item) == SignatureMoves[AuthorIndex(item.0)][..|MovesOf(item)|]
  {
    CatalogKeysShape();
    MovesShape();
    FiveSignatureMoves();
  }

  /** A contributor of weight 1 adds all five of its moves, one of weight
      at most 0.1 only its first. */
  lemma MovesByWeight(id: string, w: real)
    requires id in CatalogKeys
    ensures w == 1.0 ==> MovesOf((id, w)) == SignatureMoves[AuthorIndex(id)]
    ensures w <= 0.1 ==> |MovesOf((id, w))| == 1
  {
    MovesOfPrefix((id, w));
    CatalogKeysShape();
    MovesShape();
    FiveSignatureMoves();
    if w == 1.0 {
      RoundHalfEvenOfInt(5);
    }
    if w <= 0.1 {
      RoundHalfEvenMonotone(w * 5.0, 0.5);
    }
  }

  /** `AUTHOR_CATALOG[aid]['display_name']` */
  function DisplayName(id: string): string
    requires id in CatalogKeys
  {
    CatalogKeysShape();
    NamesShape();
    DisplayNames[AuthorIndex(id)]
  }

  /** `f"{round(w * 100)}% {name}"`: the rounded percentage, then "% " and
      the name. */
  function PercentLabel(w: real, name: string): (text: string)
    ensures |text| > |name| + 2 && text[|text| - |name| - 2..] == "% " + name
  {
    var percent := IntToString(RoundHalfEven(w * 100.0));
    TailOfConcat(percent, "% ", name);
    percent + "% " + name
  }

  /** One contributor of `blend_display`: its percentage and its author's
      display name. */
  function DisplayPart(item: (string, real)): (part: string)
    requires item.0 in CatalogKeys
    ensures |part| > |DisplayName(item.0)| + 2
    ensures part[|part| - |DisplayName(item.0)| - 2..] == "% " + DisplayName(item.0)
  {
    PercentLabel(item.1, DisplayName(item.0))
  }

  /** `" / ".join(...)` of the display parts, heaviest contributor first. */
  function BlendDisplay(sorted: Items): (s: string)
    requires AllKnown(sorted)
    ensures |sorted| > 0 ==> |s| >= |DisplayPart(sorted[0])| && s[..|DisplayPart(sorted[0])|] == DisplayPart(sorted[0])
    ensures |sorted| == 1 ==> s == DisplayPart(sorted[0])
  {
    Join(" / ", seq(|sorted|, k requires 0 <= k < |sorted| => DisplayPart(sorted[k])))
  }

  /** A single contributor is displayed at 100%. */
  lemma SingleAuthorDisplay(i: nat, w: real)
    requires i < |CatalogKeys| && w > 0.0
    ensures WeightSum([(CatalogKeys[i], w)]) > 0.0
    ensures SortByWeight(Normalized([(CatalogKeys[i], w)])) == [(CatalogKeys[i], 1.0)]
    ensures AllKnown([(CatalogKeys[i], 1.0)])
    ensures BlendDisplay([(CatalogKeys[i], 1.0)]) == "100% " + DisplayNames[i]
  {
    SingleSorted(CatalogKeys[i], w);
    SingleBlendDisplay(i, 1.0);
    SingleDisplayPart(i);
  }

  lemma SingleBlendDisplay(i: nat, w: real)
    requires i < |CatalogKeys|
    ensures AllKnown([(CatalogKeys[i], w)])
    ensures BlendDisplay([(CatalogKeys[i], w)]) == DisplayPart((CatalogKeys[i], w))
  {
    assert [(CatalogKeys[i], w)][0] == (CatalogKeys[i], w);
  }

  lemma SingleSorted(id: string, w: real)
    requires w > 0.0
    ensures WeightSum([(id, w)]) > 0.0 && SortByWeight(Normalized([(id, w)])) == [(id, 1.0)]
  {
    SingleNormalized(id, w);
    assert [(id, 1.0)][..0] == [];
  }

  lemma SingleDisplayPart(i: nat)
    requires i < |CatalogKeys|
    ensures DisplayPart((CatalogKeys[i], 1.0)) == "100% " + DisplayNames[i]
  {
    DisplayPartAt(i);
    HundredPercent();
    assert IntToString(RoundHalfEven(1.0 * 100.0)) + "% " == "100% ";
  }

  lemma DisplayPartAt(i: nat)
    requires i < |CatalogKeys|
    ensures DisplayPart((CatalogKeys[i], 1.0)) == IntToString(RoundHalfEven(1.0 * 100.0)) + "% " + DisplayNames[i]
  {
    AuthorIndexOfKey(i);
  }

  lemma HundredPercent()
    ensures IntToString(RoundHalfEven(1.0 * 100.0)) == "100"
  {
    RoundHalfEvenOfInt(100);
    assert IntToString(100) == "100";
  }

  /** `{aid: round(w, 3) ...}` */
  function RoundedSpec(n: Items): (r: Items)
    ensures |r| == |n|
    ensures forall k :: 0 <= k < |n| ==> r[k].0 == n[k].0 && OnGrid(r[k].1, 3)
    ensures forall k :: 0 <= k < |n| ==> n[k].1 - 0.0005 <= r[k].1 <= n[k].1 + 0.0005
  {
    assert Scale(3) == 1000.0 by { assert Pow10(3) == 1000; }
    seq(|n|, k requires 0 <= k < |n| => (n[k].0, Round(n[k].1, 3)))
  }

  /** "nearest_catalog_author"; the square of "distance" is kept. */
  datatype NearestAuthorReport = NearestAuthorReport(id: string, displayName: string, squaredDistance: real)

  /** The dict `interpolate_styles` returns. */
  datatype Blend = Blend(
    blendSpec: Items,
    blendDisplay: string,
    coordinates: Point,
    nearest: NearestAuthorReport,
    signatureMoves: seq<string>,
    textVocabulary: map<Dim, AnnotatedBundle>,
    imageVocabulary: map<Dim, AnnotatedBundle>)

  /** The normalised spec names the same authors as the spec. */
  lemma NormalizedKnown(spec: Items)
    requires WeightSum(spec) > 0.0 && AllKnown(spec)
    ensures AllKnown(Normalized(spec))
  {
  }

  /** Sorting keeps every author known. */
  lemma SortedKnown(n: Items)
    requires AllKnown(n)
    ensures AllKnown(SortByWeight(n))
  {
    var s := SortByWeight(n);
    forall k | 0 <= k < |s|
      ensures s[k].0 in CatalogKeys
    {
      assert s[k] in n;
      var j :| 0 <= j < |n| && n[j] == s[k];
    }
  }

  /** The parts of the result that follow the contributors in descending weight. */
  predicate InWeightOrder(b: Blend, sorted: Items)
    requires AllKnown(sorted)
  {
    b.blendDisplay == BlendDisplay(sorted) && b.signatureMoves == BlendedMoves(sorted, |sorted|)
  }

  /** The parts of the result that follow the blended point. */
  predicate AtBlendedPoint(b: Blend, n: Items)
    requires AllKnown(n)
  {
    CatalogKeysShape();
    NamesShape();
    IsBlendedPoint(b.coordinates, n) &&
    (exists i :: 0 <= i < |CatalogKeys| && IsNearest(b.coordinates, i) &&
      b.nearest == NearestAuthorReport(CatalogKeys[i], DisplayNames[i], SquaredDistanceTo(b.coordinates, i))) &&
    (forall d: Dim :: d in b.textVocabulary && b.textVocabulary[d] == InterpolateTier(d, b.coordinates[d], TextOutput)) &&
    (forall d: Dim :: d in b.imageVocabulary && b.imageVocabulary[d] == InterpolateTier(d, b.coordinates[d], ImageOutput))
  }

  /** b is what `interpolate_styles(spec)` returns for a spec whose weights
      sum to a positive value and whose ids are all known. */
  predicate IsBlendOf(b: Blend, spec: Items)
    requires WeightSum(spec) > 0.0 && AllKnown(spec)
  {
    var n := Normalized(spec);
    NormalizedKnown(spec);
    SortedKnown(n);
    b.blendSpec == RoundedSpec(n) && InWeightOrder(b, SortByWeight(n)) && AtBlendedPoint(b, n)
  }

  /** `interpolate_styles(blend_spec)`: the empty spec and a weight total
      that is not positive are rejected before any id is looked up; then the
      first unknown id is reported (the lookups of the blending loop's first
      pass meet it before anything else can fail). */
  method InterpolateStyles(spec: Items) returns (r: Result<Blend>)
    ensures spec == [] ==> r == Err(EmptyBlendSpec)
    ensures spec != [] && WeightSum(spec) <= 0.0 ==> r == Err(NonPositiveWeightSum)
    ensures spec != [] && WeightSum(spec) > 0.0 && !AllKnown(spec) ==>
      FirstUnknown(spec) < |spec| && r == Err(UnknownAuthor(spec[FirstUnknown(spec)].0, GetAuthorIds()))
    ensures spec != [] && WeightSum(spec) > 0.0 && AllKnown(spec) ==> r.Ok? && IsBlendOf(r.value, spec)
  {
    if spec == [] {
      return Err(EmptyBlendSpec);
    }
    if WeightSum(spec) <= 0.0 {
      return Err(NonPositiveWeightSum);
    }
    var unknown := FirstUnknown(spec);
    if unknown < |spec| {
      return Err(UnknownAuthor(spec[unknown].0, GetAuthorIds()));
    }
    var b := BlendKnown(spec);
    r := Ok(b);
  }

  /** The blend of a spec that passed every check. */
  method BlendKnown(spec: Items) returns (b: Blend)
    requires WeightSum(spec) > 0.0 && AllKnown(spec)
    ensures IsBlendOf(b, spec)
  {
    var n := Normalized(spec);
    NormalizedKnown(spec);
    var blended := BlendCoordinates(n);
    var nearest, minDist := NearestAuthor(blended);
    var text := ExtractAtPoint(blended, TextOutput);
    var image := ExtractAtPoint(blended, ImageOutput);
    var sorted := SortByWeight(n);
    SortedKnown(n);
    var moves := CollectMoves(sorted);
    CatalogKeysShape();
    NamesShape();
    b := Blend(RoundedSpec(n), BlendDisplay(sorted), blended,
               NearestAuthorReport(CatalogKeys[nearest], DisplayNames[nearest], minDist),
               moves, text, image);
    assert AtBlendedPoint(b, n);
  }
}
