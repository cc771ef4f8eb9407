/** `compute_style_distance`: the per-dimension comparison of two catalog
    authors, the (optionally perceptually weighted) sum of squared
    differences, and the axis of greatest contrast. */
module Distance {
  import opened StyleTypes
  import opened PyRound
  import opened Taxonomy

  /** PERCEPTUAL_WEIGHTS: how much each dimension counts towards perceived difference. */
  function PerceptualWeight(d: Dim): (w: real)
    ensures 0.8 <= w <= 1.2
  {
    match d
    case SyntacticDensity => 1.2
    case SensoryConcreteness => 1.0
    case OrnamentalRegister => 1.1
    case TensionVisibility => 0.9
    case TensionTemporality => 0.8
    case RealityStability => 1.0
    case Interiority => 1.0
    case TemporalMode => 0.8
  }

  /** The weight applied to a dimension's difference: 1.0 unless `weighted`. */
  function Weight(d: Dim, weighted: bool): (w: real)
    ensures w > 0.0
    ensures !weighted ==> w == 1.0
  {
    if weighted then PerceptualWeight(d) else 1.0
  }

  function Abs(x: real): (a: real)
    ensures a >= 0.0 && (a == x || a == -x)
  {
    if x < 0.0 then -x else x
  }

  /** One "per_dimension" entry of the report. */
  datatype DimGap = DimGap(
    value1: real,
    value2: real,
    rawDifference: real,
    weightedDifference: real,
    absoluteGap: real)

  /** The entry for dimension d: both values, and the difference (second
      minus first), the weighted difference and the absolute gap, each
      rounded to three decimals. */
  function GapOf(c1: Point, c2: Point, d: Dim, weighted: bool): (g: DimGap)
    requires d in c1 && d in c2
    ensures g.value1 == c1[d] && g.value2 == c2[d]
    ensures g.rawDifference == Round(c2[d] - c1[d], 3)
    ensures g.weightedDifference == Round((c2[d] - c1[d]) * Weight(d, weighted), 3)
    ensures g.absoluteGap >= 0.0 && g.absoluteGap == Abs(g.rawDifference)
    ensures c1[d] == c2[d] ==> g.rawDifference == g.weightedDifference == g.absoluteGap == 0.0
  {
    var diff := c2[d] - c1[d];
    RoundNonNegative(Abs(diff), 3);
    RoundNegate(diff, 3);
    ZeroAndOneOnGrid(3);
    RoundOnGrid(0.0, 3);
    DimGap(c1[d], c2[d], Round(diff, 3), Round(diff * Weight(d, weighted), 3), Round(Abs(diff), 3))
  }

  lemma RoundNonNegative(x: real, places: nat)
    requires x >= 0.0
    ensures Round(x, places) >= 0.0
  {
    ZeroAndOneOnGrid(places);
    RoundOnGrid(0.0, places);
    RoundMonotone(0.0, x, places);
  }

  /** Every dimension's entry. */
  function Gaps(c1: Point, c2: Point, weighted: bool): (m: map<Dim, DimGap>)
    requires Complete(c1) && Complete(c2)
    ensures forall d: Dim :: d in m && m[d] == GapOf(c1, c2, d, weighted)
  {
    AllDimsComplete();
    map d | d in AllDims :: GapOf(c1, c2, d, weighted)
  }

  /** `weighted_diff ** 2` for dimension d. */
  function Term(c1: Point, c2: Point, d: Dim, weighted: bool): (t: real)
    requires d in c1 && d in c2
    ensures t >= 0.0
  {
    SquareSign((c2[d] - c1[d]) * Weight(d, weighted));
    Square((c2[d] - c1[d]) * Weight(d, weighted))
  }

  /** A dimension adds nothing to the sum exactly when the two values agree. */
  lemma TermZero(c1: Point, c2: Point, d: Dim, weighted: bool)
    requires d in c1 && d in c2
    ensures Term(c1, c2, d, weighted) == 0.0 <==> c1[d] == c2[d]
  {
    var diff := c2[d] - c1[d];
    ProductZero(diff, Weight(d, weighted));
    SquareSign(diff * Weight(d, weighted));
  }

  /** x * x. The second factor goes through `Copy` so that the solver
      treats the square as a product of two factors, which it reasons
      about more reliably than a square. */
  function Square(x: real): real
  {
    x * Copy(x)
  }

  function Copy(x: real): real
  {
    x
  }

  lemma PositiveProduct(a: real, b: real)
    requires a > 0.0 && b > 0.0
    ensures a * b > 0.0
  {
  }

  lemma SquareSign(x: real)
    ensures Square(x) >= 0.0
    ensures Square(x) == 0.0 <==> x == 0.0
  {
    if x > 0.0 {
      PositiveProduct(x, Copy(x));
    } else if x < 0.0 {
      PositiveProduct(-x, -Copy(x));
      assert x * Copy(x) == (-x) * (-Copy(x));
    }
  }

  lemma ProductZero(x: real, w: real)
    requires w > 0.0
    ensures x * w == 0.0 <==> x == 0.0
  {
  }

  /** `sum_sq` after the first n dimensions of PARAMETER_NAMES. */
  function SumSq(c1: Point, c2: Point, weighted: bool, n: nat): (s: real)
    requires Complete(c1) && Complete(c2) && n <= |Dims|
    ensures s >= 0.0
  {
    if n == 0 then 0.0 else SumSq(c1, c2, weighted, n - 1) + Term(c1, c2, Dims[n - 1], weighted)
  }

  /** The squared distance of two complete points: `sum_sq` after every dimension. */
  function SquaredDistance(c1: Point, c2: Point, weighted: bool): (s: real)
    requires Complete(c1) && Complete(c2)
    ensures s >= 0.0
  {
    SumSq(c1, c2, weighted, |Dims|)
  }

  /** The order of the arguments does not matter. */
  lemma {:induction false} SumSqSymmetric(c1: Point, c2: Point, weighted: bool, n: nat)
    requires Complete(c1) && Complete(c2) && n <= |Dims|
    ensures SumSq(c1, c2, weighted, n) == SumSq(c2, c1, weighted, n)
  {
    if n > 0 {
      SumSqSymmetric(c1, c2, weighted, n - 1);
      var d := Dims[n - 1];
      assert (c2[d] - c1[d]) * Weight(d, weighted) == -((c1[d] - c2[d]) * Weight(d, weighted));
    }
  }

  /** The sum over the first n dimensions is zero exactly when the two
      points agree on each of them. */
  lemma {:induction false} SumSqZero(c1: Point, c2: Point, weighted: bool, n: nat)
    requires Complete(c1) && Complete(c2) && n <= |Dims|
    ensures SumSq(c1, c2, weighted, n) == 0.0 <==> forall k :: 0 <= k < n ==> c1[Dims[k]] == c2[Dims[k]]
  {
    if n > 0 {
      SumSqZero(c1, c2, weighted, n - 1);
      TermZero(c1, c2, Dims[n - 1], weighted);
    }
  }

  /** A squared distance is zero exactly when the points are equal on every
      dimension, whether or not the perceptual weights are applied. */
  lemma SquaredDistanceZero(c1: Point, c2: Point, weighted: bool)
    requires Complete(c1) && Complete(c2)
    ensures SquaredDistance(c1, c2, weighted) == 0.0 <==> forall d: Dim :: c1[d] == c2[d]
  {
    SumSqZero(c1, c2, weighted, |Dims|);
    ParameterNamesMatchDimensions();
    if forall k :: 0 <= k < |Dims| ==> c1[Dims[k]] == c2[Dims[k]] {
      forall d: Dim
        ensures c1[d] == c2[d]
      {
        assert Dims[Position(d)] == d;
      }
    }
  }

  /** `max(per_dim, key=absolute_gap)`: the first dimension, in
      PARAMETER_NAMES order, whose absolute gap is the greatest. */
  predicate IsFirstMax(gaps: map<Dim, DimGap>, axis: Dim)
  {
    axis in gaps &&
    (forall d :: d in gaps ==> gaps[d].absoluteGap <= gaps[axis].absoluteGap) &&
    (forall d :: d in gaps && Position(d) < Position(axis) ==> gaps[d].absoluteGap < gaps[axis].absoluteGap)
  }

  /** The first maximum is unique. */
  lemma FirstMaxUnique(gaps: map<Dim, DimGap>, a: Dim, b: Dim)
    requires IsFirstMax(gaps, a) && IsFirstMax(gaps, b)
    ensures a == b
  {
    var ga, gb := gaps[a].absoluteGap, gaps[b].absoluteGap;
    assert ga <= gb && gb <= ga;
    assert Dims[Position(a)] == a && Dims[Position(b)] == b;
  }

  /** The report `compute_style_distance` returns. The square root is not
      taken: `sumOfSquares` is the square of "euclidean_distance". */
  datatype DistanceReport = DistanceReport(
    author1: string,
    author2: string,
    sumOfSquares: real,
    maxContrastAxis: Dim,
    maxContrastGap: real,
    perDimension: map<Dim, DimGap>)

  /** What the report says about two points. */
  predicate IsDistanceReport(rep: DistanceReport, c1: Point, c2: Point, weighted: bool)
    requires Complete(c1) && Complete(c2)
  {
    rep.sumOfSquares == SquaredDistance(c1, c2, weighted) &&
    rep.perDimension == Gaps(c1, c2, weighted) &&
    IsFirstMax(rep.perDimension, rep.maxContrastAxis) &&
    rep.maxContrastGap == rep.perDimension[rep.maxContrastAxis].absoluteGap
  }

  /** What the report says about two catalog authors. */
  predicate IsAuthorDistance(rep: DistanceReport, i: nat, j: nat, weighted: bool)
    requires i < |CatalogKeys| && j < |CatalogKeys|
  {
    CatalogKeysShape();
    NamesShape();
    CatalogPointWellFormed(i);
    CatalogPointWellFormed(j);
    rep.author1 == DisplayNames[i] && rep.author2 == DisplayNames[j] &&
    IsDistanceReport(rep, CatalogPoint(i), CatalogPoint(j), weighted)
  }

  /** `compute_style_distance(author_id_1, author_id_2, weighted)`. An
      unknown first id is reported before an unknown second one. */
  method ComputeStyleDistance(id1: string, id2: string, weighted: bool) returns (r: Result<DistanceReport>)
    ensures r.Ok? <==> id1 in GetAuthorIds() && id2 in GetAuthorIds()
    ensures id1 !in GetAuthorIds() ==> r == Err(UnknownAuthor(id1, GetAuthorIds()))
    ensures id1 in GetAuthorIds() && id2 !in GetAuthorIds() ==> r == Err(UnknownAuthor(id2, GetAuthorIds()))
    ensures r.Ok? ==> IsAuthorDistance(r.value, AuthorIndex(id1), AuthorIndex(id2), weighted)
  {
    var g1 := GetCoordinates(id1);
    if g1.Err? {
      return Err(g1.error);
    }
    var g2 := GetCoordinates(id2);
    if g2.Err? {
      return Err(g2.error);
    }
    var c1, c2 := g1.value, g2.value;
    var i, j := AuthorIndex(id1), AuthorIndex(id2);
    assert c1 == CatalogPoint(i) && c2 == CatalogPoint(j);
    var rep := PointDistance(c1, c2, weighted);
    NamesShape();
    r := Ok(rep.(author1 := DisplayNames[i], author2 := DisplayNames[j]));
  }

  /** The steps of `compute_style_distance` after the lookups, on two complete points. */
  method PointDistance(c1: Point, c2: Point, weighted: bool) returns (rep: DistanceReport)
    requires Complete(c1) && Complete(c2)
    ensures IsDistanceReport(rep, c1, c2, weighted)
  {
    var perDim, sumSq := PerDimension(c1, c2, weighted);
    var axis := MaxContrastAxis(perDim);
    rep := DistanceReport("", "", sumSq, axis, perDim[axis].absoluteGap, perDim);
  }

  /** The loop over PARAMETER_NAMES: each dimension's entry, and `sum_sq`. */
  method PerDimension(c1: Point, c2: Point, weighted: bool) returns (perDim: map<Dim, DimGap>, sumSq: real)
    requires Complete(c1) && Complete(c2)
    ensures perDim == Gaps(c1, c2, weighted)
    ensures sumSq == SquaredDistance(c1, c2, weighted)
  {
    perDim := map[];
    sumSq := 0.0;
    var n := 0;
    while n < |Dims|
      invariant 0 <= n <= |Dims|
      invariant sumSq == SumSq(c1, c2, weighted, n)
      invariant forall d :: d in perDim <==> Position(d) < n
      invariant forall d :: d in perDim ==> perDim[d] == GapOf(c1, c2, d, weighted)
    {
      var p := Dims[n];
      perDim := perDim[p := GapOf(c1, c2, p, weighted)];
      sumSq := sumSq + Term(c1, c2, p, weighted);
      n := n + 1;
    }
  }

  /** `max(per_dim, key=lambda k: per_dim[k]["absolute_gap"])` over the
      entries in PARAMETER_NAMES order. */
  method MaxContrastAxis(perDim: map<Dim, DimGap>) returns (axis: Dim)
    requires forall d: Dim :: d in perDim
    ensures IsFirstMax(perDim, axis)
  {
    axis := Dims[0];
    var k := 1;
    while k < |Dims|
      invariant 1 <= k <= |Dims|
      invariant Position(axis) < k
      invariant forall d :: Position(d) < k ==> perDim[d].absoluteGap <= perDim[axis].absoluteGap
      invariant forall d :: Position(d) < Position(axis) ==> perDim[d].absoluteGap < perDim[axis].absoluteGap
    {
      if perDim[Dims[k]].absoluteGap > perDim[axis].absoluteGap {
        axis := Dims[k];
      }
      k := k + 1;
    }
  }

  /** Swapping the two points keeps the sum, the gaps and the axis, and
      negates the signed differences. */
  lemma DistanceSymmetric(c1: Point, c2: Point, weighted: bool, rep: DistanceReport, rev: DistanceReport)
    requires Complete(c1) && Complete(c2)
    requires IsDistanceReport(rep, c1, c2, weighted) && IsDistanceReport(rev, c2, c1, weighted)
    ensures rev.sumOfSquares == rep.sumOfSquares
    ensures rev.maxContrastAxis == rep.maxContrastAxis && rev.maxContrastGap == rep.maxContrastGap
    ensures forall d: Dim :: rev.perDimension[d].rawDifference == -rep.perDimension[d].rawDifference
    ensures forall d: Dim :: rev.perDimension[d].absoluteGap == rep.perDimension[d].absoluteGap
  {
    SumSqSymmetric(c1, c2, weighted, |Dims|);
    forall d: Dim
      ensures rev.perDimension[d].rawDifference == -rep.perDimension[d].rawDifference
      ensures rev.perDimension[d].absoluteGap == rep.perDimension[d].absoluteGap
    {
      GapSymmetric(c1, c2, d, weighted);
    }
    assert IsFirstMax(rep.perDimension, rev.maxContrastAxis);
    FirstMaxUnique(rep.perDimension, rep.maxContrastAxis, rev.maxContrastAxis);
  }

  /** Swapping the points negates a dimension's difference and keeps its gap. */
  lemma GapSymmetric(c1: Point, c2: Point, d: Dim, weighted: bool)
    requires d in c1 && d in c2
    ensures GapOf(c2, c1, d, weighted).rawDifference == -GapOf(c1, c2, d, weighted).rawDifference
    ensures GapOf(c2, c1, d, weighted).absoluteGap == GapOf(c1, c2, d, weighted).absoluteGap
  {
    assert c1[d] - c2[d] == -(c2[d] - c1[d]);
    RoundNegate(c2[d] - c1[d], 3);
  }

  /** An author is at distance zero from itself, and every gap is zero. */
  lemma SelfDistanceZero(c: Point, weighted: bool, rep: DistanceReport)
    requires Complete(c) && IsDistanceReport(rep, c, c, weighted)
    ensures rep.sumOfSquares == 0.0 && rep.maxContrastGap == 0.0
    ensures rep.maxContrastAxis == SyntacticDensity
  {
    SquaredDistanceZero(c, c, weighted);
    var gaps := rep.perDimension;
    assert gaps[SyntacticDensity].absoluteGap == 0.0;
    assert gaps[rep.maxContrastAxis].absoluteGap == 0.0;
    assert Position(SyntacticDensity) == 0;
  }
}
