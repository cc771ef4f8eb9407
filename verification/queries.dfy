/** The catalog queries: `list_authors`, `get_author_profile`,
    `find_max_contrast_pair` and `find_nearest_neighbor`. */
module Queries {
  import opened StyleTypes
  import opened Taxonomy
  import opened Distance
  import opened Interpolation

  /** One value of the `list_authors` dict. */
  datatype AuthorSummary = AuthorSummary(displayName: string, languageOrigin: string, coordinates: Point)

  function Summary(e: AuthorEntry): AuthorSummary
  {
    AuthorSummary(e.displayName, e.languageOrigin, e.coordinates)
  }

  /** `list_authors()`: the dict's items, one per catalog key in catalog order. */
  function ListAuthors(): (listing: seq<(string, AuthorSummary)>)
    ensures |listing| == |GetAuthorIds()|
    ensures forall k :: 0 <= k < |listing| ==> listing[k].0 == GetAuthorIds()[k]
  {
    CatalogKeysShape();
    seq(|CatalogKeys|, k requires 0 <= k < |CatalogKeys| => (CatalogKeys[k], Summary(Entry(k))))
  }

  /** `get_author_profile(author_id)`: the whole catalog entry; an unknown id
      is reported together with every available id. */
  function GetAuthorProfile(id: string): (r: Result<AuthorEntry>)
    ensures r.Ok? <==> id in GetAuthorIds()
    ensures r.Err? ==> r.error == UnknownAuthor(id, GetAuthorIds())
    ensures r.Ok? ==> r.value.id == id && GetCoordinates(id) == Ok(r.value.coordinates)
  {
    match Lookup(id)
    case Some(e) => Ok(e)
    case None => Err(UnknownAuthor(id, GetAuthorIds()))
  }

  /** Each listed author has a profile, the listing summarises it, and its
      listed coordinates are those `get_all_coordinates` gives. */
  lemma ListingAgreesWithProfiles(k: nat)
    requires k < |ListAuthors()|
    ensures GetAuthorProfile(ListAuthors()[k].0).Ok?
    ensures Summary(GetAuthorProfile(ListAuthors()[k].0).value) == ListAuthors()[k].1
    ensures ListAuthors()[k].1.coordinates == GetAllCoordinates()[ListAuthors()[k].0]
  {
    AuthorIndexOfKey(k);
    AllCoordinatesAgree(k);
  }

  /** `compute_style_distance(authors[i], authors[j])`'s sum of squares:
      the unweighted squared distance from entry i to entry j. */
  function PairDistance(i: nat, j: nat): (s: real)
    requires i < |CatalogKeys| && j < |CatalogKeys|
  {
    CatalogKeysShape();
    CatalogPointWellFormed(j);
    SquaredDistanceTo(CatalogPoint(j), i)
  }

  /** Distinct catalog entries are apart: every pair differs in syntactic
      density. */
  lemma PairsApart(i: nat, j: nat)
    requires i < |CatalogKeys| && j < |CatalogKeys| && i != j
    ensures PairDistance(i, j) > 0.0
  {
    CatalogKeysShape();
    CatalogPointWellFormed(i);
    CatalogPointWellFormed(j);
    SyntacticDensityDistinct(i, j);
    SquaredDistanceZero(CatalogPoint(i), CatalogPoint(j), false);
    SquareSign(0.0);
    SumSqNonNegative(i, j);
  }

  lemma SumSqNonNegative(i: nat, j: nat)
    requires i < |CatalogKeys| && j < |CatalogKeys|
    ensures PairDistance(i, j) >= 0.0
  {
  }

  lemma PairDistanceSymmetric(i: nat, j: nat)
    requires i < |CatalogKeys| && j < |CatalogKeys|
    ensures PairDistance(i, j) == PairDistance(j, i)
  {
    CatalogKeysShape();
    CatalogPointWellFormed(i);
    CatalogPointWellFormed(j);
    SumSqSymmetric(CatalogPoint(i), CatalogPoint(j), false, |Dims|);
  }

  lemma CatalogSize()
    ensures |CatalogKeys| == |CatalogHundredths| == 11
  {
  }

  /** The report for catalog entries i and j, through `compute_style_distance`. */
  method PairReport(i: nat, j: nat) returns (rep: DistanceReport)
    requires i < |CatalogKeys| && j < |CatalogKeys|
    ensures IsAuthorDistance(rep, i, j, false) && rep.sumOfSquares == PairDistance(i, j)
  {
    AuthorIndexOfKey(i);
    AuthorIndexOfKey(j);
    var r := ComputeStyleDistance(CatalogKeys[i], CatalogKeys[j], false);
    rep := r.value;
  }

  /** `compute_style_distance(authors[i], authors[j])["euclidean_distance"]`,
      squared. */
  method PairSquares(i: nat, j: nat) returns (s: real)
    requires i < |CatalogKeys| && j < |CatalogKeys|
    ensures s == PairDistance(i, j)
  {
    var rep := PairReport(i, j);
    s := rep.sumOfSquares;
  }

  /** The pair (a, b) comes before the pair (i, j) in the scan
      `for i, a1 in enumerate(authors): for a2 in authors[i + 1:]`. */
  predicate ScannedBefore(a: nat, b: nat, i: nat, j: nat)
  {
    a < i || (a == i && b < j)
  }

  /** (a, b) with a < b is the first pair of greatest positive distance in
      scan order. */
  predicate IsMaxPair(a: nat, b: nat)
  {
    a < b < |CatalogKeys| && PairDistance(a, b) > 0.0 &&
    (forall x: nat, y: nat :: x < y < |CatalogKeys| ==> PairDistance(x, y) <= PairDistance(a, b)) &&
    (forall x: nat, y: nat :: x < y < |CatalogKeys| && ScannedBefore(x, y, a, b) ==> PairDistance(x, y) < PairDistance(a, b))
  }

  /** No two catalog entries are apart. */
  predicate AllPairsCoincide()
  {
    forall x: nat, y: nat :: x < y < |CatalogKeys| ==> PairDistance(x, y) == 0.0
  }

  /** The state of the pair scan once every pair before (i, j) is done:
      `max_dist` is 0 until some pair is apart, then the distance of the
      first farthest pair so far, `max_pair`. */
  predicate PairScan(i: nat, j: nat, found: bool, a: nat, b: nat, maxDist: real)
    ensures PairScan(i, j, found, a, b, maxDist) && i == |CatalogKeys| ==>
      (found ==> IsMaxPair(a, b)) && (!found ==> AllPairsCoincide())
  {
    (found ==> a < b < |CatalogKeys| && ScannedBefore(a, b, i, j) && maxDist == PairDistance(a, b) && maxDist > 0.0 &&
               forall x: nat, y: nat :: x < y < |CatalogKeys| && ScannedBefore(x, y, a, b) ==> PairDistance(x, y) < maxDist) &&
    (!found ==> maxDist == 0.0) &&
    (forall x: nat, y: nat :: x < y < |CatalogKeys| && ScannedBefore(x, y, i, j) ==> PairDistance(x, y) <= maxDist)
  }

  /** `find_max_contrast_pair()`. The scan starts from `max_dist = 0.0` and
      replaces the pair only on a strictly greater distance; when no pair is
      apart the final lookup of `None` fails. */
  method FindMaxContrastPair() returns (r: Result<DistanceReport>)
    ensures r.Err? <==> AllPairsCoincide()
    ensures r.Err? ==> r.error == UnknownAuthor("None", GetAuthorIds())
    ensures r.Ok? ==> exists a, b :: IsMaxPair(a, b) && IsAuthorDistance(r.value, a, b, false)
  {
    var maxDist := 0.0;
    var found := false;
    var a, b := 0, 0;
    var i := 0;
    while i < |CatalogKeys|
      invariant 0 <= i <= |CatalogKeys|
      invariant PairScan(i, 0, found, a, b, maxDist)
    {
      found, a, b, maxDist := ScanRow(i, found, a, b, maxDist);
      i := i + 1;
    }
    r := MaxPairReport(found, a, b, maxDist);
  }

  /** The inner loop, over the pairs (i, j) with i < j. */
  method ScanRow(i: nat, found: bool, a: nat, b: nat, maxDist: real)
    returns (found': bool, a': nat, b': nat, maxDist': real)
    requires i < |CatalogKeys| && PairScan(i, 0, found, a, b, maxDist)
    ensures PairScan(i + 1, 0, found', a', b', maxDist')
  {
    found', a', b', maxDist' := found, a, b, maxDist;
    PairScanRowEnds(i, found, a, b, maxDist);
    var j := i + 1;
    while j < |CatalogKeys|
      invariant i + 1 <= j <= |CatalogKeys|
      invariant PairScan(i, j, found', a', b', maxDist')
    {
      var dist := PairSquares(i, j);
      PairScanStep(i, j, found', a', b', maxDist', dist);
      if dist > maxDist' {
        maxDist' := dist;
        a', b' := i, j;
        found' := true;
      }
      j := j + 1;
    }
    PairScanRowEnds(i + 1, found', a', b', maxDist');
  }

  /** Pair (i, j) updates the scan as `if result > max_dist`. */
  lemma PairScanStep(i: nat, j: nat, found: bool, a: nat, b: nat, maxDist: real, dist: real)
    requires i < j < |CatalogKeys| && PairScan(i, j, found, a, b, maxDist) && dist == PairDistance(i, j)
    ensures dist > maxDist ==> PairScan(i, j + 1, true, i, j, dist)
    ensures dist <= maxDist ==> PairScan(i, j + 1, found, a, b, maxDist)
  {
  }

  /** No pair (x, y) with x < y lies between (i, 0) and (i, i + 1), nor
      between (i - 1, |CatalogKeys|) and (i, 0). */
  lemma PairScanRowEnds(i: nat, found: bool, a: nat, b: nat, maxDist: real)
    requires i <= |CatalogKeys|
    ensures PairScan(i, 0, found, a, b, maxDist) <==> PairScan(i, i + 1, found, a, b, maxDist)
    ensures i > 0 ==> (PairScan(i - 1, |CatalogKeys|, found, a, b, maxDist) <==> PairScan(i, 0, found, a, b, maxDist))
  {
  }

  /** `return compute_style_distance(max_pair[0], max_pair[1])` once every
      pair is scanned. */
  method MaxPairReport(found: bool, a: nat, b: nat, maxDist: real) returns (r: Result<DistanceReport>)
    requires PairScan(|CatalogKeys|, 0, found, a, b, maxDist)
    ensures r.Err? <==> AllPairsCoincide()
    ensures r.Err? ==> r.error == UnknownAuthor("None", GetAuthorIds())
    ensures r.Ok? ==> IsMaxPair(a, b) && IsAuthorDistance(r.value, a, b, false)
  {
    if found {
      var rep := PairReport(a, b);
      r := Ok(rep);
    } else {
      r := Err(UnknownAuthor("None", GetAuthorIds()));
      forall x: nat, y: nat | x < y < |CatalogKeys|
        ensures PairDistance(x, y) == 0.0
      {
        SumSqNonNegative(x, y);
      }
    }
  }

  /** The catalog is not degenerate, so the scan always finds a pair. */
  lemma MaxContrastPairFound()
    ensures !AllPairsCoincide()
  {
    CatalogKeysShape();
    PairsApart(0, 1);
  }

  /** The first farthest pair is unique. */
  lemma MaxPairUnique(a: nat, b: nat, c: nat, d: nat)
    requires IsMaxPair(a, b) && IsMaxPair(c, d)
    ensures a == c && b == d
  {
    assert PairDistance(a, b) <= PairDistance(c, d) <= PairDistance(a, b);
  }

  /** k is the first other author closest to entry i, in catalog order. */
  predicate IsNearestOther(i: nat, k: nat)
    requires i < |CatalogKeys|
  {
    k < |CatalogKeys| && k != i &&
    (forall j: nat :: j < |CatalogKeys| && j != i ==> PairDistance(i, k) <= PairDistance(i, j)) &&
    (forall j: nat :: j < k && j != i ==> PairDistance(i, k) < PairDistance(i, j))
  }

  /** `find_nearest_neighbor(author_id)`. An unknown id fails at the loop's
      first comparison, `compute_style_distance(author_id, authors[0])`. */
  method FindNearestNeighbor(id: string) returns (r: Result<DistanceReport>)
    ensures id !in GetAuthorIds() ==> r == Err(UnknownAuthor(id, GetAuthorIds()))
    ensures forall i :: 0 <= i < |CatalogKeys| && CatalogKeys[i] == id ==>
      r.Ok? && exists k :: IsNearestOther(i, k) && IsAuthorDistance(r.value, i, k, false)
  {
    CatalogSize();
    if id !in CatalogKeys {
      var first := ComputeStyleDistance(id, CatalogKeys[0], false);
      return Err(first.error);
    }
    var i := AuthorIndex(id);
    var k := NearestOther(i);
    var rep := PairReport(i, k);
    r := Ok(rep);
  }

  /** The loop of `find_nearest_neighbor` for a known author: every other
      author in catalog order, a strictly smaller distance replacing the
      candidate; `min_dist` starts at infinity, so the first other author is
      always taken (here: no candidate yet). */
  method NearestOther(i: nat) returns (nearest: nat)
    requires i < |CatalogKeys|
    ensures IsNearestOther(i, nearest)
  {
    var found := false;
    var minDist := 0.0;
    nearest := 0;
    var j := 0;
    while j < |CatalogKeys|
      invariant 0 <= j <= |CatalogKeys|
      invariant found <==> (j > 1 || (j == 1 && i != 0))
      invariant found ==> nearest < j && nearest != i && minDist == PairDistance(i, nearest)
      invariant found ==> forall k: nat :: k < j && k != i ==> minDist <= PairDistance(i, k)
      invariant found ==> forall k: nat :: k < nearest && k != i ==> minDist < PairDistance(i, k)
    {
      if j != i {
        var dist := PairSquares(i, j);
        if !found || dist < minDist {
          nearest, minDist := j, dist;
          found := true;
        }
      }
      j := j + 1;
    }
  }

  /** The nearest other author is unique. */
  lemma NearestOtherUnique(i: nat, k: nat, m: nat)
    requires i < |CatalogKeys| && IsNearestOther(i, k) && IsNearestOther(i, m)
    ensures k == m
  {
    assert PairDistance(i, k) <= PairDistance(i, m) <= PairDistance(i, k);
  }

  /** The nearest neighbour is apart from the author, and no farther than
      the farthest pair. */
  lemma NearestWithinMax(i: nat, k: nat, a: nat, b: nat)
    requires i < |CatalogKeys| && IsNearestOther(i, k) && IsMaxPair(a, b)
    ensures 0.0 < PairDistance(i, k) <= PairDistance(a, b)
  {
    PairsApart(i, k);
    PairDistanceSymmetric(i, k);
    if i < k {
      assert PairDistance(i, k) <= PairDistance(a, b);
    } else {
      assert PairDistance(k, i) <= PairDistance(a, b);
    }
  }
}
