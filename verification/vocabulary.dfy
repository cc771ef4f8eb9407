/** Vocabulary extraction: the tier of a coordinate, its proximity to the
    tier's lower boundary, the annotated tier bundle of one dimension
    (`_interpolate_tier_vocabularies`) and the per-dimension extraction
    over PARAMETER_NAMES (`_extract_text_vocabulary`,
    `_extract_image_vocabulary`). */
module Vocabulary {
  import opened StyleTypes
  import opened PyRound
  import opened Taxonomy

  /** `_get_tier`: below 0.33 is low, below 0.67 mid, anything else high. */
  function GetTier(value: real): (t: Tier)
    ensures t == Low <==> value < 0.33
    ensures t == High <==> 0.67 <= value
  {
    if value < 0.33 then Low else if value < 0.67 then Mid else High
  }

  function Rank(t: Tier): nat
  {
    match t
    case Low => 0
    case Mid => 1
    case High => 2
  }

  /** A larger value never falls in a lower tier. */
  lemma GetTierMonotone(v: real, w: real)
    requires v <= w
    ensures Rank(GetTier(v)) <= Rank(GetTier(w))
  {
  }

  /** The lower boundary of each tier and the width the proximity divides by. */
  function TierStart(t: Tier): real
  {
    match t
    case Low => 0.0
    case Mid => 0.33
    case High => 0.67
  }

  function TierWidth(t: Tier): (w: real)
    ensures w > 0.0
  {
    match t
    case Low => 0.33
    case Mid => 0.34
    case High => 0.33
  }

  /** "_boundary_proximity": how far into its tier the value lies, as a
      fraction of the tier's width, rounded to three decimals. */
  function BoundaryProximity(value: real): (p: real)
    ensures p == Round((value - TierStart(GetTier(value))) / TierWidth(GetTier(value)), 3)
    ensures OnGrid(p, 3)
  {
    if value < 0.33 then Round(value / 0.33, 3)
    else if value < 0.67 then Round((value - 0.33) / 0.34, 3)
    else Round((value - 0.67) / 0.33, 3)
  }

  lemma FractionInUnit(x: real, w: real)
    requires w > 0.0 && 0.0 <= x <= w
    ensures 0.0 <= x / w <= 1.0
  {
  }

  /** For a coordinate in [0, 1] the proximity lies in [0, 1]. */
  lemma ProximityInUnit(value: real)
    requires 0.0 <= value <= 1.0
    ensures 0.0 <= BoundaryProximity(value) <= 1.0
  {
    var t := GetTier(value);
    FractionInUnit(value - TierStart(t), TierWidth(t));
    ZeroAndOneOnGrid(3);
    RoundWithin((value - TierStart(t)) / TierWidth(t), 0.0, 1.0, 3);
  }

  /** The proximity is zero exactly at the start of the tier, ... */
  lemma ProximityAtTierStart(t: Tier)
    ensures GetTier(TierStart(t)) == t && BoundaryProximity(TierStart(t)) == 0.0
  {
    ZeroAndOneOnGrid(3);
    RoundOnGrid(0.0, 3);
  }

  /** ... and grows with the value inside one tier. */
  lemma ProximityMonotone(v: real, w: real)
    requires v <= w && GetTier(v) == GetTier(w)
    ensures BoundaryProximity(v) <= BoundaryProximity(w)
  {
    var t := GetTier(v);
    DivideMonotone(v - TierStart(t), w - TierStart(t), TierWidth(t));
    RoundMonotone((v - TierStart(t)) / TierWidth(t), (w - TierStart(t)) / TierWidth(t), 3);
  }

  lemma DivideMonotone(x: real, y: real, w: real)
    requires x <= y && w > 0.0
    ensures x / w <= y / w
  {
  }

  /** A value of a Python dict entry in an annotated bundle. */
  datatype Value = Str(s: string) | Int(n: int) | Num(x: real) | Strs(ss: seq<string>)

  function DescriptorValue(v: Descriptor): Value
  {
    match v
    case Word(s) => Str(s)
    case Count(n) => Int(n)
    case Words(ws) => Strs(ws)
  }

  /** The keys of the four annotations, each starting with '_'. */
  const AnnotationKeys: seq<string> := ["_dimension", "_value", "_tier", "_boundary_proximity"]

  /** The dict `_interpolate_tier_vocabularies` returns: a copy of the tier
      bundle of the value's tier, with four annotations added. */
  datatype AnnotatedBundle = AnnotatedBundle(
    bundle: TierBundle,
    dimension: string,
    value: real,
    tier: Tier,
    boundaryProximity: real)
  {
    /** The dict's items in insertion order. */
    function Items(): (items: seq<(string, Value)>)
      ensures |items| == |bundle.descriptors| + 1 + |AnnotationKeys|
      ensures forall i :: 0 <= i < |items| ==> items[i].0 == Keys()[i]
    {
      seq(|bundle.descriptors|, i requires 0 <= i < |bundle.descriptors| =>
            (AttributeName(bundle.descriptors[i].0), DescriptorValue(bundle.descriptors[i].1))) +
      [(DirectiveName(bundle.directiveKey), Str(bundle.directive)),
       ("_dimension", Str(dimension)), ("_value", Num(value)), ("_tier", Str(TierName(tier))),
       ("_boundary_proximity", Num(boundaryProximity))]
    }

    function Keys(): seq<string>
    {
      bundle.Keys() + AnnotationKeys
    }
  }

  /** The annotations overwrite nothing: no key of a tier bundle is an annotation key. */
  lemma AnnotationsAreFresh(b: TierBundle)
    ensures forall k :: k in b.Keys() ==> k !in AnnotationKeys
  {
    forall i | 0 <= i < |b.Keys()|
      ensures b.Keys()[i] !in AnnotationKeys
    {
      if i < |b.descriptors| {
        AttributeNamePlain(b.descriptors[i].0);
      } else {
        DirectiveNameNotAnnotation(b.directiveKey);
      }
    }
  }

  /** `_interpolate_tier_vocabularies(dim_id, value, output_type)`: the
      bundle of the value's tier in the dimension's output mapping, annotated. */
  function InterpolateTier(d: Dim, value: real, kind: OutputKind): (ab: AnnotatedBundle)
    ensures ab.bundle == Dimension(d).Mapping(kind).Get(GetTier(value))
  {
    Annotate(Dimension(d).Mapping(kind), d, value)
  }

  /** The annotated bundle for `value` taken from one dimension's tier table. */
  function Annotate(table: TierTable, d: Dim, value: real): (ab: AnnotatedBundle)
    ensures ab.tier == GetTier(value) && ab.bundle == table.Get(ab.tier)
    ensures ab.dimension == Id(d)
    ensures ab.value == Round(value, 3) && value - 0.0005 <= ab.value <= value + 0.0005
    ensures ab.boundaryProximity == BoundaryProximity(value)
  {
    var tier := GetTier(value);
    assert Scale(3) == 1000.0 by { assert Pow10(3) == 1000; }
    AnnotatedBundle(table.Get(tier), Id(d), Round(value, 3), tier, BoundaryProximity(value))
  }

  /** Where the extractors read coordinates from: a dict keyed by the
      dimension ids, or a point. */
  datatype Coordinates = Dict(coords: map<string, real>) | AtPoint(p: Point)

  /** `coordinates[dim_id]`, if present. */
  function Read(c: Coordinates, d: Dim): Option<real>
  {
    match c
    case Dict(coords) => if Id(d) in coords then Some(coords[Id(d)]) else None
    case AtPoint(p) => if d in p then Some(p[d]) else None
  }

  /** The index, in PARAMETER_NAMES order, of the first dimension the input
      has no value for, or 8 when it has them all. */
  function FirstMissing(src: Coordinates, from: nat): (i: nat)
    requires from <= |Dims|
    ensures from <= i <= |Dims|
    ensures forall j :: from <= j < i ==> Read(src, Dims[j]).Some?
    ensures i < |Dims| ==> Read(src, Dims[i]).None?
    decreases |Dims| - from
  {
    if from == |Dims| || Read(src, Dims[from]).None? then from else FirstMissing(src, from + 1)
  }

  /** `_extract_text_vocabulary` (kind TextOutput) and
      `_extract_image_vocabulary` (kind ImageOutput): the annotated bundle of
      every dimension, read under the dimension's key; the first key missing
      in PARAMETER_NAMES order is a KeyError. */
  method Extract(src: Coordinates, kind: OutputKind) returns (r: Result<map<Dim, AnnotatedBundle>>)
    ensures r.Ok? <==> forall d: Dim :: Read(src, d).Some?
    ensures r.Ok? ==> IsExtraction(r.value, src, kind)
    ensures r.Err? ==> FirstMissing(src, 0) < |Dims| && r.error == MissingCoordinate(ParameterNames[FirstMissing(src, 0)])
  {
    r := ExtractFrom(src, d => Dimension(d).Mapping(kind));
  }

  /** v holds, for every dimension, the annotated bundle of the value src has for it. */
  predicate IsExtraction(v: map<Dim, AnnotatedBundle>, src: Coordinates, kind: OutputKind)
  {
    forall d: Dim :: Read(src, d).Some? && d in v && v[d] == InterpolateTier(d, Read(src, d).value, kind)
  }

  /** The extraction on a dict of coordinates. */
  method ExtractVocabulary(coords: map<string, real>, kind: OutputKind) returns (r: Result<map<Dim, AnnotatedBundle>>)
    ensures r.Ok? <==> forall d: Dim :: Id(d) in coords
    ensures r.Ok? ==> forall d: Dim :: Id(d) in coords && d in r.value && r.value[d] == InterpolateTier(d, coords[Id(d)], kind)
    ensures r.Err? ==> var i := FirstMissing(Dict(coords), 0);
      i < |Dims| && Id(Dims[i]) !in coords && r.error == MissingCoordinate(ParameterNames[i])
  {
    r := Extract(Dict(coords), kind);
    if r.Ok? {
      forall d: Dim
        ensures Id(d) in coords && r.value[d] == InterpolateTier(d, coords[Id(d)], kind)
      {
        assert Read(Dict(coords), d).Some?;
      }
    }
  }

  /** The same extraction on a complete point, where no key is missing. */
  method ExtractAtPoint(p: Point, kind: OutputKind) returns (v: map<Dim, AnnotatedBundle>)
    requires Complete(p)
    ensures forall d: Dim :: d in v && v[d] == InterpolateTier(d, p[d], kind)
  {
    var r := Extract(AtPoint(p), kind);
    v := r.value;
  }

  /** The loop of both extractors, over the tier tables of one output mapping. */
  method ExtractFrom(src: Coordinates, tables: Dim -> TierTable) returns (r: Result<map<Dim, AnnotatedBundle>>)
    ensures r.Ok? <==> forall d: Dim :: Read(src, d).Some?
    ensures r.Ok? ==> forall d: Dim :: Read(src, d).Some? && d in r.value && r.value[d] == Annotate(tables(d), d, Read(src, d).value)
    ensures r.Err? ==> FirstMissing(src, 0) < |Dims| && r.error == MissingCoordinate(ParameterNames[FirstMissing(src, 0)])
  {
    ParameterNamesMatchDimensions();
    var result: map<Dim, AnnotatedBundle> := map[];
    var n := 0;
    while n < |Dims|
      invariant 0 <= n <= |Dims|
      invariant forall j :: 0 <= j < n ==> Read(src, Dims[j]).Some?
      invariant forall d :: d in result <==> Position(d) < n
      invariant forall d :: d in result ==> Read(src, d).Some? && result[d] == Annotate(tables(d), d, Read(src, d).value)
    {
      var p := Dims[n];
      PositionOfIndex(n);
      var value := Read(src, p);
      if value.None? {
        assert FirstMissing(src, 0) == n;
        return Err(MissingCoordinate(ParameterNames[n]));
      }
      result := result[p := Annotate(tables(p), p, value.value)];
      n := n + 1;
    }
    r := Ok(result);
  }

  /** The worked examples at the tier boundaries: 0.33 starts the mid tier
      with proximity 0, 0.67 starts the high tier with proximity 0, and the
      top of the unit interval is the far end of the high tier. */
  lemma TierBoundaries()
    ensures GetTier(0.33) == Mid && BoundaryProximity(0.33) == 0.0
    ensures GetTier(0.67) == High && BoundaryProximity(0.67) == 0.0
    ensures GetTier(0.3299) == Low && GetTier(1.0) == High && BoundaryProximity(1.0) == 1.0
  {
    ProximityAtTierStart(Mid);
    ProximityAtTierStart(High);
    ZeroAndOneOnGrid(3);
    RoundOnGrid(1.0, 3);
  }
}
