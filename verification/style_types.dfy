/** Records of the author-style taxonomy: the eight dimensions, the three
    tiers, tier bundles, dimension specifications, author entries, and the
    error and result wrappers that the operations return. */
module StyleTypes {

  datatype Option<+T> = None | Some(value: T)

  /** The ValueError / KeyError conditions the operations raise. */
  datatype StyleError =
    | UnknownAuthor(id: string, available: seq<string>)  // "Unknown author '<id>'. Available: [...]"
    | EmptyBlendSpec                                      // "blend_spec must contain at least one author"
    | NonPositiveWeightSum                                // "Weights must sum to a positive value"
    | MissingCoordinate(key: string)                      // KeyError on a coordinates dict
    | NoStyleSource                                       // "Provide author_id, blend_spec, or custom_coordinates"

  datatype Result<+T> = Ok(value: T) | Err(error: StyleError)

  /** The eight style-space dimensions; `Id` gives each one's key string. */
  datatype Dim =
    | SyntacticDensity
    | SensoryConcreteness
    | OrnamentalRegister
    | TensionVisibility
    | TensionTemporality
    | RealityStability
    | Interiority
    | TemporalMode

  function Id(d: Dim): (s: string)
    ensures |s| > 0
  {
    match d
    case SyntacticDensity => "syntactic_density"
    case SensoryConcreteness => "sensory_concreteness"
    case OrnamentalRegister => "ornamental_register"
    case TensionVisibility => "tension_visibility"
    case TensionTemporality => "tension_temporality"
    case RealityStability => "reality_stability"
    case Interiority => "interiority"
    case TemporalMode => "temporal_mode"
  }

  const AllDims: set<Dim> := {SyntacticDensity, SensoryConcreteness, OrnamentalRegister, TensionVisibility,
                              TensionTemporality, RealityStability, Interiority, TemporalMode}

  lemma AllDimsComplete()
    ensures forall d: Dim :: d in AllDims
  {
    forall d: Dim
      ensures d in AllDims
    {
      match d
      case SyntacticDensity =>
      case SensoryConcreteness =>
      case OrnamentalRegister =>
      case TensionVisibility =>
      case TensionTemporality =>
      case RealityStability =>
      case Interiority =>
      case TemporalMode =>
    }
  }

  datatype Tier = Low | Mid | High

  function TierName(t: Tier): string
  {
    match t
    case Low => "low"
    case Mid => "mid"
    case High => "high"
  }

  /** The two output mappings of a dimension: "text_output_mapping" and "image_output_mapping". */
  datatype OutputKind = TextOutput | ImageOutput

  /** A descriptor value in a tier bundle: a string, an integer or a list of strings. */
  datatype Descriptor = Word(s: string) | Count(n: int) | Words(ws: seq<string>)

  /** The descriptor keys that tier bundles use; `AttributeName` gives each one's key string. */
  datatype Attribute =
    | AdjectiveDensity
    | ClauseDepth
    | CompositionalLayers
    | ConjunctionPreference
    | ContrastRatio
    | DepthPlanes
    | DetailDensity
    | Dof
    | EmotionalVocabulary
    | EpistemicMode
    | FigurativeFrequency
    | Foreshadowing
    | FramingDistance
    | LightingDrama
    | MaterialRendering
    | Modality
    | MotionState
    | NounRegister
    | Pacing
    | PhysicsAccuracy
    | PovMode
    | SentenceLength
    | SequenceImplication
    | ShowTellRatio
    | SpatialLogic
    | SurfaceComplexity
    | TemporalFraming
    | TemporalScope
    | TemporalTexture
    | Tense
    | TextureSpecificity
    | ThoughtAccess
    | VerbType
    | VocabularyRegister

  function AttributeName(a: Attribute): (s: string)
  {
    match a
    case AdjectiveDensity => "adjective_density"
    case ClauseDepth => "clause_depth"
    case CompositionalLayers => "compositional_layers"
    case ConjunctionPreference => "conjunction_preference"
    case ContrastRatio => "contrast_ratio"
    case DepthPlanes => "depth_planes"
    case DetailDensity => "detail_density"
    case Dof => "dof"
    case EmotionalVocabulary => "emotional_vocabulary"
    case EpistemicMode => "epistemic_mode"
    case FigurativeFrequency => "figurative_frequency"
    case Foreshadowing => "foreshadowing"
    case FramingDistance => "framing_distance"
    case LightingDrama => "lighting_drama"
    case MaterialRendering => "material_rendering"
    case Modality => "modality"
    case MotionState => "motion_state"
    case NounRegister => "noun_register"
    case Pacing => "pacing"
    case PhysicsAccuracy => "physics_accuracy"
    case PovMode => "pov_mode"
    case SentenceLength => "sentence_length"
    case SequenceImplication => "sequence_implication"
    case ShowTellRatio => "show_tell_ratio"
    case SpatialLogic => "spatial_logic"
    case SurfaceComplexity => "surface_complexity"
    case TemporalFraming => "temporal_framing"
    case TemporalScope => "temporal_scope"
    case TemporalTexture => "temporal_texture"
    case Tense => "tense"
    case TextureSpecificity => "texture_specificity"
    case ThoughtAccess => "thought_access"
    case VerbType => "verb_type"
    case VocabularyRegister => "vocabulary_register"
  }

  /** The keys ending in "_directive" that tier bundles use, by their stem. */
  datatype DirectiveKey =
    | GazeDirective
    | InteriorityDirective
    | RealityDirective
    | StructureDirective
    | SurfaceDirective
    | TempoDirective
    | TensionDirective
    | TimeDirective
    | VisualDirective
    | VocabularyDirective

  function DirectiveStem(k: DirectiveKey): string
  {
    match k
    case GazeDirective => "gaze"
    case InteriorityDirective => "interiority"
    case RealityDirective => "reality"
    case StructureDirective => "structure"
    case SurfaceDirective => "surface"
    case TempoDirective => "tempo"
    case TensionDirective => "tension"
    case TimeDirective => "time"
    case VisualDirective => "visual"
    case VocabularyDirective => "vocabulary"
  }

  /** The key string of a directive: its stem followed by "_directive". */
  function DirectiveName(k: DirectiveKey): (s: string)
    ensures EndsWith(s, "_directive")
  {
    var stem := DirectiveStem(k);
    assert (stem + "_directive")[|stem|..] == "_directive";
    stem + "_directive"
  }

  /** A descriptor key: it does not start with '_', the prefix of the
      annotation keys, and does not end in "_directive". */
  predicate PlainKey(s: string)
  {
    |s| > 0 && s[0] != '_' && !EndsWith(s, "_directive")
  }

  /** The last two characters of a key ending in "_directive". */
  lemma DirectiveSuffix(s: string)
    ensures EndsWith(s, "_directive") ==> s[|s| - 1] == 'e' && s[|s| - 2] == 'v'
  {
    if EndsWith(s, "_directive") {
      assert s[|s| - 10..][9] == s[|s| - 1] && s[|s| - 10..][8] == s[|s| - 2];
    }
  }

  lemma PlainKeyByChars(s: string)
    requires |s| >= 2 && s[0] != '_' && (s[|s| - 1] != 'e' || s[|s| - 2] != 'v')
    ensures PlainKey(s)
  {
    DirectiveSuffix(s);
  }

  /** Every descriptor key is plain, so a tier bundle holds exactly one key
      ending in "_directive" and no key that an annotation overwrites. */
  lemma AttributeNamePlain(a: Attribute)
    ensures PlainKey(AttributeName(a))
  {
    if a.AdjectiveDensity? || a.ClauseDepth? || a.CompositionalLayers? || a.ConjunctionPreference? || a.ContrastRatio? {
      AttributeNamePlain0(a);
    } else if a.DepthPlanes? || a.DetailDensity? || a.Dof? || a.EmotionalVocabulary? || a.EpistemicMode? {
      AttributeNamePlain1(a);
    } else if a.FigurativeFrequency? || a.Foreshadowing? || a.FramingDistance? || a.LightingDrama? || a.MaterialRendering? {
      AttributeNamePlain2(a);
    } else if a.Modality? || a.MotionState? || a.NounRegister? || a.Pacing? || a.PhysicsAccuracy? {
      AttributeNamePlain3(a);
    } else if a.PovMode? || a.SentenceLength? || a.SequenceImplication? || a.ShowTellRatio? || a.SpatialLogic? {
      AttributeNamePlain4(a);
    } else if a.SurfaceComplexity? || a.TemporalFraming? || a.TemporalScope? || a.TemporalTexture? || a.Tense? {
      AttributeNamePlain5(a);
    } else {
      AttributeNamePlain6(a);
    }
  }

  lemma AttributeNamePlain0(a: Attribute)
    requires a.AdjectiveDensity? || a.ClauseDepth? || a.CompositionalLayers? || a.ConjunctionPreference? || a.ContrastRatio?
    ensures PlainKey(AttributeName(a))
  {
    PlainKeyByChars(AttributeName(a));
  }

  lemma AttributeNamePlain1(a: Attribute)
    requires a.DepthPlanes? || a.DetailDensity? || a.Dof? || a.EmotionalVocabulary? || a.EpistemicMode?
    ensures PlainKey(AttributeName(a))
  {
    PlainKeyByChars(AttributeName(a));
  }

  lemma AttributeNamePlain2(a: Attribute)
    requires a.FigurativeFrequency? || a.Foreshadowing? || a.FramingDistance? || a.LightingDrama? || a.MaterialRendering?
    ensures PlainKey(AttributeName(a))
  {
    PlainKeyByChars(AttributeName(a));
  }

  lemma AttributeNamePlain3(a: Attribute)
    requires a.Modality? || a.MotionState? || a.NounRegister? || a.Pacing? || a.PhysicsAccuracy?
    ensures PlainKey(AttributeName(a))
  {
    PlainKeyByChars(AttributeName(a));
  }

  lemma AttributeNamePlain4(a: Attribute)
    requires a.PovMode? || a.SentenceLength? || a.SequenceImplication? || a.ShowTellRatio? || a.SpatialLogic?
    ensures PlainKey(AttributeName(a))
  {
    PlainKeyByChars(AttributeName(a));
  }

  lemma AttributeNamePlain5(a: Attribute)
    requires a.SurfaceComplexity? || a.TemporalFraming? || a.TemporalScope? || a.TemporalTexture? || a.Tense?
    ensures PlainKey(AttributeName(a))
  {
    PlainKeyByChars(AttributeName(a));
  }

  lemma AttributeNamePlain6(a: Attribute)
    requires a.TextureSpecificity? || a.ThoughtAccess? || a.VerbType? || a.VocabularyRegister?
    ensures PlainKey(AttributeName(a))
  {
    PlainKeyByChars(AttributeName(a));
  }

  /** A directive key does not start with '_' either. */
  lemma DirectiveNameNotAnnotation(k: DirectiveKey)
    ensures |DirectiveName(k)| > 0 && DirectiveName(k)[0] != '_'
  {
  }

  /** A tier bundle: its descriptor entries in dict order, then its one key
      ending in "_directive" together with that directive's sentence. */
  datatype TierBundle = TierBundle(descriptors: seq<(Attribute, Descriptor)>, directiveKey: DirectiveKey, directive: string)
  {
    /** The bundle's keys in dict order. */
    function Keys(): (ks: seq<string>)
      ensures |ks| == |descriptors| + 1 && ks[|descriptors|] == DirectiveName(directiveKey)
      ensures forall i :: 0 <= i < |descriptors| ==> ks[i] == AttributeName(descriptors[i].0)
    {
      seq(|descriptors|, i requires 0 <= i < |descriptors| => AttributeName(descriptors[i].0)) + [DirectiveName(directiveKey)]
    }
  }

  /** Exactly one key of a tier bundle ends in "_directive": the last one. */
  lemma OneDirectiveKey(b: TierBundle, i: nat)
    requires i < |b.Keys()|
    ensures EndsWith(b.Keys()[i], "_directive") <==> i == |b.descriptors|
  {
    if i < |b.descriptors| {
      AttributeNamePlain(b.descriptors[i].0);
    }
  }

  /** The "low" / "mid" / "high" bundles of one output mapping. */
  datatype TierTable = TierTable(low: TierBundle, mid: TierBundle, high: TierBundle)
  {
    function Get(t: Tier): TierBundle
    {
      match t
      case Low => low
      case Mid => mid
      case High => high
    }

    /** The three tiers are dicts with the same keys: the same descriptor
        names in the same order and the same directive key. */
    predicate Uniform()
    {
      |mid.descriptors| == |low.descriptors| && |high.descriptors| == |low.descriptors| &&
      (forall k :: 0 <= k < |low.descriptors| ==>
        mid.descriptors[k].0 == low.descriptors[k].0 && high.descriptors[k].0 == low.descriptors[k].0) &&
      mid.directiveKey == low.directiveKey && high.directiveKey == low.directiveKey
    }
  }

  /** In a uniform table the tier a value falls in never changes which keys
      the copied bundle has. */
  lemma UniformKeys(table: TierTable, t1: Tier, t2: Tier)
    requires table.Uniform()
    ensures table.Get(t1).Keys() == table.Get(t2).Keys()
  {
    var k1, k2 := table.Get(t1).Keys(), table.Get(t2).Keys();
    assert |k1| == |k2|;
    forall i | 0 <= i < |k1|
      ensures k1[i] == k2[i]
    {
    }
  }

  datatype DimensionSpec = DimensionSpec(
    id: string,
    name: string,
    description: string,
    lowLabel: string,
    highLabel: string,
    textOutputMapping: TierTable,
    imageOutputMapping: TierTable)
  {
    function Mapping(m: OutputKind): TierTable
    {
      match m
      case TextOutput => textOutputMapping
      case ImageOutput => imageOutputMapping
    }
  }

  /** A point in style-space: a coordinate per dimension key. */
  type Point = map<Dim, real>

  /** Every dimension has a coordinate. */
  predicate Complete(p: Point)
  {
    forall d: Dim :: d in p
  }

  /** Every coordinate lies in the closed unit interval. */
  predicate InUnitCube(p: Point)
  {
    forall d :: d in p ==> 0.0 <= p[d] <= 1.0
  }

  datatype TextVocabulary = TextVocabulary(
    conjunctions: seq<string>,
    sentenceStarters: seq<string>,
    forbidden: seq<string>,
    register: string,
    paragraphRhythm: string)

  datatype ImageVocabulary = ImageVocabulary(
    keywords: seq<string>,
    colorPalette: seq<string>,
    compositionalRules: seq<string>)

  datatype AuthorEntry = AuthorEntry(
    id: string,
    displayName: string,
    languageOrigin: string,
    coordinates: Point,
    signatureMoves: seq<string>,
    textVocabulary: TextVocabulary,
    imageVocabulary: ImageVocabulary)

  /** `s.endswith(suffix)` */
  predicate EndsWith(s: string, suffix: string)
  {
    |s| >= |suffix| && s[|s| - |suffix|..] == suffix
  }

  function Min(a: int, b: int): int { if a <= b then a else b }
  function Max(a: int, b: int): int { if a >= b then a else b }
}
