/** The taxonomy's constant tables: the eight dimensions with their tier
    bundles (DIMENSIONS), the canonical dimension order (PARAMETER_NAMES),
    the catalog of eleven author styles (AUTHOR_CATALOG), and the catalog
    lookups. Nothing here is ever changed after it is built. */
module Taxonomy {
  import opened StyleTypes
  import opened PyRound

  /** PARAMETER_NAMES: the canonical order of the dimension keys. */
  const ParameterNames: seq<string> := [
    "syntactic_density",
    "sensory_concreteness",
    "ornamental_register",
    "tension_visibility",
    "tension_temporality",
    "reality_stability",
    "interiority",
    "temporal_mode"
  ]

  /** The dimensions in canonical order. */
  const Dims: seq<Dim> := [
    SyntacticDensity,
    SensoryConcreteness,
    OrnamentalRegister,
    TensionVisibility,
    TensionTemporality,
    RealityStability,
    Interiority,
    TemporalMode
  ]

  /** DIMENSIONS: each dimension's id, name, description, end labels and its
      two output mappings. The entry stored under a key carries that key as
      its "id", and in both mappings the three tiers have the same keys. */
  function Dimension(d: Dim): (spec: DimensionSpec)
    ensures spec.id == Id(d)
    ensures spec.textOutputMapping.Uniform() && spec.imageOutputMapping.Uniform()
  {
    match d
    case SyntacticDensity =>
      DimensionSpec("syntactic_density", "Syntactic Density", "syntactic_density.description",
        "paratactic / flat", "hypotactic / deeply nested",
        TextOutputMapping(d), ImageOutputMapping(d))
    case SensoryConcreteness =>
      DimensionSpec("sensory_concreteness", "Sensory Concreteness", "sensory_concreteness.description",
        "abstract / conceptual", "concrete / sensory",
        TextOutputMapping(d), ImageOutputMapping(d))
    case OrnamentalRegister =>
      DimensionSpec("ornamental_register", "Ornamental Register", "ornamental_register.description",
        "stripped / anti-ornamental", "lush / baroque",
        TextOutputMapping(d), ImageOutputMapping(d))
    case TensionVisibility =>
      DimensionSpec("tension_visibility", "Tension Visibility", "tension_visibility.description",
        "submerged / iceberg", "externalized / explicit",
        TextOutputMapping(d), ImageOutputMapping(d))
    case TensionTemporality =>
      DimensionSpec("tension_temporality", "Tension Temporality", "tension_temporality.description",
        "ruptural / episodic", "accumulative / inevitable",
        TextOutputMapping(d), ImageOutputMapping(d))
    case RealityStability =>
      DimensionSpec("reality_stability", "Reality Stability", "reality_stability.description",
        "unstable / paradoxical", "stable / verifiable",
        TextOutputMapping(d), ImageOutputMapping(d))
    case Interiority =>
      DimensionSpec("interiority", "Interiority", "interiority.description",
        "exterior / behavioral", "interior / consciousness",
        TextOutputMapping(d), ImageOutputMapping(d))
    case TemporalMode =>
      DimensionSpec("temporal_mode", "Temporal Mode", "temporal_mode.description",
        "eternal present / episodic", "cyclical / exhaustive",
        TextOutputMapping(d), ImageOutputMapping(d))
  }

  /** The "text_output_mapping" tier bundles of each dimension. */
  function TextOutputMapping(d: Dim): (table: TierTable)
    ensures table.Uniform()
  {
    match d
    case SyntacticDensity =>
      TierTable(
        TierBundle([(SentenceLength, Word("short")), (ClauseDepth, Count(1)), (ConjunctionPreference, Words(["and", "then", "but"]))], StructureDirective, "syntactic_density.text.low"),
        TierBundle([(SentenceLength, Word("variable")), (ClauseDepth, Count(2)), (ConjunctionPreference, Words(["which", "although", "because", "while"]))], StructureDirective, "syntactic_density.text.mid"),
        TierBundle([(SentenceLength, Word("long")), (ClauseDepth, Count(4)), (ConjunctionPreference, Words(["wherein", "notwithstanding", "such that", "inasmuch as"]))], StructureDirective, "syntactic_density.text.high"))
    case SensoryConcreteness =>
      TierTable(
        TierBundle([(NounRegister, Word("abstract")), (VerbType, Word("conceptual"))], VocabularyDirective, "sensory_concreteness.text.low"),
        TierBundle([(NounRegister, Word("mixed")), (VerbType, Word("balanced"))], VocabularyDirective, "sensory_concreteness.text.mid"),
        TierBundle([(NounRegister, Word("concrete")), (VerbType, Word("physical"))], VocabularyDirective, "sensory_concreteness.text.high"))
    case OrnamentalRegister =>
      TierTable(
        TierBundle([(AdjectiveDensity, Word("minimal")), (FigurativeFrequency, Word("rare")), (VocabularyRegister, Word("common"))], SurfaceDirective, "ornamental_register.text.low"),
        TierBundle([(AdjectiveDensity, Word("selective")), (FigurativeFrequency, Word("occasional")), (VocabularyRegister, Word("educated"))], SurfaceDirective, "ornamental_register.text.mid"),
        TierBundle([(AdjectiveDensity, Word("abundant")), (FigurativeFrequency, Word("dense")), (VocabularyRegister, Word("rare/archaic"))], SurfaceDirective, "ornamental_register.text.high"))
    case TensionVisibility =>
      TierTable(
        TierBundle([(ShowTellRatio, Word("show")), (EmotionalVocabulary, Word("absent"))], TensionDirective, "tension_visibility.text.low"),
        TierBundle([(ShowTellRatio, Word("balanced")), (EmotionalVocabulary, Word("restrained"))], TensionDirective, "tension_visibility.text.mid"),
        TierBundle([(ShowTellRatio, Word("tell")), (EmotionalVocabulary, Word("explicit"))], TensionDirective, "tension_visibility.text.high"))
    case TensionTemporality =>
      TierTable(
        TierBundle([(Pacing, Word("episodic")), (Foreshadowing, Word("none"))], TempoDirective, "tension_temporality.text.low"),
        TierBundle([(Pacing, Word("building")), (Foreshadowing, Word("subtle"))], TempoDirective, "tension_temporality.text.mid"),
        TierBundle([(Pacing, Word("inevitable")), (Foreshadowing, Word("heavy"))], TempoDirective, "tension_temporality.text.high"))
    case RealityStability =>
      TierTable(
        TierBundle([(EpistemicMode, Word("unreliable")), (Modality, Word("impossible"))], RealityDirective, "reality_stability.text.low"),
        TierBundle([(EpistemicMode, Word("liminal")), (Modality, Word("conditional"))], RealityDirective, "reality_stability.text.mid"),
        TierBundle([(EpistemicMode, Word("reliable")), (Modality, Word("declarative"))], RealityDirective, "reality_stability.text.high"))
    case Interiority =>
      TierTable(
        TierBundle([(PovMode, Word("external")), (ThoughtAccess, Word("none"))], InteriorityDirective, "interiority.text.low"),
        TierBundle([(PovMode, Word("limited")), (ThoughtAccess, Word("filtered"))], InteriorityDirective, "interiority.text.mid"),
        TierBundle([(PovMode, Word("deep")), (ThoughtAccess, Word("immersive"))], InteriorityDirective, "interiority.text.high"))
    case TemporalMode =>
      TierTable(
        TierBundle([(Tense, Word("present")), (TemporalScope, Word("moment"))], TimeDirective, "temporal_mode.text.low"),
        TierBundle([(Tense, Word("variable")), (TemporalScope, Word("span"))], TimeDirective, "temporal_mode.text.mid"),
        TierBundle([(Tense, Word("omniscient_temporal")), (TemporalScope, Word("generations"))], TimeDirective, "temporal_mode.text.high"))
  }

  /** The "image_output_mapping" tier bundles of each dimension. */
  function ImageOutputMapping(d: Dim): (table: TierTable)
    ensures table.Uniform()
  {
    match d
    case SyntacticDensity =>
      TierTable(
        TierBundle([(CompositionalLayers, Count(1)), (DepthPlanes, Word("flat"))], VisualDirective, "syntactic_density.image.low"),
        TierBundle([(CompositionalLayers, Count(3)), (DepthPlanes, Word("moderate"))], VisualDirective, "syntactic_density.image.mid"),
        TierBundle([(CompositionalLayers, Count(5)), (DepthPlanes, Word("deep"))], VisualDirective, "syntactic_density.image.high"))
    case SensoryConcreteness =>
      TierTable(
        TierBundle([(MaterialRendering, Word("diagrammatic")), (TextureSpecificity, Word("minimal"))], VisualDirective, "sensory_concreteness.image.low"),
        TierBundle([(MaterialRendering, Word("suggested")), (TextureSpecificity, Word("moderate"))], VisualDirective, "sensory_concreteness.image.mid"),
        TierBundle([(MaterialRendering, Word("photographic")), (TextureSpecificity, Word("explicit"))], VisualDirective, "sensory_concreteness.image.high"))
    case OrnamentalRegister =>
      TierTable(
        TierBundle([(SurfaceComplexity, Word("clean")), (DetailDensity, Word("minimal"))], VisualDirective, "ornamental_register.image.low"),
        TierBundle([(SurfaceComplexity, Word("detailed")), (DetailDensity, Word("moderate"))], VisualDirective, "ornamental_register.image.mid"),
        TierBundle([(SurfaceComplexity, Word("ornate")), (DetailDensity, Word("maximal"))], VisualDirective, "ornamental_register.image.high"))
    case TensionVisibility =>
      TierTable(
        TierBundle([(LightingDrama, Word("even")), (ContrastRatio, Word("low"))], VisualDirective, "tension_visibility.image.low"),
        TierBundle([(LightingDrama, Word("directional")), (ContrastRatio, Word("moderate"))], VisualDirective, "tension_visibility.image.mid"),
        TierBundle([(LightingDrama, Word("chiaroscuro")), (ContrastRatio, Word("extreme"))], VisualDirective, "tension_visibility.image.high"))
    case TensionTemporality =>
      TierTable(
        TierBundle([(TemporalFraming, Word("frozen_instant")), (SequenceImplication, Word("none"))], VisualDirective, "tension_temporality.image.low"),
        TierBundle([(TemporalFraming, Word("implied_sequence")), (SequenceImplication, Word("moderate"))], VisualDirective, "tension_temporality.image.mid"),
        TierBundle([(TemporalFraming, Word("durational")), (SequenceImplication, Word("heavy"))], VisualDirective, "tension_temporality.image.high"))
    case RealityStability =>
      TierTable(
        TierBundle([(SpatialLogic, Word("impossible")), (PhysicsAccuracy, Word("violated"))], VisualDirective, "reality_stability.image.low"),
        TierBundle([(SpatialLogic, Word("liminal")), (PhysicsAccuracy, Word("mostly_correct"))], VisualDirective, "reality_stability.image.mid"),
        TierBundle([(SpatialLogic, Word("correct")), (PhysicsAccuracy, Word("accurate"))], VisualDirective, "reality_stability.image.high"))
    case Interiority =>
      TierTable(
        TierBundle([(FramingDistance, Word("wide")), (Dof, Word("deep"))], GazeDirective, "interiority.image.low"),
        TierBundle([(FramingDistance, Word("medium")), (Dof, Word("moderate"))], GazeDirective, "interiority.image.mid"),
        TierBundle([(FramingDistance, Word("close")), (Dof, Word("shallow"))], GazeDirective, "interiority.image.high"))
    case TemporalMode =>
      TierTable(
        TierBundle([(MotionState, Word("frozen")), (TemporalTexture, Word("instantaneous"))], VisualDirective, "temporal_mode.image.low"),
        TierBundle([(MotionState, Word("implied")), (TemporalTexture, Word("durational"))], VisualDirective, "temporal_mode.image.mid"),
        TierBundle([(MotionState, Word("composite")), (TemporalTexture, Word("layered"))], VisualDirective, "temporal_mode.image.high"))
  }

  /** The keys of AUTHOR_CATALOG, in dict order. */
  const CatalogKeys: seq<string> := [
    "hemingway",
    "de_sade",
    "le_guin",
    "didion",
    "lovecraft",
    "borges",
    "murakami",
    "marquez",
    "kafka",
    "shonagon",
    "lispector"
  ]

  /** Each entry's "id" field. */
  const CatalogIds: seq<string> := [
    "hemingway",
    "de_sade",
    "le_guin",
    "didion",
    "lovecraft",
    "borges",
    "murakami",
    "marquez",
    "kafka",
    "shonagon",
    "lispector"
  ]

  /** Each entry's "display_name". */
  const DisplayNames: seq<string> := [
    "Hemingway-esque",
    "Marquis de Sade-esque",
    "Ursula K. Le Guin-esque",
    "Joan Didion-esque",
    "Lovecraft-esque",
    "Borges-esque",
    "Murakami-esque",
    "M\U{00E1}rquez-esque",
    "Kafka-esque",
    "Sei Sh\U{014D}nagon-esque",
    "Clarice Lispector-esque"
  ]

  /** Each entry's "language_origin". */
  const LanguageOrigins: seq<string> := [
    "English (American)",
    "French",
    "English (American)",
    "English (American)",
    "English (American)",
    "Spanish (Argentine)",
    "Japanese",
    "Spanish (Colombian)",
    "German (Czech)",
    "Japanese (Classical)",
    "Brazilian Portuguese"
  ]

  /** Each entry's "coordinates", every one of which has two decimals, in hundredths. */
  const CatalogHundredths: seq<map<Dim, int>> := [
    map[SyntacticDensity := 10, SensoryConcreteness := 90, OrnamentalRegister := 5, TensionVisibility := 10, TensionTemporality := 25, RealityStability := 90, Interiority := 15, TemporalMode := 20],
    map[SyntacticDensity := 95, SensoryConcreteness := 50, OrnamentalRegister := 90, TensionVisibility := 95, TensionTemporality := 80, RealityStability := 60, Interiority := 20, TemporalMode := 90],
    map[SyntacticDensity := 50, SensoryConcreteness := 55, OrnamentalRegister := 45, TensionVisibility := 50, TensionTemporality := 60, RealityStability := 40, Interiority := 50, TemporalMode := 55],
    map[SyntacticDensity := 45, SensoryConcreteness := 70, OrnamentalRegister := 15, TensionVisibility := 30, TensionTemporality := 40, RealityStability := 95, Interiority := 60, TemporalMode := 40],
    map[SyntacticDensity := 85, SensoryConcreteness := 40, OrnamentalRegister := 85, TensionVisibility := 80, TensionTemporality := 85, RealityStability := 15, Interiority := 70, TemporalMode := 75],
    map[SyntacticDensity := 80, SensoryConcreteness := 15, OrnamentalRegister := 60, TensionVisibility := 55, TensionTemporality := 70, RealityStability := 10, Interiority := 80, TemporalMode := 70],
    map[SyntacticDensity := 25, SensoryConcreteness := 80, OrnamentalRegister := 20, TensionVisibility := 20, TensionTemporality := 20, RealityStability := 20, Interiority := 55, TemporalMode := 25],
    map[SyntacticDensity := 75, SensoryConcreteness := 75, OrnamentalRegister := 80, TensionVisibility := 70, TensionTemporality := 95, RealityStability := 30, Interiority := 40, TemporalMode := 85],
    map[SyntacticDensity := 65, SensoryConcreteness := 35, OrnamentalRegister := 10, TensionVisibility := 35, TensionTemporality := 30, RealityStability := 25, Interiority := 35, TemporalMode := 30],
    map[SyntacticDensity := 15, SensoryConcreteness := 95, OrnamentalRegister := 40, TensionVisibility := 25, TensionTemporality := 15, RealityStability := 85, Interiority := 65, TemporalMode := 10],
    map[SyntacticDensity := 55, SensoryConcreteness := 60, OrnamentalRegister := 55, TensionVisibility := 65, TensionTemporality := 50, RealityStability := 50, Interiority := 95, TemporalMode := 45]
  ]

  /** Each entry's "signature_moves", most salient first. */
  const SignatureMoves: seq<seq<string>> := [
    ["hemingway.move1", "hemingway.move2", "hemingway.move3", "hemingway.move4", "hemingway.move5"],
    ["de_sade.move1", "de_sade.move2", "de_sade.move3", "de_sade.move4", "de_sade.move5"],
    ["le_guin.move1", "le_guin.move2", "le_guin.move3", "le_guin.move4", "le_guin.move5"],
    ["didion.move1", "didion.move2", "didion.move3", "didion.move4", "didion.move5"],
    ["lovecraft.move1", "lovecraft.move2", "lovecraft.move3", "lovecraft.move4", "lovecraft.move5"],
    ["borges.move1", "borges.move2", "borges.move3", "borges.move4", "borges.move5"],
    ["murakami.move1", "murakami.move2", "murakami.move3", "murakami.move4", "murakami.move5"],
    ["marquez.move1", "marquez.move2", "marquez.move3", "marquez.move4", "marquez.move5"],
    ["kafka.move1", "kafka.move2", "kafka.move3", "kafka.move4", "kafka.move5"],
    ["shonagon.move1", "shonagon.move2", "shonagon.move3", "shonagon.move4", "shonagon.move5"],
    ["lispector.move1", "lispector.move2", "lispector.move3", "lispector.move4", "lispector.move5"]
  ]

  /** Each entry's "text_vocabulary". */
  const TextVocabularies: seq<TextVocabulary> := [
    TextVocabulary(["and", "but", "then"],
      ["He", "She", "It was", "There was", "The"],
      ["very", "really", "beautiful", "magnificent", "incredible", "amazing"],
      "hemingway.register", "hemingway.paragraph_rhythm"),
    TextVocabulary(["moreover", "furthermore", "notwithstanding", "whereupon", "inasmuch as"],
      ["It is necessary that", "One must observe", "Let us now consider", "The principle demands"],
      ["nice", "pleasant", "comfortable", "gentle"],
      "de_sade.register", "de_sade.paragraph_rhythm"),
    TextVocabulary(["and", "though", "because", "as if", "while"],
      ["The", "In the", "There was a", "She had", "It was not"],
      ["awesome", "literally", "basically", "epic"],
      "le_guin.register", "le_guin.paragraph_rhythm"),
    TextVocabulary(["and", "but", "which", "although"],
      ["I", "We", "The", "It was", "In the", "That was the"],
      ["incredible", "unbelievable", "indescribable", "breathtaking"],
      "didion.register", "didion.paragraph_rhythm"),
    TextVocabulary(["and yet", "for", "though", "whilst", "such that", "in consequence of which"],
      ["It was then that", "I cannot describe", "Of the", "There are things", "What I saw"],
      ["cute", "nice", "fun", "awesome", "cool"],
      "lovecraft.register", "lovecraft.paragraph_rhythm"),
    TextVocabulary(["perhaps", "or rather", "that is to say", "in other words", "which is to say"],
      ["It is said that", "The curious reader", "According to", "One might conjecture", "The universe"],
      ["simple", "straightforward", "obvious", "clearly"],
      "borges.register", "borges.paragraph_rhythm"),
    TextVocabulary(["and", "but", "so", "then"],
      ["I", "She", "The", "It was a", "For some reason"],
      ["magnificent", "extraordinary", "awe-inspiring", "spectacular"],
      "murakami.register", "murakami.paragraph_rhythm"),
    TextVocabulary(["and", "who", "which", "where", "until", "as though"],
      ["Many years later", "It was", "The day", "Colonel", "No one"],
      ["basically", "literally", "actually", "arguably"],
      "marquez.register", "marquez.paragraph_rhythm"),
    TextVocabulary(["however", "nevertheless", "in spite of", "which", "although"],
      ["He", "It was", "The", "Someone", "There was no"],
      ["magical", "wonderful", "extraordinary", "miraculous"],
      "kafka.register", "kafka.paragraph_rhythm"),
    TextVocabulary(["and", "\U{2014}", ";"],
      ["Things that", "In spring", "It is", "A", "The", "One"],
      ["basically", "essentially", "in conclusion", "furthermore", "moreover"],
      "shonagon.register", "shonagon.paragraph_rhythm"),
    TextVocabulary(["but", "and yet", "or rather", "\U{2014}", "that is", "no"],
      ["She", "It was", "What she", "The", "But", "No\U{2014}"],
      ["simply", "obviously", "naturally", "of course"],
      "lispector.register", "lispector.paragraph_rhythm")
  ]

  /** Each entry's "image_vocabulary". */
  const ImageVocabularies: seq<ImageVocabulary> := [
    ImageVocabulary(["hemingway.keyword1", "hemingway.keyword2", "hemingway.keyword3", "hemingway.keyword4", "hemingway.keyword5", "hemingway.keyword6", "hemingway.keyword7", "hemingway.keyword8"],
      ["ochre", "bone white", "dried blood", "sun-bleached", "khaki", "deep shadow"],
      ["hemingway.rule1", "hemingway.rule2", "hemingway.rule3", "hemingway.rule4"]),
    ImageVocabulary(["de_sade.keyword1", "de_sade.keyword2", "de_sade.keyword3", "de_sade.keyword4", "de_sade.keyword5", "de_sade.keyword6", "de_sade.keyword7", "de_sade.keyword8"],
      ["crimson", "gold leaf", "deep velvet", "marble white", "candle flame", "shadow black"],
      ["de_sade.rule1", "de_sade.rule2", "de_sade.rule3", "de_sade.rule4"]),
    ImageVocabulary(["le_guin.keyword1", "le_guin.keyword2", "le_guin.keyword3", "le_guin.keyword4", "le_guin.keyword5", "le_guin.keyword6", "le_guin.keyword7", "le_guin.keyword8"],
      ["earth tones", "deep forest green", "stone grey", "warm amber", "twilight blue", "weathered wood"],
      ["le_guin.rule1", "le_guin.rule2", "le_guin.rule3", "le_guin.rule4"]),
    ImageVocabulary(["didion.keyword1", "didion.keyword2", "didion.keyword3", "didion.keyword4", "didion.keyword5", "didion.keyword6", "didion.keyword7", "didion.keyword8"],
      ["bleached white", "smog amber", "pool blue", "asphalt grey", "jacaranda purple", "desert tan"],
      ["didion.rule1", "didion.rule2", "didion.rule3", "didion.rule4"]),
    ImageVocabulary(["lovecraft.keyword1", "lovecraft.keyword2", "lovecraft.keyword3", "lovecraft.keyword4", "lovecraft.keyword5", "lovecraft.keyword6", "lovecraft.keyword7", "lovecraft.keyword8"],
      ["deep ocean green", "phosphorescent", "basalt black", "sickly yellow-green", "void purple", "corpse grey"],
      ["lovecraft.rule1", "lovecraft.rule2", "lovecraft.rule3", "lovecraft.rule4"]),
    ImageVocabulary(["borges.keyword1", "borges.keyword2", "borges.keyword3", "borges.keyword4", "borges.keyword5", "borges.keyword6", "borges.keyword7", "borges.keyword8"],
      ["parchment", "library mahogany", "ink blue", "mirror silver", "candlelight amber", "mathematical white"],
      ["borges.rule1", "borges.rule2", "borges.rule3", "borges.rule4"]),
    ImageVocabulary(["murakami.keyword1", "murakami.keyword2", "murakami.keyword3", "murakami.keyword4", "murakami.keyword5", "murakami.keyword6", "murakami.keyword7", "murakami.keyword8"],
      ["warm interior amber", "cold blue exterior", "vinyl black", "kitchen white", "neon reflection", "twilight grey"],
      ["murakami.rule1", "murakami.rule2", "murakami.rule3", "murakami.rule4"]),
    ImageVocabulary(["marquez.keyword1", "marquez.keyword2", "marquez.keyword3", "marquez.keyword4", "marquez.keyword5", "marquez.keyword6", "marquez.keyword7", "marquez.keyword8"],
      ["tropical green", "marigold yellow", "terracotta", "butterfly blue", "aged sepia", "blood orange"],
      ["marquez.rule1", "marquez.rule2", "marquez.rule3", "marquez.rule4"]),
    ImageVocabulary(["kafka.keyword1", "kafka.keyword2", "kafka.keyword3", "kafka.keyword4", "kafka.keyword5", "kafka.keyword6", "kafka.keyword7", "kafka.keyword8"],
      ["institutional beige", "corridor green", "fluorescent white", "document manila", "ink stamp blue", "grey suit"],
      ["kafka.rule1", "kafka.rule2", "kafka.rule3", "kafka.rule4"]),
    ImageVocabulary(["shonagon.keyword1", "shonagon.keyword2", "shonagon.keyword3", "shonagon.keyword4", "shonagon.keyword5", "shonagon.keyword6", "shonagon.keyword7", "shonagon.keyword8"],
      ["cherry blossom pink", "ink black", "rice paper white", "moss green", "persimmon orange", "dawn grey"],
      ["shonagon.rule1", "shonagon.rule2", "shonagon.rule3", "shonagon.rule4"]),
    ImageVocabulary(["lispector.keyword1", "lispector.keyword2", "lispector.keyword3", "lispector.keyword4", "lispector.keyword5", "lispector.keyword6", "lispector.keyword7", "lispector.keyword8"],
      ["skin tones", "interior shadow", "egg white", "blood warmth", "kitchen tile", "afternoon gold"],
      ["lispector.rule1", "lispector.rule2", "lispector.rule3", "lispector.rule4"])
  ]

  /** The catalog has eleven entries, its keys are distinct, and each
      entry's "id" field is its key. */
  lemma CatalogKeysShape()
    ensures |CatalogKeys| == |CatalogIds| == |CatalogHundredths| == 11
    ensures CatalogIds == CatalogKeys
    ensures forall i, j :: 0 <= i < j < |CatalogKeys| ==> CatalogKeys[i] != CatalogKeys[j]
  {
  }

  /** Every other column of the catalog has one value per key. */
  lemma CatalogColumnsShape()
    ensures |DisplayNames| == |LanguageOrigins| == |SignatureMoves| == |TextVocabularies| == |ImageVocabularies| == 11
  {
    NamesShape();
    MovesShape();
    VocabulariesShape();
  }

  lemma NamesShape()
    ensures |DisplayNames| == |LanguageOrigins| == 11
  {
  }

  lemma MovesShape()
    ensures |SignatureMoves| == 11
  {
  }

  lemma VocabulariesShape()
    ensures |TextVocabularies| == |ImageVocabularies| == 11
  {
  }

  /** A coordinate stored in hundredths, as the real it denotes. */
  function ToPoint(h: map<Dim, int>): (p: Point)
    ensures p.Keys == h.Keys
    ensures forall d :: d in h ==> p[d] == h[d] as real / 100.0
  {
    map d | d in h :: h[d] as real / 100.0
  }

  /** Each entry's "coordinates". */
  function CatalogPoint(i: nat): Point
    requires i < |CatalogHundredths|
  {
    ToPoint(CatalogHundredths[i])
  }

  /** AUTHOR_CATALOG[CatalogKeys[i]], assembled from the columns above. */
  function Entry(i: nat): (e: AuthorEntry)
    requires i < |CatalogKeys|
    ensures e.id == CatalogKeys[i] && e.coordinates == CatalogPoint(i)
  {
    CatalogKeysShape();
    CatalogColumnsShape();
    AuthorEntry(CatalogIds[i], DisplayNames[i], LanguageOrigins[i], CatalogPoint(i),
                SignatureMoves[i], TextVocabularies[i], ImageVocabularies[i])
  }

  /** A point with a coordinate for each dimension, all of them in [0, 1]
      and with at most four decimals. */
  predicate WellFormedPoint(p: Point)
  {
    Complete(p) && InUnitCube(p) && forall d :: d in p ==> OnGrid(p[d], 4)
  }

  /** Every entry stores a whole number of hundredths between 0 and 100 for
      each dimension. */
  lemma CatalogHundredthsInRange(i: nat, d: Dim)
    requires i < |CatalogHundredths|
    ensures d in CatalogHundredths[i] && 0 <= CatalogHundredths[i][d] <= 100
  {
  }

  /** Every catalog point is well formed. */
  lemma CatalogPointWellFormed(i: nat)
    requires i < |CatalogHundredths|
    ensures WellFormedPoint(CatalogPoint(i))
  {
    var h := CatalogHundredths[i];
    forall d: Dim
      ensures d in CatalogPoint(i) && 0.0 <= CatalogPoint(i)[d] <= 1.0 && OnGrid(CatalogPoint(i)[d], 4)
    {
      CatalogHundredthsInRange(i, d);
      HundredthsOnGrid(h[d]);
    }
  }

  /** No two entries share a syntactic density, so no two catalog points coincide. */
  lemma SyntacticDensityDistinct(i: nat, j: nat)
    requires i < |CatalogHundredths| && j < |CatalogHundredths| && i != j
    ensures CatalogPoint(i)[SyntacticDensity] != CatalogPoint(j)[SyntacticDensity]
  {
    var column := [10, 95, 50, 45, 85, 80, 25, 75, 65, 15, 55];
    assert CatalogHundredths[i][SyntacticDensity] == column[i];
    assert CatalogHundredths[j][SyntacticDensity] == column[j];
  }

  /** The first two entries and their syntactic densities. */
  lemma HemingwayAndDeSadeEntries()
    ensures |CatalogKeys| > 1 && CatalogKeys[0] == "hemingway" && CatalogKeys[1] == "de_sade"
    ensures SyntacticDensity in CatalogPoint(0) && CatalogPoint(0)[SyntacticDensity] == 0.1
    ensures SyntacticDensity in CatalogPoint(1) && CatalogPoint(1)[SyntacticDensity] == 0.95
  {
  }

  /** Every entry has exactly five signature moves. */
  lemma FiveSignatureMoves()
    ensures forall i :: 0 <= i < |SignatureMoves| ==> |SignatureMoves[i]| == 5
  {
  }

  /** The position of a dimension in the canonical order. */
  function Position(d: Dim): (i: nat)
    ensures i < |Dims| && Dims[i] == d
  {
    match d
    case SyntacticDensity => 0
    case SensoryConcreteness => 1
    case OrnamentalRegister => 2
    case TensionVisibility => 3
    case TensionTemporality => 4
    case RealityStability => 5
    case Interiority => 6
    case TemporalMode => 7
  }

  /** Position inverts indexing into Dims. */
  lemma PositionOfIndex(i: nat)
    requires i < |Dims|
    ensures Position(Dims[i]) == i
  {
  }

  /** PARAMETER_NAMES lists eight distinct keys, the dimension keys in the
      canonical order, and every dimension occurs in it exactly once.
      DIMENSIONS is the function `Dimension` over the `Dim` enum rather than
      an ordered dict; `Dims` is written in the order of the DIMENSIONS keys
      (author_style_taxonomy.py lines 71, 107, 142, 182, 216, 252, 292 and
      330), so this is also "PARAMETER_NAMES is the key order of DIMENSIONS". */
  lemma ParameterNamesMatchDimensions()
    ensures |ParameterNames| == |Dims| == 8
    ensures forall i :: 0 <= i < 8 ==> ParameterNames[i] == Id(Dims[i])
    ensures forall i, j :: 0 <= i < j < 8 ==> ParameterNames[i] != ParameterNames[j] && Dims[i] != Dims[j]
    ensures forall d: Dim :: d in Dims
  {
    forall d: Dim
      ensures d in Dims
    {
      assert Dims[Position(d)] == d;
    }
  }

  /** `Id` is one-to-one, so reading a dict by `Id(d)` reads dimension d. */
  lemma IdInjective(d1: Dim, d2: Dim)
    requires Id(d1) == Id(d2)
    ensures d1 == d2
  {
    ParameterNamesMatchDimensions();
    assert ParameterNames[Position(d1)] == ParameterNames[Position(d2)];
  }

  /** `get_author_ids`: the catalog keys in catalog order. */
  function GetAuthorIds(): (ids: seq<string>)
    ensures |ids| == 11
    ensures forall i, j :: 0 <= i < j < |ids| ==> ids[i] != ids[j]
    ensures ids == CatalogKeys
  {
    CatalogKeysShape();
    CatalogKeys
  }

  /** Position of the first occurrence of `id` in `keys`, or |keys| when absent. */
  function IndexOf(keys: seq<string>, id: string): (i: nat)
    ensures i <= |keys|
    ensures i < |keys| ==> keys[i] == id
    ensures forall j :: 0 <= j < i ==> keys[j] != id
    decreases |keys|
  {
    if |keys| == 0 then 0
    else if keys[0] == id then 0
    else 1 + IndexOf(keys[1..], id)
  }

  /** The catalog position of a known id. */
  function AuthorIndex(id: string): (i: nat)
    requires id in CatalogKeys
    ensures i < |CatalogKeys| == |CatalogHundredths| && CatalogKeys[i] == id
    ensures forall j :: 0 <= j < |CatalogKeys| && CatalogKeys[j] == id ==> j == i
  {
    CatalogKeysShape();
    IndexOf(CatalogKeys, id)
  }

  /** The id at position i is found at position i. */
  lemma AuthorIndexOfKey(i: nat)
    requires i < |CatalogKeys|
    ensures CatalogKeys[i] in CatalogKeys && AuthorIndex(CatalogKeys[i]) == i
  {
    CatalogKeysShape();
  }

  /** `AUTHOR_CATALOG.get(author_id)`: the entry stored under the key, if any. */
  function Lookup(id: string): (r: Option<AuthorEntry>)
    ensures r.Some? <==> id in GetAuthorIds()
    ensures r.Some? ==> r.value.id == id
    ensures forall i :: 0 <= i < |CatalogKeys| && CatalogKeys[i] == id ==> r == Some(Entry(i))
  {
    if id in CatalogKeys then Some(Entry(AuthorIndex(id))) else None
  }

  /** `get_coordinates`: the stored coordinates of a known author; an unknown
      id is reported together with every available id. */
  function GetCoordinates(id: string): (r: Result<Point>)
    ensures r.Ok? <==> id in GetAuthorIds()
    ensures r.Err? ==> r.error == UnknownAuthor(id, GetAuthorIds())
    ensures forall i :: 0 <= i < |CatalogKeys| && CatalogKeys[i] == id ==> r == Ok(CatalogPoint(i))
    ensures r.Ok? ==> WellFormedPoint(r.value)
  {
    if id in CatalogKeys then
      var i := AuthorIndex(id);
      CatalogPointWellFormed(i);
      Ok(CatalogPoint(i))
    else Err(UnknownAuthor(id, GetAuthorIds()))
  }

  /** `get_all_coordinates`: every catalog key mapped to that entry's coordinates. */
  function GetAllCoordinates(): (m: map<string, Point>)
    ensures forall id :: id in m <==> id in GetAuthorIds()
  {
    map id | id in CatalogKeys :: CatalogPoint(AuthorIndex(id))
  }

  /** Each entry of `get_all_coordinates()` is what `get_coordinates` returns
      for that id, the coordinates of the catalog entry. */
  lemma AllCoordinatesAgree(i: nat)
    requires i < |CatalogKeys|
    ensures CatalogKeys[i] in GetAllCoordinates()
    ensures GetAllCoordinates()[CatalogKeys[i]] == CatalogPoint(i)
    ensures GetCoordinates(CatalogKeys[i]) == Ok(GetAllCoordinates()[CatalogKeys[i]])
  {
    AuthorIndexOfKey(i);
  }
}
