/** `generate_text_prompt` and `generate_image_prompt`: pick the style
    source among the three optional arguments, resolve it to a label and
    coordinates, extract the per-dimension bundles, collect their
    directives and compose the prompt. */
module Prompts {
  import opened StyleTypes
  import opened Taxonomy
  import opened Vocabulary
  import opened Strings
  import opened WeightOrder
  import opened Interpolation

  /** Which argument supplies the style. */
  datatype StyleSource = FromAuthor(id: string) | FromBlend(spec: Items) | FromCustom(coords: map<string, real>)

  /** The `if author_id: ... elif blend_spec: ... elif custom_coordinates:`
      chain; an absent argument is its empty value, which Python treats as
      false like None. */
  function SelectSource(authorId: string, blendSpec: Items, custom: map<string, real>): (r: Result<StyleSource>)
    ensures r.Err? <==> authorId == "" && blendSpec == [] && custom == map[]
    ensures r.Err? ==> r.error == NoStyleSource
    ensures r.Ok? ==> match r.value
      case FromAuthor(id) => id == authorId != ""
      case FromBlend(spec) => spec == blendSpec != []
      case FromCustom(coords) => coords == custom != map[]
  {
    if authorId != "" then Ok(FromAuthor(authorId))
    else if blendSpec != [] then Ok(FromBlend(blendSpec))
    else if custom != map[] then Ok(FromCustom(custom))
    else Err(NoStyleSource)
  }

  /** The first non-empty argument wins and the later ones are ignored,
      even though the functions ask for exactly one. */
  lemma FirstSourceWins(authorId: string, blendSpec: Items, custom: map<string, real>,
                        blendSpec': Items, custom': map<string, real>)
    ensures authorId != "" ==> SelectSource(authorId, blendSpec, custom) == SelectSource(authorId, blendSpec', custom')
    ensures authorId == "" && blendSpec != [] ==> SelectSource(authorId, blendSpec, custom) == SelectSource(authorId, blendSpec, custom')
  {
  }

  /** What the source resolves to: the label, the coordinates the
      extraction reads, the author's text vocabulary (author path only),
      the image vocabulary's keywords, colours and rules, and the
      signature moves. */
  datatype Resolved = Resolved(
    name: string,
    coords: Coordinates,
    textVocab: Option<TextVocabulary>,
    imageVocab: ImageVocabulary,
    moves: seq<string>)

  /** No keywords, no colours, no rules. */
  const NoImageVocabulary: ImageVocabulary := ImageVocabulary([], [], [])

  /** The author path: the catalog entry's display name, coordinates, text
      and image vocabularies and signature moves. */
  function AuthorResolved(i: nat): (res: Resolved)
    requires i < |CatalogKeys|
    ensures res.coords == AtPoint(CatalogPoint(i)) && res.textVocab.Some?
  {
    var e := Entry(i);
    Resolved(e.displayName, AtPoint(e.coordinates), Some(e.textVocabulary), e.imageVocabulary, e.signatureMoves)
  }

  /** The blend path: `img_vocab` is the blend's per-dimension image
      extraction, whose keys are dimension ids, so its "keywords",
      "color_palette" and "compositional_rules" lookups all fall back to
      empty lists. */
  function BlendResolved(b: Blend): Resolved
  {
    Resolved(b.blendDisplay, AtPoint(b.coordinates), None, NoImageVocabulary, b.signatureMoves)
  }

  function CustomResolved(custom: map<string, real>): Resolved
  {
    Resolved("Custom coordinates", Dict(custom), None, NoImageVocabulary, [])
  }

  /** r is what resolving src gives: an unknown author id and every
      rejection of `interpolate_styles` are passed on. */
  ghost predicate Resolves(src: StyleSource, r: Result<Resolved>)
  {
    match src
    case FromAuthor(id) =>
      if id in CatalogKeys then r == Ok(AuthorResolved(AuthorIndex(id)))
      else r == Err(UnknownAuthor(id, GetAuthorIds()))
    case FromBlend(spec) =>
      if spec == [] then r == Err(EmptyBlendSpec)
      else if WeightSum(spec) <= 0.0 then r == Err(NonPositiveWeightSum)
      else if !AllKnown(spec) then
        FirstUnknown(spec) < |spec| && r == Err(UnknownAuthor(spec[FirstUnknown(spec)].0, GetAuthorIds()))
      else exists b :: IsBlendOf(b, spec) && r == Ok(BlendResolved(b))
    case FromCustom(custom) => r == Ok(CustomResolved(custom))
  }

  /** The first branch of either generator that applies. */
  method Resolve(src: StyleSource) returns (r: Result<Resolved>)
    ensures Resolves(src, r)
  {
    match src
    case FromAuthor(id) =>
      var coords := GetCoordinates(id);
      if coords.Err? {
        return Err(coords.error);
      }
      r := ResolveAuthor(id);
    case FromBlend(spec) =>
      var blend := InterpolateStyles(spec);
      if blend.Err? {
        return Err(blend.error);
      }
      r := Ok(BlendResolved(blend.value));
    case FromCustom(custom) =>
      r := Ok(CustomResolved(custom));
  }

  /** `entry = AUTHOR_CATALOG[author_id]` for an id `get_coordinates` accepted. */
  method ResolveAuthor(id: string) returns (r: Result<Resolved>)
    requires GetCoordinates(id).Ok?
    ensures id in CatalogKeys && r == Ok(AuthorResolved(AuthorIndex(id)))
  {
    var entry := Lookup(id);
    var e := entry.value;
    r := Ok(Resolved(e.displayName, AtPoint(e.coordinates), Some(e.textVocabulary), e.imageVocabulary, e.signatureMoves));
  }

  /** The author and blend paths read a complete point, so their
      extraction never misses a key. */
  lemma ResolvedPointsComplete(src: StyleSource, res: Resolved)
    requires Resolves(src, Ok(res)) && !src.FromCustom?
    ensures forall d: Dim :: Read(res.coords, d).Some?
  {
    match src
    case FromAuthor(id) =>
      var i := AuthorIndex(id);
      CatalogPointWellFormed(i);
      PointComplete(CatalogPoint(i));
    case FromBlend(spec) =>
      var b :| IsBlendOf(b, spec) && Ok(res) == Ok(BlendResolved(b));
      PointComplete(b.coordinates);
  }

  /** A complete point has a value for every dimension. */
  lemma PointComplete(p: Point)
    requires Complete(p)
    ensures forall d: Dim :: Read(AtPoint(p), d).Some?
  {
  }


  /** The value of one dict item when its key ends in "_directive" and the
      value is a string, as a list of zero or one sentences. */
  function DirectiveOf(item: (string, Value)): seq<string>
  {
    if EndsWith(item.0, "_directive") && item.1.Str? then [item.1.s] else []
  }

  /** The directive sentences among the items, in dict order. */
  function DirectivesOf(items: seq<(string, Value)>): seq<string>
  {
    if |items| == 0 then [] else DirectivesOf(items[..|items| - 1]) + DirectiveOf(items[|items| - 1])
  }

  /** Items without a directive key add nothing. */
  lemma {:induction false} NoDirectivesBetween(items: seq<(string, Value)>, k: nat, n: nat)
    requires k <= n <= |items|
    requires forall j :: k <= j < n ==> !EndsWith(items[j].0, "_directive")
    ensures DirectivesOf(items[..n]) == DirectivesOf(items[..k])
    decreases n
  {
    if n > k {
      NoDirectivesBetween(items, k, n - 1);
      assert items[..n][..n - 1] == items[..n - 1];
    }
  }

  /** No annotation key ends in "_directive". */
  lemma AnnotationKeysPlain()
    ensures forall j :: 0 <= j < |AnnotationKeys| ==> !EndsWith(AnnotationKeys[j], "_directive")
  {
    DirectiveSuffix("_dimension");
    DirectiveSuffix("_value");
    DirectiveSuffix("_tier");
    DirectiveSuffix("_boundary_proximity");
  }

  /** An annotated bundle holds exactly one directive: the bundle's own. */
  lemma AnnotatedDirectives(ab: AnnotatedBundle)
    ensures DirectivesOf(ab.Items()) == [ab.bundle.directive]
  {
    var items := ab.Items();
    var m := |ab.bundle.descriptors|;
    DescriptorItemsPlain(ab);
    DirectiveItem(ab);
    AnnotationItemsPlain(ab);
    assert items[..|items|] == items;
  }

  /** The descriptor items come first and hold no directive. */
  lemma DescriptorItemsPlain(ab: AnnotatedBundle)
    ensures DirectivesOf(ab.Items()[..|ab.bundle.descriptors|]) == []
  {
    var items := ab.Items();
    var m := |ab.bundle.descriptors|;
    forall j | 0 <= j < m
      ensures !EndsWith(items[j].0, "_directive")
    {
      assert items[j].0 == ab.bundle.Keys()[j];
      OneDirectiveKey(ab.bundle, j);
    }
    NoDirectivesBetween(items, 0, m);
  }

  /** The item after the descriptors is the bundle's directive. */
  lemma DirectiveItem(ab: AnnotatedBundle)
    ensures DirectivesOf(ab.Items()[..|ab.bundle.descriptors| + 1]) ==
            DirectivesOf(ab.Items()[..|ab.bundle.descriptors|]) + [ab.bundle.directive]
  {
    var items := ab.Items();
    var m := |ab.bundle.descriptors|;
    assert items[m] == (DirectiveName(ab.bundle.directiveKey), Str(ab.bundle.directive));
    assert items[..m + 1][..m] == items[..m];
  }

  /** The four annotation items that close the dict hold no directive. */
  lemma AnnotationItemsPlain(ab: AnnotatedBundle)
    ensures DirectivesOf(ab.Items()[..|ab.Items()|]) == DirectivesOf(ab.Items()[..|ab.bundle.descriptors| + 1])
  {
    var items := ab.Items();
    var m := |ab.bundle.descriptors|;
    AnnotationKeysPlain();
    forall j | m + 1 <= j < |items|
      ensures !EndsWith(items[j].0, "_directive")
    {
      assert items[j].0 == AnnotationKeys[j - m - 1];
    }
    NoDirectivesBetween(items, m + 1, |items|);
  }

  /** The directive of each dimension's bundle, in PARAMETER_NAMES order. */
  function DirectivesInOrder(vocab: map<Dim, AnnotatedBundle>): (ds: seq<string>)
    requires forall d: Dim :: d in vocab
    ensures |ds| == |Dims| && forall k :: 0 <= k < |Dims| ==> ds[k] == vocab[Dims[k]].bundle.directive
  {
    seq(|Dims|, k requires 0 <= k < |Dims| => vocab[Dims[k]].bundle.directive)
  }

  /** The nested loop that collects `directive_parts`: over PARAMETER_NAMES,
      and within each dimension over its bundle's items. */
  method DirectiveParts(vocab: map<Dim, AnnotatedBundle>) returns (parts: seq<string>)
    requires forall d: Dim :: d in vocab
    ensures parts == DirectivesInOrder(vocab)
  {
    parts := [];
    var i := 0;
    while i < |Dims|
      invariant 0 <= i <= |Dims|
      invariant parts == DirectivesInOrder(vocab)[..i]
    {
      var found := DirectivesIn(vocab[Dims[i]].Items());
      AnnotatedDirectives(vocab[Dims[i]]);
      parts := parts + found;
      i := i + 1;
    }
  }

  /** The inner loop: `for k, v in tier_data.items()`, keeping the string
      values of the keys that end in "_directive". */
  method DirectivesIn(items: seq<(string, Value)>) returns (found: seq<string>)
    ensures found == DirectivesOf(items)
  {
    found := [];
    var k := 0;
    while k < |items|
      invariant 0 <= k <= |items|
      invariant found == DirectivesOf(items[..k])
    {
      assert items[..k + 1][..k] == items[..k];
      if EndsWith(items[k].0, "_directive") && items[k].1.Str? {
        found := found + [items[k].1.s];
      }
      k := k + 1;
    }
    assert items[..|items|] == items;
  }


  /** `moves_text`: at most the first five moves, or nothing without moves. */
  function MovesText(moves: seq<string>): (text: string)
    ensures text == "" <==> |moves| == 0
    ensures |moves| > 0 ==> |text| > 16 && text[..16] == "Key techniques: " && text[|text| - 1] == '.'
  {
    if |moves| == 0 then "" else "Key techniques: " + Join("; ", moves[..Min(5, |moves|)]) + "."
  }

  /** Moves text is empty exactly when there are no moves, and a sixth move
      or later never shows. */
  lemma MovesTextShape(moves: seq<string>)
    ensures MovesText(moves) == "" <==> |moves| == 0
    ensures MovesText(moves) == MovesText(moves[..Min(5, |moves|)])
  {
    if |moves| > 0 {
      assert MovesText(moves)[0] == 'K';
      assert moves[..Min(5, |moves|)][..Min(5, Min(5, |moves|))] == moves[..Min(5, |moves|)];
    }
  }

  /** `vocab_text`: register, paragraph rhythm and forbidden words, on the
      author path only. */
  function VocabText(textVocab: Option<TextVocabulary>): (text: string)
    ensures text == "" <==> textVocab.None?
    ensures textVocab.Some? ==> |text| > 10 && text[..10] == "Register: "
  {
    match textVocab
    case None => ""
    case Some(v) =>
      "Register: " + v.register + ". " +
      "Paragraph rhythm: " + v.paragraphRhythm + ". " +
      "Avoid these words: " + Join(", ", v.forbidden) + ". "
  }

  /** `"[Style: <source>]"` */
  function StyleTag(source: string): (tag: string)
    ensures |tag| > 0 && !IsSpace(tag[0]) && !IsSpace(tag[|tag| - 1])
  {
    "[Style: " + source + "]"
  }

  /** `full_prompt`: the style tag, the directive, the techniques and the
      vocabulary constraints, stripped. The tag always survives stripping,
      and nothing else comes before it. */
  function FullPrompt(source: string, master: string, moves: string, vocab: string): (prompt: string)
    ensures |prompt| >= |StyleTag(source)| && prompt[..|StyleTag(source)|] == StyleTag(source)
    ensures !IsSpace(prompt[|prompt| - 1])
  {
    var rest := " " + master + " " + moves + " " + vocab;
    StripKeepsPrefix(StyleTag(source), rest);
    Strip(StyleTag(source) + rest)
  }

  /** The dict `generate_text_prompt` returns. */
  datatype TextPrompt = TextPrompt(
    source: string,
    coordinates: Coordinates,
    masterDirective: string,
    signatureMoves: string,
    vocabularyConstraints: string,
    fullPrompt: string,
    perDimensionDirectives: map<Dim, AnnotatedBundle>)

  /** t is the text prompt of res. */
  predicate IsTextPrompt(t: TextPrompt, res: Resolved)
  {
    t.source == res.name && t.coordinates == res.coords &&
    IsExtraction(t.perDimensionDirectives, res.coords, TextOutput) &&
    t.masterDirective == Join(" ", DirectivesInOrder(t.perDimensionDirectives)) &&
    t.signatureMoves == MovesText(res.moves) &&
    t.vocabularyConstraints == VocabText(res.textVocab) &&
    t.fullPrompt == FullPrompt(t.source, t.masterDirective, t.signatureMoves, t.vocabularyConstraints)
  }

  /** The outcome of extracting and composing from res: the first missing
      coordinate key is an error, otherwise the prompt. */
  predicate ComposedFrom<T>(res: Resolved, r: Result<T>, ok: T -> bool)
  {
    (r.Ok? <==> forall d: Dim :: Read(res.coords, d).Some?) &&
    (r.Err? ==> FirstMissing(res.coords, 0) < |Dims| &&
                r.error == MissingCoordinate(ParameterNames[FirstMissing(res.coords, 0)])) &&
    (r.Ok? ==> ok(r.value))
  }

  /** r is what a generator returns for the selected source sel, given
      that a resolved source is composed as `composed` says. */
  ghost predicate Generated<T>(sel: Result<StyleSource>, r: Result<T>, composed: (Resolved, Result<T>) -> bool)
  {
    if sel.Err? then r == Err(sel.error)
    else exists res :: (Resolves(sel.value, res) &&
      (res.Err? ==> r == Err(res.error)) &&
      (res.Ok? ==> composed(res.value, r)))
  }

  /** `generate_text_prompt(author_id, blend_spec, custom_coordinates)` */
  method GenerateTextPrompt(authorId: string, blendSpec: Items, custom: map<string, real>) returns (r: Result<TextPrompt>)
    ensures Generated(SelectSource(authorId, blendSpec, custom), r,
                      (res, t) => ComposedFrom(res, t, p => IsTextPrompt(p, res)))
  {
    var sel := SelectSource(authorId, blendSpec, custom);
    if sel.Err? {
      return Err(sel.error);
    }
    var res := Resolve(sel.value);
    if res.Err? {
      r := Err(res.error);
      assert Resolves(sel.value, res);
      return;
    }
    r := ComposeText(res.value);
    assert Resolves(sel.value, res);
  }

  /** Extraction and composition of the text prompt. */
  method ComposeText(res: Resolved) returns (r: Result<TextPrompt>)
    ensures ComposedFrom(res, r, p => IsTextPrompt(p, res))
  {
    var dims := Extract(res.coords, TextOutput);
    if dims.Err? {
      return Err(dims.error);
    }
    var t := AssembleText(res, dims.value);
    r := Ok(t);
  }

  /** The prompt strings once `dim_directives` is extracted. */
  method AssembleText(res: Resolved, vocab: map<Dim, AnnotatedBundle>) returns (t: TextPrompt)
    requires IsExtraction(vocab, res.coords, TextOutput)
    ensures IsTextPrompt(t, res)
  {
    var parts := DirectiveParts(vocab);
    var master := Join(" ", parts);
    var movesText := MovesText(res.moves);
    var vocabText := VocabText(res.textVocab);
    t := TextPrompt(res.name, res.coords, master, movesText, vocabText,
                    FullPrompt(res.name, master, movesText, vocabText), vocab);
  }

  /** The dict `generate_image_prompt` returns. */
  datatype ImagePrompt = ImagePrompt(
    source: string,
    coordinates: Coordinates,
    prompt: string,
    keywords: seq<string>,
    colorPalette: seq<string>,
    compositionalRules: seq<string>,
    perDimensionVisuals: map<Dim, AnnotatedBundle>)

  /** `prompt_parts`: the modifier if any, at most eight keywords, the first
      four colours as one part if there are colours, and at most six visual
      directives. */
  function PromptParts(modifier: string, keywords: seq<string>, colors: seq<string>, directives: seq<string>): (parts: seq<string>)
    ensures |parts| <= 16
    ensures modifier != "" ==> |parts| > 0 && parts[0] == modifier
    ensures |parts| >= Min(6, |directives|) && parts[|parts| - Min(6, |directives|)..] == directives[..Min(6, |directives|)]
  {
    (if modifier == "" then [] else [modifier]) +
    keywords[..Min(8, |keywords|)] +
    (if colors == [] then [] else ["color palette: " + Join(", ", colors[..Min(4, |colors|)])]) +
    directives[..Min(6, |directives|)]
  }

  /** Without keywords and colours (the blend and custom paths) the prompt
      is the modifier and the visual directives of the first six
      dimensions. */
  lemma PromptPartsWithoutVocabulary(modifier: string, vocab: map<Dim, AnnotatedBundle>)
    requires forall d: Dim :: d in vocab
    ensures PromptParts(modifier, [], [], DirectivesInOrder(vocab)) ==
            (if modifier == "" then [] else [modifier]) + DirectivesInOrder(vocab)[..6]
  {
    ParameterNamesMatchDimensions();
  }

  /** t is the image prompt of res with the given style modifier. */
  predicate IsImagePrompt(t: ImagePrompt, res: Resolved, modifier: string)
  {
    t.source == res.name && t.coordinates == res.coords &&
    IsExtraction(t.perDimensionVisuals, res.coords, ImageOutput) &&
    t.keywords == res.imageVocab.keywords &&
    t.colorPalette == res.imageVocab.colorPalette &&
    t.compositionalRules == res.imageVocab.compositionalRules &&
    t.prompt == Join(", ", PromptParts(modifier, t.keywords, t.colorPalette, DirectivesInOrder(t.perDimensionVisuals)))
  }

  /** `generate_image_prompt(author_id, blend_spec, custom_coordinates, style_modifier)` */
  method GenerateImagePrompt(authorId: string, blendSpec: Items, custom: map<string, real>, modifier: string)
    returns (r: Result<ImagePrompt>)
    ensures Generated(SelectSource(authorId, blendSpec, custom), r,
                      (res, t) => ComposedFrom(res, t, p => IsImagePrompt(p, res, modifier)))
  {
    var sel := SelectSource(authorId, blendSpec, custom);
    if sel.Err? {
      return Err(sel.error);
    }
    var res := Resolve(sel.value);
    if res.Err? {
      r := Err(res.error);
      assert Resolves(sel.value, res);
      return;
    }
    r := ComposeImage(res.value, modifier);
    assert Resolves(sel.value, res);
  }

  /** Extraction and composition of the image prompt. */
  method ComposeImage(res: Resolved, modifier: string) returns (r: Result<ImagePrompt>)
    ensures ComposedFrom(res, r, p => IsImagePrompt(p, res, modifier))
  {
    var dims := Extract(res.coords, ImageOutput);
    if dims.Err? {
      return Err(dims.error);
    }
    var visual := DirectiveParts(dims.value);
    var v := res.imageVocab;
    var parts := PromptParts(modifier, v.keywords, v.colorPalette, visual);
    r := Ok(ImagePrompt(res.name, res.coords, Join(", ", parts), v.keywords, v.colorPalette,
                        v.compositionalRules, dims.value));
  }
}
