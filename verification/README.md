# Author style space, in Dafny

This project models the deterministic core of `author-style-mcp`. That server places literary
authors in an eight-dimensional "style space" whose dimensions are:

- syntactic density
- sensory concreteness
- ornamental register
- tension visibility
- tension temporality
- reality stability
- interiority
- temporal mode

Each dimension runs from 0 to 1, is cut into a low, a mid and a high tier, and every tier carries
a text and an image vocabulary. The catalog holds eleven authors. Each author has:

- coordinates;
- five signature moves;
- a text vocabulary (register, paragraph rhythm, forbidden words);
- an image vocabulary (keywords, colour palette, compositional rules).

On this data the server does the following:

- measures the distance between two authors, with or without perceptual weights;
- blends several authors by normalised weights into a new point, and names the nearest catalog
  author to it;
- maps a point to its tier vocabularies, annotated with the dimension, the rounded value, the tier
  and the position inside the tier;
- composes a text prompt or an image prompt from an author, a blend or a custom point;
- answers catalog queries: the listing, one profile, the pair of authors furthest apart, and an
  author's nearest neighbour.

Modules, following the two source files:

- `StyleTypes`: the records of the taxonomy (dimension specs, tier bundles, vocabularies, catalog
  entries), plus `Result`/`Option`.
- `Taxonomy`: `DIMENSIONS`, `AUTHOR_CATALOG` and `PARAMETER_NAMES` as constants, and the lookups
  on them.
- `PyRound`: Python's `round(x, n)` (round half to even) on exact reals.
- `Strings`: `str.join`, `str.strip` and integer formatting.
- `WeightedSums`: the sums and weighted sums behind blending.
- `WeightOrder`: the stable sort by descending weight that `sorted(..., key=lambda x: -x[1])`
  performs.
- `Distance`, `Vocabulary`, `Interpolation`, `Prompts`, `Queries`: the sections of
  `author_style_operations.py`.

Loops in the source are methods with loop invariants. Each is proved against a specification
function or predicate, and lemmas state what that function promises.

## Model

| member | source | states |
|---|---|---|
| Taxonomy.ParameterNamesMatchDimensions | src/author_style_mcp/author_style_taxonomy.py:893-902 | `PARAMETER_NAMES` lists the eight dimension ids, once each, in the order the operations visit them, and every dimension appears |
| Taxonomy.Dimension | src/author_style_mcp/author_style_taxonomy.py:70-368 | the entry stored under a dimension's key has that key as its `id`, and in both of its output mappings the three tiers have the same keys |
| Taxonomy.TextOutputMapping | src/author_style_mcp/author_style_taxonomy.py:70-368 | every dimension's `text_output_mapping` gives its low, mid and high tiers the same descriptor names in the same order and the same directive key |
| Taxonomy.ImageOutputMapping | src/author_style_mcp/author_style_taxonomy.py:70-368 | the same for every `image_output_mapping` |
| Taxonomy.IdInjective | src/author_style_mcp/author_style_taxonomy.py:70-368 | distinct dimensions have distinct string ids |
| Taxonomy.CatalogPointWellFormed | src/author_style_mcp/author_style_taxonomy.py:375-886 | every catalog author has all eight coordinates, each in [0, 1] and exact to four decimals |
| Taxonomy.FiveSignatureMoves | src/author_style_mcp/author_style_taxonomy.py:375-886 | every catalog author has exactly five signature moves |
| Taxonomy.SyntacticDensityDistinct | src/author_style_mcp/author_style_taxonomy.py:375-886 | no two catalog authors share a syntactic-density value, so no two catalog points coincide |
| Taxonomy.Entry | src/author_style_mcp/author_style_taxonomy.py:375-886 | the i-th catalog entry has the i-th key as its id and the i-th catalog point as its coordinates |
| Taxonomy.GetAuthorIds | src/author_style_mcp/author_style_taxonomy.py:924-926 | the eleven catalog keys, in dict order and without repetition |
| Taxonomy.AuthorIndex | src/author_style_mcp/author_style_taxonomy.py:375-886 | a known id sits at exactly one catalog position |
| Taxonomy.AuthorIndexOfKey | src/author_style_mcp/author_style_taxonomy.py:375-886 | looking up the id stored at position i gives back position i |
| Taxonomy.Lookup | src/author_style_mcp/author_style_taxonomy.py:909-916 | an entry is found if and only if the id is a catalog key, and it is the entry stored under that id |
| Taxonomy.GetCoordinates | src/author_style_mcp/author_style_taxonomy.py:909-916 | succeeds if and only if the id is known, with that author's well-formed point; otherwise fails with the unknown id and the list of available ids |
| Taxonomy.GetAllCoordinates | src/author_style_mcp/author_style_taxonomy.py:919-921 | holds exactly the known ids |
| Taxonomy.AllCoordinatesAgree | src/author_style_mcp/author_style_taxonomy.py:919-921 | each author's coordinates in the combined map equal that author's point and what `get_coordinates` returns |
| Distance.PerceptualWeight | src/author_style_mcp/author_style_operations.py:48-57 | every perceptual weight lies in [0.8, 1.2] |
| Distance.GapOf | src/author_style_mcp/author_style_operations.py:62-72 | the per-dimension record keeps both values; the raw and weighted differences are `round(diff, 3)` and `round(diff * w, 3)`; its absolute gap is non-negative and is the rounded magnitude of the raw difference; equal values give all-zero differences |
| Distance.Gaps | src/author_style_mcp/author_style_operations.py:59-72 | `per_dimension` has an entry for every dimension, each the gap record of that dimension |
| Distance.TermZero | src/author_style_mcp/author_style_operations.py:73 | a dimension contributes zero to the sum of squares if and only if the two values agree |
| Distance.SquaredDistance | src/author_style_mcp/author_style_operations.py:60-73 | `sum_sq` once every dimension is added, never negative |
| Distance.SquaredDistanceZero | src/author_style_mcp/author_style_operations.py:62-75 | the sum of squares is zero if and only if the two points agree on every dimension, weighted or not |
| Distance.PerDimension | src/author_style_mcp/author_style_operations.py:59-73 | the loop over `PARAMETER_NAMES` builds every gap record and accumulates the full sum of squares |
| Distance.MaxContrastAxis | src/author_style_mcp/author_style_operations.py:78 | the chosen axis has the greatest rounded absolute gap, and it is the first such axis in dimension order |
| Distance.FirstMaxUnique | src/author_style_mcp/author_style_operations.py:78 | the first-greatest axis is unique |
| Distance.PointDistance | src/author_style_mcp/author_style_operations.py:59-88 | the report of two points holds their gap records, sum of squares and first max-contrast axis with its gap |
| Distance.ComputeStyleDistance | src/author_style_mcp/author_style_operations.py:27-88 | succeeds if and only if both ids are known; otherwise fails on the first unknown id; on success it reports the two catalog authors' distance |
| Distance.DistanceSymmetric | src/author_style_mcp/author_style_operations.py:62-78 | swapping the authors negates every raw difference and keeps every absolute gap, the sum of squares and the max-contrast axis and gap |
| Distance.GapSymmetric | src/author_style_mcp/author_style_operations.py:63-71 | swapping the points negates the rounded raw difference and keeps the absolute gap |
| Distance.SelfDistanceZero | src/author_style_mcp/author_style_operations.py:62-78 | an author's distance to itself is zero, with gap 0 on the first axis |
| Vocabulary.GetTier | src/author_style_mcp/author_style_operations.py:178-185 | low exactly below 0.33, high exactly from 0.67, mid in between |
| Vocabulary.GetTierMonotone | src/author_style_mcp/author_style_operations.py:178-185 | a larger value never falls in a lower tier |
| Vocabulary.BoundaryProximity | src/author_style_mcp/author_style_operations.py:204-210 | the distance of the value from its tier's start as a fraction of the tier's width, rounded to three decimals (so on the three-decimal grid) |
| Vocabulary.ProximityInUnit | src/author_style_mcp/author_style_operations.py:204-210 | for a value in [0, 1], the boundary proximity lies in [0, 1] |
| Vocabulary.ProximityMonotone | src/author_style_mcp/author_style_operations.py:204-210 | inside one tier, the boundary proximity does not decrease as the value grows |
| Vocabulary.ProximityAtTierStart | src/author_style_mcp/author_style_operations.py:204-210 | each tier's lower bound lies in that tier, with proximity 0 |
| Vocabulary.TierBoundaries | src/author_style_mcp/author_style_operations.py:178-210 | 0.33 is mid and 0.67 is high, both with proximity 0; 0.3299 is low; 1.0 is high with proximity 1 |
| Vocabulary.AnnotatedBundle.Items | src/author_style_mcp/author_style_operations.py:199-210 | the annotated dict keeps the tier bundle's keys in order, followed by the four annotation keys |
| Vocabulary.AnnotationsAreFresh | src/author_style_mcp/author_style_operations.py:199-202 | no annotation key collides with a key of a tier bundle, so the copied vocabulary is never overwritten |
| Vocabulary.InterpolateTier | src/author_style_mcp/author_style_operations.py:188-212 | the copied bundle is the dimension's vocabulary of the requested kind at the value's tier |
| Vocabulary.Annotate | src/author_style_mcp/author_style_operations.py:197-212 | the annotations record the dimension id, the tier, the boundary proximity and `round(value, 3)`, which lies within 0.0005 of the value |
| Vocabulary.FirstMissing | src/author_style_mcp/author_style_operations.py:218-221 | the first dimension, in `PARAMETER_NAMES` order, that the coordinates lack |
| Vocabulary.Extract | src/author_style_mcp/author_style_operations.py:215-232 | succeeds if and only if every dimension can be read, with the tier vocabulary of every dimension; otherwise fails on the first missing dimension |
| Vocabulary.ExtractVocabulary | src/author_style_mcp/author_style_operations.py:215-232 | the same for a string-keyed coordinate dict: success if and only if every dimension id is present |
| Vocabulary.ExtractAtPoint | src/author_style_mcp/author_style_operations.py:215-232 | a complete point always yields the vocabulary of every dimension |
| Vocabulary.ExtractFrom | src/author_style_mcp/author_style_operations.py:217-222 | the extraction loop stores each dimension's annotated bundle, or stops at the first missing coordinate |
| WeightOrder.Insert | src/author_style_mcp/author_style_operations.py:148-149 | inserting an item gives one more item: exactly that item and the items already there |
| WeightOrder.SortByWeight | src/author_style_mcp/author_style_operations.py:148-149 | the sort of `sorted(..., key=lambda x: -x[1])` (also at line 160) keeps the length and exactly the input's items |
| WeightOrder.SortDescending | src/author_style_mcp/author_style_operations.py:148-149 | the sorted blend is in non-increasing weight order |
| WeightOrder.SortPermutation | src/author_style_mcp/author_style_operations.py:148-149 | the sorted blend is a permutation of the blend |
| WeightOrder.SortStable | src/author_style_mcp/author_style_operations.py:148-149 | authors of equal weight keep their input order |
| WeightedSums.NormalizedSum | src/author_style_mcp/author_style_operations.py:115-119 | weights divided by their own positive total sum to 1 |
| WeightedSums.DotAlong | src/author_style_mcp/author_style_operations.py:124-127 | the accumulation loop computes the weighted sum of the coordinates |
| WeightedSums.ConvexCombination | src/author_style_mcp/author_style_operations.py:123-127 | a combination with non-negative weights summing to 1 lies between the least and the greatest value |
| Interpolation.Normalized | src/author_style_mcp/author_style_operations.py:119 | each author keeps its place and gets its weight divided by the total |
| Interpolation.NormalizedSumIsOne | src/author_style_mcp/author_style_operations.py:115-119 | normalised weights sum to 1 |
| Interpolation.FirstUnknown | src/author_style_mcp/author_style_operations.py:125-126 | the first blend entry whose id is not in the catalog, or the length when all are known |
| Interpolation.BlendCoordinates | src/author_style_mcp/author_style_operations.py:122-128 | each blended coordinate is the weighted sum of the contributors' coordinates rounded to four places |
| Interpolation.SingleAuthorBlend | src/author_style_mcp/author_style_operations.py:119-128 | blending one author at any positive weight gives back exactly that author's coordinates |
| Interpolation.BlendWithinContributors | src/author_style_mcp/author_style_operations.py:119-128 | with non-negative weights, every blended coordinate lies between the least and the greatest contributor value |
| Interpolation.TwoMinusOneAccepted | src/author_style_mcp/author_style_operations.py:114-119 | weights 2 and -1 pass the positive-total check and are already normalised |
| Interpolation.NegativeWeightLeavesUnitCube | src/author_style_mcp/author_style_operations.py:114-128 | blending hemingway at 2 with de_sade at -1 gives syntactic density -0.75, outside [0, 1] |
| Interpolation.NearestAuthor | src/author_style_mcp/author_style_operations.py:130-140 | the scan returns the first catalog author at minimal distance from the blended point, and that distance |
| Interpolation.NearestUnique | src/author_style_mcp/author_style_operations.py:130-140 | the first nearest author is unique |
| Interpolation.CatalogPointNearest | src/author_style_mcp/author_style_operations.py:130-140 | a catalog author's own point has that author as nearest, at distance 0 |
| Interpolation.SingleAuthorNearest | src/author_style_mcp/author_style_operations.py:119-140 | blending a single author names that author as nearest, at distance 0 |
| Interpolation.MoveCount | src/author_style_mcp/author_style_operations.py:151 | a contributor is given at least one move |
| Interpolation.MovesOf | src/author_style_mcp/author_style_operations.py:150-152 | every contributor adds between one and five moves |
| Interpolation.MovesOfPrefix | src/author_style_mcp/author_style_operations.py:150-152 | a contributor's moves are the first `max(1, round(5w))` of its signature moves, capped at five |
| Interpolation.MovesByWeight | src/author_style_mcp/author_style_operations.py:150-152 | weight 1 contributes all five moves; a weight of at most 0.1 contributes exactly one |
| Interpolation.CollectMoves | src/author_style_mcp/author_style_operations.py:147-152 | the loop concatenates each contributor's moves in descending-weight order |
| Interpolation.PercentLabel | src/author_style_mcp/author_style_operations.py:159 | the rounded percentage, followed by "% " and the name |
| Interpolation.DisplayPart | src/author_style_mcp/author_style_operations.py:159 | a contributor's part ends with "% " and its author's display name |
| Interpolation.BlendDisplay | src/author_style_mcp/author_style_operations.py:158-161 | the display begins with the heaviest contributor's part, and for a single contributor is exactly that part |
| Interpolation.SingleAuthorDisplay | src/author_style_mcp/author_style_operations.py:158-161 | a single-author blend is displayed as "100% " followed by that author's display name |
| Interpolation.RoundedSpec | src/author_style_mcp/author_style_operations.py:155-157 | the reported blend keeps each author in place, with its weight rounded to three places and within 0.0005 of the normalised weight |
| Interpolation.InterpolateStyles | src/author_style_mcp/author_style_operations.py:95-171 | an empty spec, a non-positive total and an unknown id each fail with their own error; otherwise the result is the blend of the spec |
| Interpolation.BlendKnown | src/author_style_mcp/author_style_operations.py:119-171 | a valid spec yields the rounded coordinates, the sorted display, the nearest author, the moves and both vocabularies |
| Prompts.SelectSource | src/author_style_mcp/author_style_operations.py:252-270 | fails with "no source" if and only if all three arguments are empty; otherwise it chooses the first non-empty argument |
| Prompts.FirstSourceWins | src/author_style_mcp/author_style_operations.py:252-268 | an author id makes the blend and the custom point irrelevant, and a blend makes the custom point irrelevant |
| Prompts.Resolve | src/author_style_mcp/author_style_operations.py:252-268 | an author resolves to its catalog entry, a blend to the blend's point, label and moves, and a custom point to "Custom coordinates" with no vocabulary and no moves; unknown ids and bad blends fail as in the calls they make |
| Prompts.ResolvedPointsComplete | src/author_style_mcp/author_style_operations.py:252-263 | an author's or a blend's point can be read on every dimension, so extraction from it never fails |
| Prompts.AnnotatedDirectives | src/author_style_mcp/author_style_operations.py:280-282 | scanning an annotated tier bundle for `*_directive` keys finds exactly its one directive |
| Prompts.DirectivesIn | src/author_style_mcp/author_style_operations.py:280-282 | the inner loop collects the values of the `*_directive` keys in key order |
| Prompts.DirectiveParts | src/author_style_mcp/author_style_operations.py:276-282 | the directive parts are the eight dimensions' directives, in `PARAMETER_NAMES` order |
| Prompts.MovesTextShape | src/author_style_mcp/author_style_operations.py:287-289 | the techniques text is empty if and only if there are no moves, and only the first five moves matter |
| Prompts.MovesText | src/author_style_mcp/author_style_operations.py:287-289 | empty if and only if there are no moves; otherwise it starts with "Key techniques: " and ends with "." |
| Prompts.VocabText | src/author_style_mcp/author_style_operations.py:292-299 | empty if and only if there is no author text vocabulary (blend and custom paths); otherwise it starts with "Register: " |
| Prompts.StyleTag | src/author_style_mcp/author_style_operations.py:307 | `[Style: <source>]` is non-empty and starts and ends with a non-whitespace character |
| Prompts.FullPrompt | src/author_style_mcp/author_style_operations.py:307 | after stripping, the prompt still begins with the style tag and ends with a non-whitespace character |
| Prompts.AssembleText | src/author_style_mcp/author_style_operations.py:276-308 | from an extraction of the resolved point, builds the master directive, techniques, vocabulary constraints and full prompt of a text prompt |
| Prompts.GenerateTextPrompt | src/author_style_mcp/author_style_operations.py:239-309 | fails exactly as source selection, resolution or extraction fails; otherwise the prompt is composed from the resolved source |
| Prompts.ComposeText | src/author_style_mcp/author_style_operations.py:273-309 | the text prompt's source, coordinates, directive, techniques, vocabulary constraints, full prompt and per-dimension directives |
| Prompts.PromptParts | src/author_style_mcp/author_style_operations.py:364-371 | at most 16 parts; a non-empty modifier comes first; the last parts are the first (at most six) visual directives |
| Prompts.PromptPartsWithoutVocabulary | src/author_style_mcp/author_style_operations.py:364-372 | with no keywords and no colours, the parts are the modifier (if any) and the first six dimension directives |
| Prompts.GenerateImagePrompt | src/author_style_mcp/author_style_operations.py:312-382 | fails exactly as source selection, resolution or extraction fails; otherwise the prompt is composed from the resolved source and the modifier |
| Prompts.ComposeImage | src/author_style_mcp/author_style_operations.py:343-382 | the image prompt's source, coordinates, joined prompt, keywords, colours, rules and per-dimension visuals |
| Queries.ListAuthors | src/author_style_mcp/author_style_operations.py:389-398 | one summary per catalog author, in catalog order |
| Queries.GetAuthorProfile | src/author_style_mcp/author_style_operations.py:401-408 | succeeds if and only if the id is known, with that author's entry; otherwise fails with the id and the available ids |
| Queries.ListingAgreesWithProfiles | src/author_style_mcp/author_style_operations.py:389-408 | each listing row is the summary of that author's profile, and its coordinates are those of `get_all_coordinates` |
| Queries.PairsApart | src/author_style_mcp/author_style_operations.py:417-421 | two different catalog authors are always a positive distance apart |
| Queries.FindMaxContrastPair | src/author_style_mcp/author_style_operations.py:411-424 | reports the first pair (in scan order) at maximal distance; the "None" failure happens exactly when all pairs coincide |
| Queries.PairScan | src/author_style_mcp/author_style_operations.py:413-422 | the scan state: once every row is scanned, a found pair is the first pair at maximal distance, and no pair found means all pairs coincide |
| Queries.ScanRow | src/author_style_mcp/author_style_operations.py:418-422 | the inner loop over one row carries the scan state from the start of row i to the start of row i + 1 |
| Queries.MaxPairReport | src/author_style_mcp/author_style_operations.py:424 | the final distance call: a pair found gives its report, no pair gives the "None" failure |
| Queries.MaxContrastPairFound | src/author_style_mcp/author_style_operations.py:411-424 | the catalog's pairs do not all coincide, so a pair is always found |
| Queries.MaxPairUnique | src/author_style_mcp/author_style_operations.py:417-422 | the first maximal pair is unique |
| Queries.FindNearestNeighbor | src/author_style_mcp/author_style_operations.py:427-441 | an unknown id fails with that id; a known author gets the report for its first nearest other author |
| Queries.NearestOther | src/author_style_mcp/author_style_operations.py:429-439 | the loop skips the author itself and keeps the first other author at minimal distance |
| Queries.NearestOtherUnique | src/author_style_mcp/author_style_operations.py:429-439 | the nearest other author is unique |
| Queries.NearestWithinMax | src/author_style_mcp/author_style_operations.py:411-441 | an author's nearest neighbour is a positive distance away, and no further than the max-contrast pair |
| PyRound.RoundHalfEven | src/author_style_mcp/author_style_operations.py:151 | the nearest integer, with ties going to the even one, as Python's `round` does |
| PyRound.Round | src/author_style_mcp/author_style_operations.py:69-71 | `round(x, n)` lies on the n-decimal grid, within half a unit of x |
| PyRound.RoundOnGrid | src/author_style_mcp/author_style_operations.py:128 | rounding a value already on the grid changes nothing |
| PyRound.RoundMonotone | src/author_style_mcp/author_style_operations.py:128 | rounding preserves order |
| PyRound.RoundNegate | src/author_style_mcp/author_style_operations.py:69 | rounding commutes with negation |
| Strings.Join | src/author_style_mcp/author_style_operations.py:284 | the joined length, the first part as a prefix, and a single part joined to itself |
| Strings.JoinAppend | src/author_style_mcp/author_style_operations.py:284 | joining one more part appends the separator and that part |
| Strings.Strip | src/author_style_mcp/author_style_operations.py:307 | a slice of the input with no whitespace at either end; empty exactly when the input is all whitespace |
| Strings.StripIdempotent | src/author_style_mcp/author_style_operations.py:307 | stripping twice is stripping once |
| Strings.StripKeepsPrefix | src/author_style_mcp/author_style_operations.py:307 | stripping keeps a prefix that starts and ends with non-whitespace |
| Strings.ParseNatToString | src/author_style_mcp/author_style_operations.py:159 | formatting a natural number in decimal can be read back |
| Strings.IntToString | src/author_style_mcp/author_style_operations.py:159 | the decimal text of an integer: a minus sign exactly for negatives, then digits with no leading zero |
| StyleTypes.TierBundle.Keys | src/author_style_mcp/author_style_taxonomy.py:70-368 | a tier bundle's keys: its descriptor names, then its one `*_directive` name |
| StyleTypes.OneDirectiveKey | src/author_style_mcp/author_style_taxonomy.py:70-368 | in every tier bundle, exactly the last key ends in `_directive` |
| StyleTypes.UniformKeys | src/author_style_mcp/author_style_taxonomy.py:70-368 | in a table whose tiers have the same keys, the copied bundle has the same keys whichever tier the value falls in |

## Left out

- Square roots. `euclidean_distance` and `normalized_distance` are `round(sqrt(.), 4)`; the model
  keeps the sum of squares instead. The max-contrast and nearest-neighbour scans compare the exact
  sums of squares. The source compares the square roots rounded to four places, so two pairs
  whose distances differ only beyond the fourth decimal tie in the source but not in the model.
  The nearest catalog author of a blend is chosen by the unrounded root. The root orders points
  as the exact sum of squares does, so the model picks the same author. The blend reports that
  author's `distance` as the sum of squares rather than as `round(sqrt(.), 4)`.
- Floating point. All arithmetic is on exact reals, so binary rounding error is not modelled.
  `round` is Python's half-to-even rule applied to the exact value.
- Prose. Long descriptive strings in `DIMENSIONS` and `AUTHOR_CATALOG` are replaced by stable
  tokens named after their place, such as `syntactic_density.text.low` or `hemingway.move1`. These
  cover directive sentences, descriptions, signature moves, registers, rhythms, image keywords and
  compositional rules. Ids, display names, origins, labels, short descriptor values, forbidden
  words and colours are kept verbatim. The properties proved do not depend on the wording.
- Dictionaries. They are records, with an explicit sequence where the source relies on insertion
  order: the catalog, a blend spec, a tier bundle's keys. A blend spec with a repeated id cannot
  occur in Python; the model's sequence does not rule it out.
- Aliasing. `get_author_profile` returns a shallow copy whose nested lists are shared with the
  catalog, and the text vocabulary is returned by reference. Values cannot alias, so later
  mutation through those references is not modelled.
- Transport. The MCP server module, its tool wrappers and JSON serialisation are not part of this
  model.
- Optional arguments. For the prompt generators, `None` and an empty string, dict or mapping are
  both modelled as the empty value; Python treats all of them as false.
- Interpolation.InterpolateStyles: the source looks up each id inside the mixing loop. The model
  checks every id before mixing. The error raised is the same `get_coordinates` error for the
  first unknown id, since the first dimension's pass meets every id in spec order.
- Blend image vocabulary. `interpolate_styles` returns `image_vocabulary` keyed by dimension, so
  the image prompt's `.get("keywords")` and related lookups find nothing. The model gives a
  blend source an empty image vocabulary to match.
- Interpolation.MovesOf: states the bound for each contributor only. No bound on the length of
  the whole collected list is proved.
- Queries.FindMaxContrastPair: the `(None, None)` failure path is modelled. `MaxContrastPairFound`
  proves it unreachable for this catalog.
- Missing custom coordinates. A custom point without some dimension makes the source's extraction
  raise `KeyError`. The model returns a `MissingCoordinate` error naming the first missing
  dimension in `PARAMETER_NAMES` order.
