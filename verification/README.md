# smart-theming-engine, modelled in Dafny

The smart theming engine turns a batch of reference images and optional
brand guidelines into a website theme. It has six parts:

- the image analyzer measures each picture (whitespace share, mirror
  symmetry, golden aspect ratio) and tags it with typography styles and moods;
- the palette extractor ranks dominant colours, biases them for a light or
  dark theme, checks WCAG 2.0 contrast and scores colour harmony;
- the layout generator picks a layout style, a golden-ratio spacing scale and
  Tailwind classes;
- the font suggester scores a catalogue of Google Font pairings and builds a
  golden-ratio type scale;
- the component suggester proposes interactive JavaScript components;
- the brand-guideline parser keeps the well-formed fields of a JSON file.

This project restates those decisions as pure Dafny functions over immutable
datatypes and proves what they guarantee. Modules follow the source files:

| module | models |
|---|---|
| `Numeric`, `Text`, `Json`, `Wrappers` | Python's `round`, `int`, `**`, string methods, decoded JSON values, `Option`/`Result` |
| `Color` | hex codec, `colorsys` HLS, WCAG 2.0 luminance, contrast ratio and compliance (core/palette_extractor.py) |
| `Harmony` | `calculate_color_harmony_score` |
| `Palette` | `suggest_accessible_color`, `extract_palette` after clustering |
| `ImageAnalyzer` | `analyze_image` on a decoded picture |
| `Features` | the batch aggregation and guideline inference that the three generators each repeat |
| `Layout` | `generate_layout` without the HTML; each Tailwind class string is a `Cls` token that `Layout.Render` maps to its exact text |
| `Fonts` | `suggest_fonts`, `calculate_golden_ratio_font_scale`, `get_typographic_recommendations` |
| `Components` | `suggest_js_components` |
| `BrandParser` | `parse_brand_guidelines` |

The layout generator, the font suggester and the component suggester each
carry their own copy of the batch aggregation (core/layout_generator.py:36-78,
core/font_suggester.py:57-96, core/js_component_suggester.py:19-63) and of
the guideline inference (core/layout_generator.py:86-113,
core/font_suggester.py:101-127, core/js_component_suggester.py:70-96).
Apart from variable names, comments and `print` calls they differ in two
places, and one definition of each (`Features.Aggregated`,
`Features.ActiveGuidelines`) models all three:

- the golden-ratio flag: the component copy initialises it and sets it
  (core/js_component_suggester.py:26, 53-54), the layout copy sets it
  without initialising it and never reads it (core/layout_generator.py:69-70),
  and the font copy has none; only the component suggester reads it
  (`Components.GridNeedsGoldenImage`), so `Features.Aggregate.golden` is
  the component copy's flag;
- the line that copies the caller's dictionary: the layout and component
  copies treat `None` as an empty dictionary (`Features.ActiveFromArgument`),
  while the font copy calls `.copy()` on `None` and fails
  (`Features.FontActiveGuidelines`).

Python's exceptions are modelled as `Failure` results where the code has no
handler. The cases are:

- a `designPrinciples` entry that is not a string (`.strip()` raises);
- `suggest_fonts` given `None` guidelines (`.copy()` raises);
- an exact tie between a pairing's score and the running best (the tie
  branch indexes a float);
- a zero or negative golden-ratio multiplier (division by zero, or a complex `** 1.5` that `round` rejects);
- a heading or body font that is not a string (`.lower()` raises);
- a batch whose readable images hold between one and four pixels in all
  (`kmeans.fit` needs at least as many pixels as its five clusters);
- a creative layout over an empty batch (the template reads the first
  analysis).

Where the source's intent and its code disagree, the model follows the code:

- A brand that names only one of the two fonts gets the default for that
  half, not its own font. The pairing fills only the half the brand leaves
  open, and the named half keeps its default.
- The component suggester uses the caller's layout style. It ignores
  `layoutPreference`, which only the layout generator applies.
- The parser drops `designPrinciples`. So guidelines read from a file never
  carry principles (`BrandParser.ParsedHaveNoPrinciples`).
- In the symmetry scores, the subtraction of two 8-bit arrays wraps modulo
  256. So the score is not a distance: `[[0],[1]]` scores 0 while `[[1],[0]]`
  scores 1 − 1/255 (`ImageAnalyzer.WrapIsNotDistance`).
- Only the first "vibrant" is removed when whitespace exceeds 70%. A
  blue-dominant, highly saturated image keeps one "vibrant" beside
  "minimalist" (`ImageAnalyzer.VibrantBesideMinimalist`).
- The `break` in the complementary-pair rule leaves only the inner loop. So a
  colour set can earn the 1.5 bonus once per outer index
  (`Harmony.PairBonusPerOuterIndex`).

## Model

Operations whose result is best described by what follows from it carry no
row of their own and appear through the rows of their lemmas:
`Layout.SpacingScale` through `Layout.SpacingScaleOrdered` and
`Layout.WholeBaseIsMedium`, `Fonts.Score` and `Fonts.Scores` through
`Fonts.TagsWeighScore` and `Fonts.BrandNamesPairing`, `Fonts.Select` through
`Fonts.SelectSpec`, `ImageAnalyzer.TypographyInference` through
`ImageAnalyzer.SansSerifIffNoStyle`, and `ImageAnalyzer.MoodEmotion` through
`ImageAnalyzer.MoodTags`.

| member | source | states |
|---|---|---|
| Numeric.RoundHalfEven | core/layout_generator.py:146-151 | Python's `round` to an integer: the result lies within one half of its argument, and an exact half goes to the even neighbour |
| Numeric.RoundMonotone | core/layout_generator.py:146-151 | rounding never reverses the order of two values |
| Numeric.Round2Monotone | core/palette_extractor.py:192 | rounding to two decimals never reverses the order of two values |
| Numeric.Trunc | core/palette_extractor.py:91 | `int()` of a non-negative float is the greatest integer not above it |
| Numeric.Clamp | core/palette_extractor.py:87 | the clamped lightness lies in [lo, hi] and equals the input when the input already does |
| Numeric.PowStep | core/font_suggester.py:313-319 | powers of a ratio of at least 1 are at least 1 and never decrease with the exponent |
| Text.Strip | core/layout_generator.py:75 | a stripped tag is the slice of its input left after cutting only `str.isspace()` characters from both ends, and neither of its ends is such a character |
| Text.StripStripped | core/layout_generator.py:75 | stripping a tag that has no surrounding whitespace leaves it unchanged |
| Text.SplitJoin | core/image_analyzer.py:359 | splitting a ", "-joined list of comma-free tags on "," gives the tags back, each after the first with one leading space |
| Text.SplitStripInvertsJoin | core/layout_generator.py:74-75 | split-then-strip exactly inverts the analyzer's ", " join of comma-free, stripped tags |
| Text.Lower | core/layout_generator.py:120 | lowering keeps the length, leaves no capital letter and changes nothing else |
| Text.LowerOfLower | core/layout_generator.py:120 | a principle with no capital letters is unchanged by lowering |
| Text.Dedup | core/image_analyzer.py:359 | the de-duplicated tag list holds exactly the input's tags, each once, and is non-empty when the input is |
| Text.RemoveFirst | core/image_analyzer.py:384 | `list.remove` takes away exactly one occurrence of the element |
| Color.RgbToHex | core/palette_extractor.py:15-17 | a valid colour encodes as `#` followed by six lower-case hex digits |
| Color.HexToRgb | core/palette_extractor.py:10-13 | the decode fails exactly when one of the slices [0:2], [2:4], [4:6] after the leading '#'s is one `int(s, 16)` rejects, so always when four or fewer characters remain; a successful decode has channels in -15..255, and in 0..255 when the text is only '#' and hex digits |
| Color.ParseHexByte | core/palette_extractor.py:13 | `int(t, 16)` on a slice of at most two characters: blanks around it are skipped and a sign is allowed, so the value lies in -15..255 |
| Color.DecodesTo | core/palette_extractor.py:10-13 | the decoded colour is the three parsed slices [0:2], [2:4], [4:6] of the text after its leading '#' |
| Color.SpacedDigit | core/palette_extractor.py:13 | a blank before a digit is skipped: `int(" d", 16)` is the digit's value |
| Color.NonHexFails | core/palette_extractor.py:13 | "#zz0000" is an error: `int("zz", 16)` raises |
| Color.Unreadable | core/palette_extractor.py:13 | two characters that are neither hex digits, blanks nor a leading sign are no number |
| Color.NegatedDigit | core/palette_extractor.py:13 | a minus sign is accepted: `int("-d", 16)` is the negated digit |
| Color.SpacedSlices | core/palette_extractor.py:10-13 | "# 1 2 3"-shaped text decodes to the three digits' values |
| Color.SignedSlices | core/palette_extractor.py:10-13 | "#-1-1-1" decodes to (-1, -1, -1): signed slices are accepted, so channels can be negative |
| Color.PairsDecode | core/palette_extractor.py:10-13 | "#" followed by three two-character slices decodes to what the slices parse to, so "#-1-1-1" gives (-1, -1, -1) |
| Color.HexRoundTrip | core/palette_extractor.py:10-17 | decoding the hex code of a valid colour gives the colour back |
| Color.ByteRoundTrip | core/palette_extractor.py:13-17 | parsing the two-digit hex code of a byte gives the byte back |
| Color.HexDigitValue | core/palette_extractor.py:13-17 | every hex digit produced for 0..15 parses back to its value |
| Color.RgbToHls | core/palette_extractor.py:67-68 | hue lies in [0, 1), lightness and saturation in [0, 1] |
| Color.HlsToRgb | core/palette_extractor.py:90-91 | converting back from HLS gives channels in [0, 1] |
| Color.Linearize | core/palette_extractor.py:26-30 | the WCAG transfer function maps a channel fraction in [0, 1] into [0, 1] |
| Color.Luminance | core/palette_extractor.py:19-32 | WCAG 2.0 relative luminance of a valid colour lies in [0, 1] |
| Color.ContrastRatio | core/palette_extractor.py:34-46 | the contrast ratio lies in [1, 21] and is 1 for equal luminances |
| Color.ContrastSymmetric | core/palette_extractor.py:42-46 | contrast does not depend on which colour is given first |
| Color.CheckCompliance | core/palette_extractor.py:48-59 | each tier holds exactly at its WCAG threshold; AA for normal text coincides with AAA for large text; AAA implies AA implies AA-large |
| Harmony.SortReals | core/palette_extractor.py:124 | sorting yields an ordered permutation of the hues |
| Harmony.SortedUnique | core/palette_extractor.py:124 | two sorted permutations of the same hues are equal, so the sorted order is determined by the hues alone |
| Harmony.HueDegrees | core/palette_extractor.py:117-119 | a hue in degrees lies in [0, 360) |
| Harmony.AngularDiff | core/palette_extractor.py:141 | the angular distance between two hues lies in [0, 180] |
| Harmony.PairCountBound | core/palette_extractor.py:155-162 | at most one complementary bonus is earned per outer index |
| Harmony.HueScore | core/palette_extractor.py:126-190 | the score lies in [0, 10]; it is the base 3 when no rule fires and at least 1.5 when one does |
| Harmony.HarmonyScore | core/palette_extractor.py:96-192 | the score lies in [0, 10]; no colours give 0 and a single colour gives 7 |
| Harmony.HarmonyPermutationInvariant | core/palette_extractor.py:116-124 | reordering the colours does not change the harmony score |
| Harmony.ComplementaryExample | core/palette_extractor.py:150-154 | two opposite hues score exactly 4 |
| Harmony.TriadicExample | core/palette_extractor.py:170-179 | three hues 120 degrees apart score exactly 5 |
| Harmony.PairBonusPerOuterIndex | core/palette_extractor.py:155-162 | hues 0, 170 and 355 earn the pair bonus twice because the `break` only ends the inner loop |
| Palette.Recolour | core/palette_extractor.py:89-90 | `hls_to_rgb` followed by `int(x * 255)` on each channel gives a valid 8-bit colour |
| Palette.NextLightness | core/palette_extractor.py:81-88 | one search step moves lightness by at most 0.05, lighter when the colour is darker than the background and darker otherwise, staying in [0, 1] |
| Palette.SearchFrom | core/palette_extractor.py:77-94 | the search uses at most its 20 attempts and stops early only on a colour that meets the target |
| Palette.SuggestAccessibleColor | core/palette_extractor.py:61-94 | the suggestion is a valid colour, and a colour that already meets the target is returned unchanged |
| Palette.SuggestAccessibleColorLoop | core/palette_extractor.py:74-94 | the attempt loop computes the same colour as the recursive search |
| Palette.Darken | core/palette_extractor.py:265-272 | darkening keeps channels in range and makes no channel lighter |
| Palette.Lighten | core/palette_extractor.py:265-272 | lightening keeps channels in range and makes no channel darker |
| Palette.ApplyMode | core/palette_extractor.py:262-272 | dark mode darkens primary and secondary and lightens the accent; any other mode does the reverse |
| Palette.ApplyStyle | core/palette_extractor.py:274-291 | muting and pastel keep colours valid; any other style leaves the colour unchanged |
| Palette.MutedKeepsGrey | core/palette_extractor.py:275-282 | muting a grey leaves it unchanged |
| Palette.Ranked | core/palette_extractor.py:257-260 | the three most populous clusters become primary, secondary and accent in rank order |
| Palette.ThemeColours | core/palette_extractor.py:257-291 | the biased and styled theme colours are valid |
| Palette.TextColour | core/palette_extractor.py:302 | text is black exactly when the primary's luminance exceeds 0.5, and white otherwise |
| Palette.Check | core/palette_extractor.py:304-315 | a pairing is reported, once, exactly when it fails AA for normal text |
| Palette.Suggestions | core/palette_extractor.py:299-341 | each of the three pairings is reported exactly when its contrast is below 4.5, in check order, at most three reports |
| Palette.TripleHarmony | core/palette_extractor.py:344-346 | the harmony score of the three themed colours lies in [0, 10] |
| Palette.ExtractPalette | core/palette_extractor.py:209-356 | no pixels give the default white/grey/black report; it fails exactly when there are one to four pixels, fewer than the five clusters `kmeans.fit` needs; a success has harmony in [0, 10] and every report a real failure |
| Palette.ExtractPaletteReports | core/palette_extractor.py:293-356 | the palette holds the hex codes of the adjusted theme colours and the reports are those of the contrast checks |
| ImageAnalyzer.WhitespacePercentage | core/image_analyzer.py:313-321 | the whitespace share lies in [0, 100] |
| ImageAnalyzer.MeasureWhitespace | core/image_analyzer.py:317-321 | the pixel-counting loop computes the whitespace share |
| ImageAnalyzer.CountRowsSplit | core/image_analyzer.py:317-318 | whitespace pixels are exactly the light ones plus the dark ones, with no pixel counted twice |
| ImageAnalyzer.AllBlankIsHundred | core/image_analyzer.py:313-321 | a picture whose every pixel is whitespace scores 100 |
| ImageAnalyzer.ThresholdsAreStrict | core/image_analyzer.py:314-318 | the thresholds are strict: grey levels 240 and 15 are not whitespace, 241 and 14 are |
| ImageAnalyzer.MirrorScore | core/image_analyzer.py:295-300 | the mirror score lies in [0, 1], is 0 for an empty half, and is 1 exactly when the halves agree |
| ImageAnalyzer.WrapDiff | core/image_analyzer.py:296 | the `uint8` difference of two pixels is their difference when it is not negative and wraps to that plus 256 otherwise; `abs` leaves it unchanged |
| ImageAnalyzer.HorizontalSymmetry | core/image_analyzer.py:291-300 | top-bottom symmetry lies in [0, 1] |
| ImageAnalyzer.VerticalSymmetry | core/image_analyzer.py:302-311 | left-right symmetry lies in [0, 1] |
| ImageAnalyzer.MeasureHorizontal | core/image_analyzer.py:291-300 | the row loop computes top-bottom symmetry; a one-row picture scores 0 |
| ImageAnalyzer.MeasureVertical | core/image_analyzer.py:302-311 | the column loop computes left-right symmetry; a one-column picture scores 0 |
| ImageAnalyzer.MirroredScoresOne | core/image_analyzer.py:291-298 | a picture equal to its upside-down copy scores 1 |
| ImageAnalyzer.MirroredScoresOneVertically | core/image_analyzer.py:302-309 | a picture equal to its mirror image scores 1 |
| ImageAnalyzer.WrapIsNotDistance | core/image_analyzer.py:296 | 8-bit wrap-around makes the difference asymmetric: swapping the two rows changes the score |
| ImageAnalyzer.GoldenAspectMatch | core/image_analyzer.py:284-288 | a picture matches exactly when its rounded aspect ratio is within 0.1 of φ or 1/φ, that is between 1.52 and 1.71 or between 0.52 and 0.71 |
| ImageAnalyzer.GoldenWindows | core/image_analyzer.py:286-287 | the two tolerance windows, in hundredths |
| ImageAnalyzer.MeanSaturation | core/image_analyzer.py:334-336 | the saturation of the mean colour lies in [0, 1] |
| ImageAnalyzer.TypographyStyles | core/image_analyzer.py:333-357 | each style is present exactly under its condition, and no conflicting pair survives |
| ImageAnalyzer.ColourMoods | core/image_analyzer.py:363-380 | one hue mood plus at most one saturation mood: energetic exactly for red-dominant pictures saturated above 0.5, warm for red-dominant ones at most 0.5, calm for blue-dominant ones at most 0.5, neutral when neither red nor blue dominates, vibrant for blue-dominant ones above 0.5 or any above 0.7, muted exactly below 0.3 |
| ImageAnalyzer.DropVibrant | core/image_analyzer.py:384 | exactly one "vibrant" is removed when there is one |
| ImageAnalyzer.WhitespaceMoods | core/image_analyzer.py:382-386 | minimalist exactly above 70% whitespace, dense exactly below 30%, no other tag added and muted kept |
| ImageAnalyzer.WhitespaceKeepsColours | core/image_analyzer.py:382-386 | every colour tag other than vibrant is kept as it was, and so is vibrant unless whitespace exceeds 70% |
| ImageAnalyzer.JoinedColours | core/image_analyzer.py:388-394 | the symmetry rule leaves the colour tags as the whitespace rule left them |
| ImageAnalyzer.MoodTags | core/image_analyzer.py:362-394 | the list is never empty; energetic, warm, calm, neutral and muted and each whitespace and symmetry mood are present exactly under their conditions; so is vibrant up to 70% whitespace (above it, see VibrantBesideMinimalist) |
| ImageAnalyzer.VibrantKept | core/image_analyzer.py:364-384 | adding "minimalist" and removing one "vibrant" keeps a "vibrant" exactly when both vibrant rules fired |
| ImageAnalyzer.VibrantBesideMinimalist | core/image_analyzer.py:364-384 | with over 70% whitespace, "vibrant" survives exactly when the image is blue-dominant and saturation exceeds 0.7 |
| ImageAnalyzer.SerialiseRoundTrip | core/image_analyzer.py:396 | reading the joined tags back gives the de-duplicated tags, the same set as the input |
| ImageAnalyzer.SerialisedIsNot | core/image_analyzer.py:396 | a joined list that holds a tag other than a given word is not that word |
| ImageAnalyzer.SansSerifIffNoStyle | core/image_analyzer.py:359 | the typography is "sans-serif" exactly when no style was inferred, and never "unknown" |
| ImageAnalyzer.SansSerifIffEmpty | core/image_analyzer.py:359 | serialising the styles gives "sans-serif" exactly for an empty list |
| ImageAnalyzer.SimulatedAesthetic | core/image_analyzer.py:219-239 | the simulated score is 5, 7, 8 or 9, and anything but 5 needs a '.' in the encoded image text |
| ImageAnalyzer.Base64ScoresFive | core/image_analyzer.py:275-279 | text in the base64 alphabet never names a test picture, so the score the analyzer records is always 5 |
| ImageAnalyzer.FoundAt | core/image_analyzer.py:225 | `sub in s` holds only when `sub` occurs in `s` at some offset |
| ImageAnalyzer.Analyze | core/image_analyzer.py:255-413 | an unreadable picture yields the default record; a decoded one has every metric in range and a typography other than "unknown" |
| Features.Present | core/layout_generator.py:48 | only present values are kept, as many as there are present entries and with the same total, and none exactly when all are missing |
| Features.MeanOr | core/layout_generator.py:48-49 | the mean is the total of the present values over their number, and the default when no analysis carries the field |
| Features.MeanOfTwo | core/layout_generator.py:48-49 | values 20 and 80 with a missing one between them average to 50 |
| Features.MeanWithin | core/layout_generator.py:48-67 | a mean of bounded values with a bounded default stays within the bounds |
| Features.MeanOfOne | core/layout_generator.py:48-49 | one analysis contributes its own value or the default |
| Features.UnionMembers | core/layout_generator.py:72-78 | a tag is in the union exactly when some analysis contributed it |
| Features.Aggregated | core/layout_generator.py:36-78 | an empty batch aggregates to the defaults 0.5, 0.5, 0.5, 1.5, 4.0, 0.5, 5 with no tags |
| Features.OneImage | core/layout_generator.py:36-78 | a single analysis aggregates to its own values, whitespace rescaled to [0, 1] |
| Features.AggregateBounds | core/layout_generator.py:48-55 | in-range whitespace and symmetry values give in-range means |
| Features.MoodsOfAnalysis | core/layout_generator.py:73-75 | an analyzer mood string contributes its moods, or nothing when all are neutral |
| Features.StylesOfAnalysis | core/layout_generator.py:76-78 | an analyzer typography string contributes its styles, or "sans-serif" when none was inferred |
| Features.NeutralAddsNothing | core/layout_generator.py:73 | an all-neutral mood string contributes no tag |
| Features.InferPreference | core/layout_generator.py:85-96 | the preference is one of the four, chosen by the first matching of minimalist, bold and modern, else classic |
| Features.InferPrinciples | core/layout_generator.py:99-113 | a name is inferred exactly when it is one of the six principles and its own threshold rule holds |
| Features.PrincipleRules | core/layout_generator.py:99-113 | only the six principle names occur, each exactly when its threshold rule holds |
| Features.ActiveGuidelines | core/layout_generator.py:81-114 | given guidelines are used as they are; an empty dictionary is replaced by exactly the inferred preference and principles |
| Features.FontActiveGuidelines | core/font_suggester.py:54 | the font suggester fails on `None` guidelines and otherwise proceeds |
| Features.DesignPrinciples | core/layout_generator.py:117-120 | a missing or non-list entry gives no principles; the extraction fails exactly when the list holds a non-string |
| Features.ExtractNormal | core/layout_generator.py:117-120 | a list of already normalised names gives exactly their set |
| Features.InferredPrinciplesRecovered | core/layout_generator.py:99-120 | the principles extracted from inferred guidelines are exactly those inferred |
| Layout.ResolveStyle | core/layout_generator.py:122-133 | minimalist and classic select minimal, bold selects dense, modern selects creative, anything else keeps the caller's style |
| Layout.InferredStyle | core/layout_generator.py:85-133 | without guidelines the style is always one of minimal, dense and creative |
| Layout.SpacingBase | core/layout_generator.py:136-144 | the weighted sum is scaled by 0.9 for busy images, by 1.1 for plain ones that are not busy, and kept for the rest |
| Layout.SpacingBaseBounds | core/layout_generator.py:136-144 | in-range features give a base between 14.4 and 61.6, below the weighted sum for busy images, above it for plain ones that are not busy, equal to it otherwise |
| Layout.SpacingScaleOrdered | core/layout_generator.py:146-151 | the six golden spacing steps are non-negative and non-decreasing |
| Layout.WholeBaseIsMedium | core/layout_generator.py:148 | a whole-number base is the medium step |
| Layout.MoodLayerWrites | core/layout_generator.py:154-199 | after the mood rules each class holds the value of the last rule that fired |
| Layout.MoodLayerWritesText | core/layout_generator.py:154-199 | the same for background, border, leading and tracking |
| Layout.PrincipleLayerWrites | core/layout_generator.py:201-243 | the header shadow, button rounding and padding change only when a principle rule writing them fires, the last such rule winning |
| Layout.PrincipleLayerWritesCards | core/layout_generator.py:201-243 | the same for the card shadow, card rounding and transition |
| Layout.PrincipleLayerWritesText | core/layout_generator.py:201-243 | the same for background, border, leading and tracking |
| Layout.CardShadowLastWriter | core/layout_generator.py:154-243 | the card shadow is that of the last firing rule among the ten |
| Layout.HeaderShadowLastWriter | core/layout_generator.py:154-243 | the header shadow is that of the last firing rule |
| Layout.ButtonLastWriter | core/layout_generator.py:154-243 | the button rounding is that of the last firing rule |
| Layout.PaddingLastWriter | core/layout_generator.py:154-243 | the section padding is sm for bold or dense, xl for minimalist, lg otherwise |
| Layout.CardRoundedLastWriter | core/layout_generator.py:154-243 | the card rounding is that of the last firing rule |
| Layout.TransitionLastWriter | core/layout_generator.py:154-243 | the transition is that of the last firing rule |
| Layout.BackgroundLastWriter | core/layout_generator.py:154-243 | the background is that of the last firing rule whose own condition holds |
| Layout.LeadingLastWriter | core/layout_generator.py:154-243 | the leading is that of the last firing rule |
| Layout.TrackingLastWriter | core/layout_generator.py:154-243 | the tracking is that of the last firing rule |
| Layout.BorderLastWriter | core/layout_generator.py:154-243 | the border is that of the last firing rule |
| Layout.QuietImageKeepsDefaults | core/layout_generator.py:154-199 | a batch that fires no rule keeps every default class |
| Layout.GenerateLayout | core/layout_generator.py:36-243 | the plan uses the active guidelines and their resolved style; it fails exactly on a non-string principle or a creative layout over an empty batch |
| Layout.GivenGuidelinesUnchanged | core/layout_generator.py:81-83 | non-empty guidelines come back unchanged |
| Layout.EmptyBatch | core/layout_generator.py:36-151 | an empty batch without guidelines gives the minimal style and a medium spacing of 36 |
| Fonts.MakeContext | core/font_suggester.py:161-174 | the principles join both the mood tags and the style tags |
| Fonts.BrandNamesPairing | core/font_suggester.py:211-216 | a brand naming both of a pairing's fonts adds 6 to its score |
| Fonts.TagsWeighScore | core/font_suggester.py:185 | each extra shared mood tag adds 2 to a pairing's score |
| Fonts.PickFails | core/font_suggester.py:177-231 | the loop raises exactly when a later score ties the running maximum while a best pairing is held |
| Fonts.PickSpec | core/font_suggester.py:177-231 | a loop that finishes holds nothing only when no score exceeds -1, and otherwise the index of the strict maximum |
| Fonts.SelectSpec | core/font_suggester.py:177-231 | the selection fails exactly on a tie; it selects nothing only when no score exceeds -1, and otherwise the unique highest score |
| Fonts.TieRaises | core/font_suggester.py:221-225 | equal scores fail; a strictly higher later score is selected; scores at or below -1 select nothing |
| Fonts.AdjustedRatio | core/font_suggester.py:293-307 | the adjusted multiplier stays above (φ − 0.07) · 0.98 for non-negative whitespace |
| Fonts.FontScale | core/font_suggester.py:309-323 | every size in the type scale is at least 1 pixel |
| Fonts.FontScaleOrdered | core/font_suggester.py:309-323 | small ≤ body ≤ h6 ≤ … ≤ h1 ≤ display |
| Fonts.InferredBase | core/font_suggester.py:247-255 | the weighted sum is scaled by 1.05 for plain images, by 0.95 for busy ones that are not plain, and kept for the rest |
| Fonts.InferredBaseBounds | core/font_suggester.py:247-255 | in-range features give a base between 15.2 and 27.3, above the weighted sum for plain images, below it for busy ones that are not plain, equal to it otherwise |
| Fonts.LineHeight | core/font_suggester.py:355-364 | relaxed, tight or normal, each exactly under its rule |
| Fonts.Recommend | core/font_suggester.py:350-380 | fails exactly when a font name that must be lowered is not a string; otherwise the line height and letter spacing follow their rules |
| Fonts.FromBrand | core/font_suggester.py:141-158 | with both brand fonts, the suggestion keeps them and uses a scale from base 16 |
| Fonts.FromCatalogue | core/font_suggester.py:160-274 | otherwise the scale starts from the inferred base; a success had no tie; with no pairing chosen the fonts are Roboto and Open Sans; without brand fonts the chosen pairing is used; a half the brand names keeps its default Roboto or Open Sans, as the code is written |
| Fonts.ChosenFonts | core/font_suggester.py:234-241 | the selected pairing fills only the halves the brand leaves open; the defaults fill the rest |
| Fonts.SuggestFonts | core/font_suggester.py:34-274 | `None` guidelines fail; a success had well-formed principles and a positive multiplier, since zero divides by zero and a negative one makes `ratio ** 1.5` complex (core/font_suggester.py:311-312) |
| Fonts.BrandFontsKept | core/font_suggester.py:141-158 | two brand fonts come back as given over a scale from the fixed base 16 |
| Fonts.HalfBrandUsesDefault | core/font_suggester.py:234-241 | a brand naming only the heading font gets Roboto as the heading |
| Fonts.CatalogueBest | core/font_suggester.py:177-241 | without brand fonts the catalogue path returns the unique best-scoring pairing, or Roboto and Open Sans when no score beats -1 |
| Fonts.InferredFontsAreBest | core/font_suggester.py:177-241 | without brand fonts the suggestion is the unique best-scoring pairing, or the defaults when no score beats -1 |
| Components.KindOf | core/js_component_suggester.py:108-144 | the caller's style selects exactly one of the three rule blocks, or none |
| Components.FilterMembers | core/js_component_suggester.py:105-203 | a component is kept exactly when it is listed and its rule fires |
| Components.FilterAppend | core/js_component_suggester.py:105-203 | filtering two rule blocks one after the other is filtering their concatenation |
| Components.FilterDistinct | core/js_component_suggester.py:105-203 | filtering keeps a duplicate-free list duplicate-free |
| Components.RuleOrderComplete | core/js_component_suggester.py:105-203 | every component has a rule |
| Components.RuleOrderDistinct | core/js_component_suggester.py:105-203 | no component has two rules |
| Components.LayoutSuggestions | core/js_component_suggester.py:108-167 | minimal starts with the modal, dense with tabs, creative with the carousel, within 3, 3 and 4 components; other styles add none |
| Components.CrossSuggestions | core/js_component_suggester.py:169-203 | the cross-cutting rules add at most five components |
| Components.SuggestMatchesRules | core/js_component_suggester.py:105-205 | the suggestions are the components whose rules fire, in rule order |
| Components.SuggestMembership | core/js_component_suggester.py:105-205 | a component is suggested exactly when its rule fires, and never twice |
| Components.SuggestComponents | core/js_component_suggester.py:3-205 | fails exactly on a non-string principle; otherwise the firing rules in order |
| Components.SuggestShape | core/js_component_suggester.py:105-205 | the first component and the length bounds of each layout style |
| Components.SuggestionShape | core/js_component_suggester.py:3-205 | the same facts stated for the whole suggester |
| Components.GridNeedsGoldenImage | core/js_component_suggester.py:162-167 | the interactive grid is suggested exactly for a creative layout with aesthetic at least 8 and at least one golden image |
| Components.StickyNavigationRule | core/js_component_suggester.py:177-182 | sticky navigation exactly for balance at least 0.9 with the structured principle |
| Components.InfiniteScrollRule | core/js_component_suggester.py:198-203 | infinite scroll exactly for entropy above 7 with the complex principle |
| Components.NoPrinciplesByDefault | core/js_component_suggester.py:65-103 | an empty batch without guidelines infers no principle |
| Components.EmptyMinimal | core/js_component_suggester.py:293-297 | an empty batch with a minimal layout gets only the modal dialog |
| BrandParser.Parse | core/brand_guideline_parser.py:15-54 | a missing file, undecodable JSON or a non-object document give the empty dictionary |
| BrandParser.KeepValidSpec | core/brand_guideline_parser.py:24-44 | a key is kept exactly when it is checked, present and well-formed, and its value is copied unchanged |
| BrandParser.ParseKeys | core/brand_guideline_parser.py:24-47 | a key survives exactly when it is one of the six checked keys with a well-formed value, independently of other keys |
| BrandParser.OnlyCheckedKeys | core/brand_guideline_parser.py:24-47 | nothing but the six checked keys comes out, and never designPrinciples |
| BrandParser.ParsedHaveNoPrinciples | core/brand_guideline_parser.py:24-47 | parsed guidelines carry no design principles |
| BrandParser.ParseIdempotent | core/brand_guideline_parser.py:24-47 | parsing already-parsed guidelines changes nothing |
| BrandParser.InvalidFieldsDropped | core/brand_guideline_parser.py:95-104 | a wrong-shaped colour, an empty font and an unknown preference are all dropped |
| BrandParser.ColourShapes | core/brand_guideline_parser.py:28 | colours are checked by shape only: `#zzz` passes and `#abcd` fails |

## Left out

- Image decoding, `thumbnail` resizing and file I/O: a decoded picture is given as its grey-level rows and RGB pixel list, and an unreadable one as `None`.
- Fractal dimension, entropy and visual balance (`calculate_fractal_dimension`, `calculate_image_entropy`, `calculate_visual_balance_score`): numerical routines over NumPy arrays and log-log fits; they arrive as numbers and are only rounded to three places.
- The PNG and base64 encoding of the picture: `ImageAnalyzer.SimulatedAesthetic` takes the encoded text as given, and `ImageAnalyzer.Analyze` takes the aesthetic score as a parameter, which by `ImageAnalyzer.Base64ScoresFive` the source always sets to 5.
- MiniBatchKMeans clustering: palette extraction takes the number of pixels read and the cluster centres ranked by member count as given; only the fit's refusal of fewer pixels than clusters is modelled.
- Floating-point exponentiation: the WCAG gamma curve `((x + 0.055) / 1.055) ** 2.4` and the irrational powers in the type scale are not computable over exact reals, so `Color.Linearize` takes the curve as a parameter that maps [0, 1] into [0, 1].
- The `caption` size of the type scale: it uses the exponent 1.5, an irrational power.
- Color.RgbToHls, Color.HlsToRgb: state only the range of each component, not the exact `colorsys` formulas' round trip, because the conversions go through real division whose rounding the source inherits from floats.
- Color.Linearize: states only that [0, 1] maps into [0, 1], not the value of the curve, because the exponent 2.4 is a parameter.
- Color.Luminance: states the [0, 1] range for any admissible gamma curve rather than the exact WCAG 2.0 value, since the exponent 2.4 is left as a parameter.
- Fonts.SuggestFonts: states the failure conditions and defers the fonts and the scale to Fonts.BrandFontsKept, Fonts.HalfBrandUsesDefault and Fonts.InferredFontsAreBest.
- Python's set iteration order: where the source joins or lists a `set`, the model keeps first-occurrence order (`Text.Dedup`), and principle lists follow rule order; the proved properties are stated on membership and do not depend on the order.
- Lower-casing is ASCII only; Python's `str.lower()` also folds non-ASCII letters.
- Floating point: every `float` is an exact real, so each comparison and each `round` sees the exact decimal value. Python's binary doubles can differ near a boundary: `round(2.675, 2)` is 2.67 in Python because 2.675 is stored as 2.67499..., while `Numeric.Round2` gives 2.68. This affects the whitespace percentage (core/image_analyzer.py:321), the contrast ratio (core/palette_extractor.py:311-337), the harmony score (core/palette_extractor.py:192) and every threshold comparison on a computed value.
- Color.HexToRgb: accepts only ASCII hex digits; Python's `int(s, 16)` also takes the other Unicode decimal digits (Arabic-Indic ones, for example).
- The HTML page, the CSS file, the rationale and variation texts of the component suggestions, the explanation strings of the harmony score, and every `print`.
- app.py and core/cli.py: the web and command-line front ends only wire the modelled functions together.
- The file system and the JSON decoder of the brand-guideline parser: the outcome of reading the file is the `BrandParser.Source` datatype.
