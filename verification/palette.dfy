/**
 * `suggest_accessible_color` and `extract_palette` of
 * core/palette_extractor.py. K-means clustering and image decoding are
 * outside the model: extraction starts from the number of pixels read and
 * the cluster centres ranked by member count.
 */
module Palette {
  import opened Numeric
  import opened Color
  import opened Harmony
  import opened Wrappers

  // ------------------------------------------------- accessible colour search

  /** The lightness step and the attempt budget of the search. */
  const Step: real := 0.05
  const MaxAttempts: nat := 20

  /** `tuple(int(x * 255) for x in colorsys.hls_to_rgb(h, l, s))`. */
  function Recolour(h: real, l: real, s: real): (c: Rgb)
    requires 0.0 <= l <= 1.0 && 0.0 <= s <= 1.0
    ensures Valid(c)
  {
    FromUnit(HlsToRgb(Hls(h, l, s)))
  }

  /**
   * One adjustment: lighten when the colour is darker than the background,
   * darken otherwise, and keep the lightness in [0, 1].
   */
  function NextLightness(l: real, current: Rgb, bg: Rgb, gamma: GammaCurve): (l2: real)
    requires 0.0 <= l <= 1.0
    ensures 0.0 <= l2 <= 1.0
    ensures Abs(l2 - l) <= Step
    ensures Luminance(current, gamma) < Luminance(bg, gamma) ==> l2 >= l
    ensures Luminance(current, gamma) >= Luminance(bg, gamma) ==> l2 <= l
  {
    if Luminance(current, gamma) < Luminance(bg, gamma) then Clamp(l + Step, 0.0, 1.0)
    else Clamp(l - Step, 0.0, 1.0)
  }

  /** Where the search stopped: the colour, its lightness, and how many adjustments it made. */
  datatype Search = Search(colour: Rgb, lightness: real, steps: nat)

  /**
   * The loop of `suggest_accessible_color` with `budget` attempts left,
   * from `current` whose lightness is `l`. An attempt returns the current
   * colour when it meets the target; otherwise it adjusts. After the last
   * attempt the colour is returned without a further check.
   */
  function SearchFrom(h: real, l: real, s: real, current: Rgb, bg: Rgb, target: real,
                      gamma: GammaCurve, budget: nat): (r: Search)
    requires 0.0 <= l <= 1.0 && 0.0 <= s <= 1.0
    requires Valid(current) && Valid(bg)
    ensures Valid(r.colour) && 0.0 <= r.lightness <= 1.0
    ensures r.steps <= budget
    ensures r.steps < budget ==> ContrastRatio(r.colour, bg, gamma) >= target
    ensures r.steps == 0 ==> r.colour == current
    ensures ContrastRatio(current, bg, gamma) >= target ==> r == Search(current, l, 0)
    ensures Abs(r.lightness - l) <= Step * r.steps as real
    decreases budget
  {
    if budget == 0 || ContrastRatio(current, bg, gamma) >= target then Search(current, l, 0)
    else
      var l2 := NextLightness(l, current, bg, gamma);
      var next := Recolour(h, l2, s);
      var rest := SearchFrom(h, l2, s, next, bg, target, gamma, budget - 1);
      assert Abs(rest.lightness - l) <= Abs(rest.lightness - l2) + Abs(l2 - l);
      Search(rest.colour, rest.lightness, rest.steps + 1)
  }

  /** `suggest_accessible_color(original, background, target)`. */
  function SuggestAccessibleColor(original: Rgb, bg: Rgb, target: real, gamma: GammaCurve): (c: Rgb)
    requires Valid(original) && Valid(bg)
    ensures Valid(c)
    ensures ContrastRatio(original, bg, gamma) >= target ==> c == original
  {
    var hls := RgbToHls(ToUnit(original));
    SearchFrom(hls.h, hls.l, hls.s, original, bg, target, gamma, MaxAttempts).colour
  }

  /**
   * The search as the loop the original writes, with its early return;
   * it computes the same colour as the recursive definition.
   */
  method SuggestAccessibleColorLoop(original: Rgb, bg: Rgb, target: real, gamma: GammaCurve)
    returns (c: Rgb)
    requires Valid(original) && Valid(bg)
    ensures c == SuggestAccessibleColor(original, bg, target, gamma)
  {
    var hls := RgbToHls(ToUnit(original));
    var h, lightness, s := hls.h, hls.l, hls.s;
    var current := original;
    var i := 0;
    while i < MaxAttempts
      invariant 0 <= i <= MaxAttempts
      invariant 0.0 <= lightness <= 1.0 && Valid(current)
      invariant SearchFrom(h, lightness, s, current, bg, target, gamma, MaxAttempts - i).colour
                == SuggestAccessibleColor(original, bg, target, gamma)
    {
      if ContrastRatio(current, bg, gamma) >= target {
        return current;
      }
      lightness := NextLightness(lightness, current, bg, gamma);
      current := Recolour(h, lightness, s);
      i := i + 1;
    }
    return current;
  }

  // --------------------------------------------------------------- extraction

  /** `n_clusters`: k-means needs at least this many pixels to fit. */
  const ClusterCount: nat := 5

  /**
   * What the images supplied: how many pixels were read, and the cluster
   * centres ranked by member count, which only mean something when there
   * are enough pixels to cluster.
   */
  datatype Pixels = Pixels(count: nat, ranked: seq<Rgb>)

  /** The palette's three hex strings. */
  datatype Swatches = Swatches(primary: string, secondary: string, accent: string)

  /** The pairing an accessibility suggestion is about. */
  datatype Pairing = PrimaryWithText | SecondaryOnPrimary | AccentOnPrimary

  /** One accessibility suggestion; its prose fields are not modelled. */
  datatype Suggestion = Suggestion(pairing: Pairing, currentRatio: real, requiredAA: real,
                                   suggested: Rgb, compliantAANormal: bool)

  datatype Report = Report(palette: Swatches, suggestions: seq<Suggestion>, harmony: real)

  /** The result for no images or no pixels: fixed upper-case swatches, nothing else. */
  const DefaultReport := Report(Swatches("#FFFFFF", "#CCCCCC", "#000000"), [], 0.0)

  /** `max(0, x - d)` on every channel. */
  function Darken(c: Rgb, d: nat): (r: Rgb)
    ensures Valid(c) ==> Valid(r) && NoLighter(r, c)
  {
    Rgb(if c.r - d < 0 then 0 else c.r - d,
        if c.g - d < 0 then 0 else c.g - d,
        if c.b - d < 0 then 0 else c.b - d)
  }

  /** `min(255, x + d)` on every channel. */
  function Lighten(c: Rgb, d: nat): (r: Rgb)
    ensures Valid(c) ==> Valid(r) && NoLighter(c, r)
  {
    Rgb(if c.r + d > 255 then 255 else c.r + d,
        if c.g + d > 255 then 255 else c.g + d,
        if c.b + d > 255 then 255 else c.b + d)
  }

  predicate NoLighter(a: Rgb, b: Rgb) {
    a.r <= b.r && a.g <= b.g && a.b <= b.b
  }

  datatype Triple = Triple(primary: Rgb, secondary: Rgb, accent: Rgb)

  predicate TripleValid(t: Triple) {
    Valid(t.primary) && Valid(t.secondary) && Valid(t.accent)
  }

  /**
   * The mode bias: "dark" darkens primary by 50 and secondary by 30 and
   * lightens accent by 50; any other mode is light and lightens primary by
   * 20 and secondary by 10 and darkens accent by 20.
   */
  function ApplyMode(mode: string, t: Triple): (r: Triple)
    requires TripleValid(t)
    ensures TripleValid(r)
    ensures mode == "dark" ==>
      NoLighter(r.primary, t.primary) && NoLighter(r.secondary, t.secondary) && NoLighter(t.accent, r.accent)
    ensures mode != "dark" ==>
      NoLighter(t.primary, r.primary) && NoLighter(t.secondary, r.secondary) && NoLighter(r.accent, t.accent)
  {
    if mode == "dark" then Triple(Darken(t.primary, 50), Darken(t.secondary, 30), Lighten(t.accent, 50))
    else Triple(Lighten(t.primary, 20), Lighten(t.secondary, 10), Darken(t.accent, 20))
  }

  /**
   * The style treatment of one colour: "muted" scales the HLS saturation
   * by 0.7; "pastel" scales lightness by 1.2 (capped at 1) and saturation
   * by 0.8; any other style leaves the colour alone.
   */
  function ApplyStyle(style: string, c: Rgb): (r: Rgb)
    requires Valid(c)
    ensures Valid(r)
    ensures style != "muted" && style != "pastel" ==> r == c
  {
    if style == "muted" then
      var hls := RgbToHls(ToUnit(c));
      Recolour(hls.h, hls.l, Max(0.0, hls.s * 0.7))
    else if style == "pastel" then
      var hls := RgbToHls(ToUnit(c));
      Recolour(hls.h, Min(1.0, hls.l * 1.2), hls.s * 0.8)
    else c
  }

  /** A grey has no saturation to reduce: muting gives it back unchanged. */
  lemma MutedKeepsGrey(c: Rgb)
    requires Valid(c) && c.r == c.g == c.b
    ensures ApplyStyle("muted", c) == c
  {
    var u := ToUnit(c);
    assert RgbToHls(u) == Hls(0.0, u.r, 0.0);
    var x := c.r as real / 255.0;
    assert x * 255.0 == c.r as real;
    assert HlsToRgb(Hls(0.0, x, 0.0)) == Unit(x, x, x);
  }

  /** Primary, secondary and accent: the three most populous clusters, backfilled with the defaults. */
  function Ranked(ranked: seq<Rgb>): (t: Triple)
    requires AllValid(ranked)
    ensures TripleValid(t)
    ensures |ranked| >= 3 ==> t == Triple(ranked[0], ranked[1], ranked[2])
  {
    Triple(if |ranked| > 0 then ranked[0] else White,
           if |ranked| > 1 then ranked[1] else LightGray,
           if |ranked| > 2 then ranked[2] else Black)
  }

  /** The colours after mode bias and style treatment. */
  function ThemeColours(ranked: seq<Rgb>, style: string, mode: string): (t: Triple)
    requires AllValid(ranked)
    ensures TripleValid(t)
  {
    var m := ApplyMode(mode, Ranked(ranked));
    Triple(ApplyStyle(style, m.primary), ApplyStyle(style, m.secondary), ApplyStyle(style, m.accent))
  }

  /** Text on the primary colour: black on a light primary, white otherwise. */
  function TextColour(primary: Rgb, gamma: GammaCurve): (c: Rgb)
    requires Valid(primary)
    ensures c == Black || c == White
    ensures c == Black <==> Luminance(primary, gamma) > 0.5
  {
    if Luminance(primary, gamma) > 0.5 then Black else White
  }

  /** The WCAG AA threshold for normal text, the one the palette checks. */
  const RequiredAA: real := 4.5

  /** What every suggestion records: not compliant, against the AA threshold, at a ratio at most that threshold. */
  predicate Flagged(x: Suggestion) {
    !x.compliantAANormal && x.requiredAA == RequiredAA && x.currentRatio <= RequiredAA
    && Valid(x.suggested)
  }

  /** Some suggestion in `r` is about `p`. */
  predicate Reports(r: seq<Suggestion>, p: Pairing) {
    exists i :: 0 <= i < |r| && r[i].pairing == p
  }

  /** Each suggestion's pairing comes strictly later in check order than the one before. */
  predicate InCheckOrder(r: seq<Suggestion>) {
    forall i, j :: 0 <= i < j < |r| ==> Rank(r[i].pairing) < Rank(r[j].pairing)
  }

  /** A suggestion for `fg` against `bg`, present exactly when the pair fails AA for normal text. */
  function Check(pairing: Pairing, fg: Rgb, bg: Rgb, gamma: GammaCurve): (r: seq<Suggestion>)
    requires Valid(fg) && Valid(bg)
    ensures |r| <= 1
    ensures |r| == 1 <==> !CheckCompliance(ContrastRatio(fg, bg, gamma)).aaNormal
    ensures |r| == 1 ==> r[0].pairing == pairing && Flagged(r[0])
  {
    var ratio := ContrastRatio(fg, bg, gamma);
    if CheckCompliance(ratio).aaNormal then []
    else
      Round2Monotone(ratio, RequiredAA);
      Round2OfCents(450);
      [Suggestion(pairing, Round2(ratio), RequiredAA, SuggestAccessibleColor(fg, bg, RequiredAA, gamma), false)]
  }

  /** The accessibility suggestions of a themed triple, in the order the original checks them. */
  function Suggestions(t: Triple, gamma: GammaCurve): (r: seq<Suggestion>)
    requires TripleValid(t)
    ensures |r| <= 3 && InCheckOrder(r)
    ensures forall i :: 0 <= i < |r| ==> Flagged(r[i])
    ensures Reports(r, PrimaryWithText)
      <==> ContrastRatio(TextColour(t.primary, gamma), t.primary, gamma) < RequiredAA
    ensures Reports(r, SecondaryOnPrimary) <==> ContrastRatio(t.secondary, t.primary, gamma) < RequiredAA
    ensures Reports(r, AccentOnPrimary) <==> ContrastRatio(t.accent, t.primary, gamma) < RequiredAA
  {
    var text := TextColour(t.primary, gamma);
    var a := Check(PrimaryWithText, text, t.primary, gamma);
    var b := Check(SecondaryOnPrimary, t.secondary, t.primary, gamma);
    var c := Check(AccentOnPrimary, t.accent, t.primary, gamma);
    ConcatChecks(a, b, c);
    a + b + c
  }

  /** Joining the three at-most-one checks keeps their order and their flags. */
  lemma ConcatChecks(a: seq<Suggestion>, b: seq<Suggestion>, c: seq<Suggestion>)
    requires |a| <= 1 && |b| <= 1 && |c| <= 1
    requires |a| == 1 ==> a[0].pairing == PrimaryWithText && Flagged(a[0])
    requires |b| == 1 ==> b[0].pairing == SecondaryOnPrimary && Flagged(b[0])
    requires |c| == 1 ==> c[0].pairing == AccentOnPrimary && Flagged(c[0])
    ensures |a + b + c| <= 3 && InCheckOrder(a + b + c)
    ensures forall i :: 0 <= i < |a + b + c| ==> Flagged((a + b + c)[i])
    ensures Reports(a + b + c, PrimaryWithText) <==> |a| == 1
    ensures Reports(a + b + c, SecondaryOnPrimary) <==> |b| == 1
    ensures Reports(a + b + c, AccentOnPrimary) <==> |c| == 1
  {
    var all := a + b + c;
    assert forall i :: 0 <= i < |all| ==>
      (i < |a| ==> all[i] == a[0]) && (|a| <= i < |a| + |b| ==> all[i] == b[i - |a|])
      && (|a| + |b| <= i ==> all[i] == c[i - |a| - |b|]);
    if |a| == 1 {
      assert all[0].pairing == PrimaryWithText;
    }
    if |b| == 1 {
      assert all[|a|].pairing == SecondaryOnPrimary;
    }
    if |c| == 1 {
      assert all[|a| + |b|].pairing == AccentOnPrimary;
    }
  }

  /** The harmony score of primary, secondary and accent, in that order. */
  function TripleHarmony(t: Triple): (score: real)
    requires TripleValid(t)
    ensures 0.0 <= score <= 10.0
  {
    var colours := [t.primary, t.secondary, t.accent];
    assert forall i :: 0 <= i < 3 ==> colours[i] in {t.primary, t.secondary, t.accent};
    HarmonyScore(colours)
  }

  /**
   * `extract_palette`, from the pixel list on. No pixel gives the default
   * report; fewer pixels than clusters make `kmeans.fit` raise, which
   * nothing catches.
   */
  function ExtractPalette(px: Pixels, style: string, mode: string, gamma: GammaCurve): (r: Result<Report, string>)
    requires px.count >= ClusterCount ==> AllValid(px.ranked)
    ensures px.count == 0 ==> r == Success(DefaultReport)
    ensures r.Failure? <==> 0 < px.count < ClusterCount
    ensures r.Success? ==> 0.0 <= r.value.harmony <= 10.0
    ensures r.Success? ==> |r.value.suggestions| <= 3 && InCheckOrder(r.value.suggestions)
    ensures r.Success? ==> forall i :: 0 <= i < |r.value.suggestions| ==> Flagged(r.value.suggestions[i])
  {
    if px.count == 0 then Success(DefaultReport)
    else if px.count < ClusterCount then Failure("n_samples should be >= n_clusters")
    else
      var t := ThemeColours(px.ranked, style, mode);
      Success(Report(Swatches(RgbToHex(t.primary), RgbToHex(t.secondary), RgbToHex(t.accent)),
                     Suggestions(t, gamma), TripleHarmony(t)))
  }

  /** Pairing order: primary-with-text, then secondary, then accent. */
  function Rank(p: Pairing): nat {
    match p
    case PrimaryWithText => 0
    case SecondaryOnPrimary => 1
    case AccentOnPrimary => 2
  }

  /**
   * From clusters, the swatches are the themed colours as 7-character hex,
   * and a pairing is reported exactly when it fails AA for normal text.
   */
  lemma ExtractPaletteReports(count: nat, ranked: seq<Rgb>, style: string, mode: string, gamma: GammaCurve)
    requires count >= ClusterCount && AllValid(ranked)
    ensures var t := ThemeColours(ranked, style, mode);
      var r := ExtractPalette(Pixels(count, ranked), style, mode, gamma).value;
      && r.palette == Swatches(RgbToHex(t.primary), RgbToHex(t.secondary), RgbToHex(t.accent))
      && |r.palette.primary| == 7 && |r.palette.secondary| == 7 && |r.palette.accent| == 7
      && (Reports(r.suggestions, PrimaryWithText)
          <==> ContrastRatio(TextColour(t.primary, gamma), t.primary, gamma) < RequiredAA)
      && (Reports(r.suggestions, SecondaryOnPrimary) <==> ContrastRatio(t.secondary, t.primary, gamma) < RequiredAA)
      && (Reports(r.suggestions, AccentOnPrimary) <==> ContrastRatio(t.accent, t.primary, gamma) < RequiredAA)
  {
    var t := ThemeColours(ranked, style, mode);
    assert ExtractPalette(Pixels(count, ranked), style, mode, gamma).value.suggestions == Suggestions(t, gamma);
  }
}
