/**
 * core/font_suggester.py: a weighted score for each catalogued Google Font
 * pairing, the running-maximum selection over the catalogue, the explicit
 * brand-font short cut, the golden-ratio type scale and the line-height
 * and letter-spacing recommendations.
 */
module Fonts {
  import opened Wrappers
  import opened Numeric
  import opened Text
  import opened Json
  import F = Features
  import IA = ImageAnalyzer

  // ---------------------------------------------------------------------------
  // The catalogue
  // ---------------------------------------------------------------------------

  /** One entry of `FONT_PAIRINGS`; the tag lists hold no repeats, so sets stand for them. */
  datatype Pairing = Pairing(
    heading: string,
    body: string,
    moods: set<string>,
    styles: set<string>,
    complexity: real,
    readability: real)

  const Catalogue: seq<Pairing> := [
    Pairing("Roboto", "Open Sans", {"modern", "professional", "calm", "balanced", "clean", "structured", "subtle"}, {"sans-serif", "light", "geometric", "clean"}, 0.2, 0.9),
    Pairing("Playfair Display", "Lora", {"elegant", "calm", "professional", "balanced", "subtle", "structured"}, {"serif", "light", "classic"}, 0.4, 0.8),
    Pairing("Montserrat", "Lato", {"vibrant", "modern", "playful", "energetic", "dynamic", "bold", "complex"}, {"sans-serif", "bold", "geometric", "display"}, 0.6, 0.7),
    Pairing("Oswald", "Merriweather", {"bold", "professional", "modern", "dense", "structured", "complex"}, {"sans-serif", "serif", "bold"}, 0.7, 0.75),
    Pairing("Pacifico", "Quicksand", {"playful", "creative", "vibrant", "dynamic", "organic", "expressive"}, {"script", "sans-serif", "expressive"}, 0.8, 0.6),
    Pairing("Space Mono", "IBM Plex Sans", {"techy", "modern", "professional", "dense", "structured", "complex"}, {"monospace", "sans-serif", "geometric"}, 0.7, 0.8),
    Pairing("Merriweather", "Open Sans", {"classic", "professional", "calm", "balanced", "subtle", "clean"}, {"serif", "sans-serif", "light"}, 0.3, 0.9),
    Pairing("Lato", "Roboto", {"modern", "professional", "vibrant", "balanced", "clean", "structured"}, {"sans-serif", "light"}, 0.25, 0.85),
    Pairing("Rubik", "Noto Sans", {"modern", "clean", "minimalist", "balanced", "structured", "subtle"}, {"sans-serif", "geometric"}, 0.3, 0.88),
    Pairing("Source Code Pro", "Inter", {"techy", "modern", "professional", "dense", "structured", "complex"}, {"monospace", "sans-serif"}, 0.65, 0.82),
    Pairing("Dancing Script", "Josefin Sans", {"elegant", "creative", "playful", "organic", "expressive"}, {"script", "sans-serif", "expressive"}, 0.9, 0.55),
    Pairing("Bitter", "PT Sans", {"classic", "professional", "balanced", "structured"}, {"serif", "sans-serif"}, 0.45, 0.8),
    Pairing("Nunito Sans", "Fira Sans", {"modern", "clean", "light", "minimalist", "subtle", "structured"}, {"sans-serif", "light"}, 0.2, 0.92),
    Pairing("Anton", "Open Sans", {"bold", "energetic", "vibrant", "dynamic", "complex"}, {"sans-serif", "bold", "display"}, 0.85, 0.65),
    Pairing("Comfortaa", "Muli", {"playful", "modern", "clean", "organic", "subtle"}, {"sans-serif", "geometric", "light"}, 0.35, 0.8),
    Pairing("Fjalla One", "Roboto Condensed", {"bold", "dense", "energetic", "structured", "complex"}, {"sans-serif", "bold"}, 0.75, 0.7),
    Pairing("Poppins", "Raleway", {"modern", "clean", "minimalist", "balanced", "structured"}, {"sans-serif", "geometric", "light"}, 0.3, 0.9),
    Pairing("Lora", "Noto Serif", {"elegant", "classic", "calm", "balanced", "subtle"}, {"serif", "classic"}, 0.4, 0.85),
    Pairing("Bebas Neue", "Montserrat", {"bold", "modern", "energetic", "dense", "complex"}, {"sans-serif", "display", "bold"}, 0.8, 0.68),
    Pairing("Permanent Marker", "Indie Flower", {"creative", "playful", "expressive", "organic"}, {"script", "display", "expressive"}, 0.95, 0.5)
  ]

  // ---------------------------------------------------------------------------
  // Scoring
  // ---------------------------------------------------------------------------

  /**
   * What a pairing is scored against: the batch features, the mood and
   * style tags (each already widened by the design principles) and the
   * brand's heading and body fonts (`None` when absent).
   */
  datatype Context = Context(
    f: F.Aggregate,
    moodTags: set<string>,
    styleTags: set<string>,
    brandHeading: Value,
    brandBody: Value)

  /** The tags matched against the catalogue: the image tags plus every principle. */
  function MakeContext(f: F.Aggregate, ps: set<string>, bh: Value, bb: Value): (c: Context)
    ensures c.moodTags == f.moods + ps && c.styleTags == f.typography + ps
    ensures ps <= c.moodTags && ps <= c.styleTags
  {
    Context(f, f.moods + ps, f.typography + ps, bh, bb)
  }

  /** The bonuses for image metrics that suit a pairing. */
  function MetricBonus(p: Pairing, c: Context): real
  {
    var f := c.f;
    (if "clean" in c.styleTags && "geometric" in p.styles && f.fractal < 1.3 then 2.0 else 0.0)
    + (if "complex" in c.styleTags && "expressive" in p.styles && f.entropy > 6.5 then 2.0 else 0.0)
    + (if "structured" in c.styleTags && f.horizontal > 0.7 && f.vertical > 0.7 && f.balance > 0.8 then 1.5 else 0.0)
    + (if "organic" in c.styleTags && (f.horizontal < 0.6 || f.vertical < 0.6) && "dynamic" in c.moodTags then 1.5 else 0.0)
    + (if f.aesthetic >= 7.0 && ("professional" in p.moods || "balanced" in p.moods) then 1.0 else 0.0)
    + (if f.whitespace < 0.4 && p.readability > 0.8 then 1.0 else 0.0)
  }

  /** Three points for each half of the pairing the brand already names. */
  function BrandBonus(p: Pairing, c: Context): real
  {
    (if Truthy(c.brandHeading) && c.brandHeading == Str(p.heading) then 3.0 else 0.0)
    + (if Truthy(c.brandBody) && c.brandBody == Str(p.body) then 3.0 else 0.0)
  }

  function Score(p: Pairing, c: Context): real
  {
    (|c.moodTags * p.moods| as real) * 2.0
    + (|c.styleTags * p.styles| as real) * 1.5
    + MetricBonus(p, c)
    - Abs(c.f.fractal - p.complexity * 2.0) * 0.5
    + (1.0 - Abs(c.f.entropy - p.complexity * 8.0)) * 0.2
    + BrandBonus(p, c)
  }

  /** A brand that names both fonts of a pairing raises its score by exactly 6. */
  lemma BrandNamesPairing(p: Pairing, c: Context)
    requires |p.heading| > 0 && |p.body| > 0
    ensures Score(p, c.(brandHeading := Str(p.heading), brandBody := Str(p.body)))
            == Score(p, c.(brandHeading := Null, brandBody := Null)) + 6.0
  {
    var named := c.(brandHeading := Str(p.heading), brandBody := Str(p.body));
    var bare := c.(brandHeading := Null, brandBody := Null);
    assert MetricBonus(p, named) == MetricBonus(p, bare);
    assert BrandBonus(p, named) == 6.0;
    assert BrandBonus(p, bare) == 0.0;
  }

  /** Each further mood tag shared with a pairing is worth 2 points ("dynamic" also feeds a bonus). */
  lemma TagsWeighScore(p: Pairing, c: Context, m: string)
    requires m !in c.moodTags && m in p.moods
    requires m != "dynamic"
    ensures Score(p, c.(moodTags := c.moodTags + {m})) == Score(p, c) + 2.0
  {
    var c2 := c.(moodTags := c.moodTags + {m});
    assert c2.moodTags * p.moods == (c.moodTags * p.moods) + {m};
    assert m !in c.moodTags * p.moods;
    assert MetricBonus(p, c2) == MetricBonus(p, c);
  }

  function Scores(c: Context): (s: seq<real>)
    ensures |s| == |Catalogue|
    ensures forall i :: 0 <= i < |Catalogue| ==> s[i] == Score(Catalogue[i], c)
  {
    seq(|Catalogue|, i requires 0 <= i < |Catalogue| => Score(Catalogue[i], c))
  }

  // ---------------------------------------------------------------------------
  // Selection
  // ---------------------------------------------------------------------------

  /**
   * The loop over the catalogue from `i` on, with the best index so far and
   * the running maximum. A strictly greater score takes over; an equal one
   * while a best pairing is held reaches the tie-break, whose lookup
   * indexes a float and raises.
   */
  function Pick(s: seq<real>, i: nat, best: Option<nat>, mx: real): Result<Option<nat>, string>
    requires i <= |s|
    decreases |s| - i
  {
    if i == |s| then Success(best)
    else if s[i] > mx then Pick(s, i + 1, Some(i), s[i])
    else if s[i] == mx && best.Some? then Failure("tie-break indexes a float")
    else Pick(s, i + 1, best, mx)
  }

  /** `best_match_pairing = None`, `max_matches = -1`, then the loop. */
  function Select(s: seq<real>): Result<Option<nat>, string>
  {
    Pick(s, 0, None, -1.0)
  }

  /** The running maximum before index `j`, starting from -1. */
  function PrefixMax(s: seq<real>, j: nat): (m: real)
    requires j <= |s|
    ensures m >= -1.0
    ensures forall i :: 0 <= i < j ==> s[i] <= m
    ensures m == -1.0 || exists i :: 0 <= i < j && s[i] == m
  {
    if j == 0 then -1.0 else Max(PrefixMax(s, j - 1), s[j - 1])
  }

  /** The loop state after `i` steps: `mx` is the running maximum and `best` holds it alone. */
  predicate Consistent(s: seq<real>, i: nat, best: Option<nat>, mx: real)
    requires i <= |s|
  {
    && mx == PrefixMax(s, i)
    && (best.None? <==> mx == -1.0)
    && (best.Some? ==> best.value < i && s[best.value] == mx
                       && forall j :: 0 <= j < i && j != best.value ==> s[j] < mx)
  }

  /** A tie reached at step `j`: the score equals a running maximum that some pairing holds. */
  predicate TieAt(s: seq<real>, j: nat)
    requires j < |s|
  {
    s[j] == PrefixMax(s, j) && PrefixMax(s, j) > -1.0
  }

  /** The loop raises exactly when a later step reaches a tie. */
  lemma {:induction false} PickFails(s: seq<real>, i: nat, best: Option<nat>, mx: real)
    requires i <= |s| && Consistent(s, i, best, mx)
    ensures Pick(s, i, best, mx).Failure? <==> exists j :: i <= j < |s| && TieAt(s, j)
    decreases |s| - i
  {
    if i < |s| {
      assert PrefixMax(s, i + 1) == Max(mx, s[i]);
      if s[i] > mx {
        assert !TieAt(s, i);
        PickFails(s, i + 1, Some(i), s[i]);
      } else if s[i] == mx && best.Some? {
        assert TieAt(s, i);
      } else {
        assert !TieAt(s, i);
        PickFails(s, i + 1, best, mx);
      }
    }
  }

  /**
   * When the loop finishes, it holds nothing only if no score beats -1, and
   * otherwise the index of the strict maximum.
   */
  lemma {:induction false} PickSpec(s: seq<real>, i: nat, best: Option<nat>, mx: real)
    requires i <= |s| && Consistent(s, i, best, mx)
    ensures Pick(s, i, best, mx) == Success(None) ==> forall j :: 0 <= j < |s| ==> s[j] <= -1.0
    ensures Pick(s, i, best, mx).Success? && Pick(s, i, best, mx).value.Some? ==>
      var k := Pick(s, i, best, mx).value.value;
      k < |s| && s[k] > -1.0 && forall j :: 0 <= j < |s| && j != k ==> s[j] < s[k]
    ensures Pick(s, i, best, mx).Success? && (exists j :: 0 <= j < |s| && s[j] > -1.0) ==>
      Pick(s, i, best, mx).value.Some?
    decreases |s| - i
  {
    if i < |s| {
      assert PrefixMax(s, i + 1) == Max(mx, s[i]);
      if s[i] > mx {
        PickSpec(s, i + 1, Some(i), s[i]);
      } else if !(s[i] == mx && best.Some?) {
        PickSpec(s, i + 1, best, mx);
      }
    }
  }

  /**
   * The selection raises exactly when some pairing ties the running
   * maximum while a best pairing is held; otherwise it finds nothing when
   * no score beats -1, and else the unique strict maximum.
   */
  lemma SelectSpec(s: seq<real>)
    ensures Select(s).Failure? <==> exists j :: 0 <= j < |s| && TieAt(s, j)
    ensures Select(s) == Success(None) ==> forall j :: 0 <= j < |s| ==> s[j] <= -1.0
    ensures Select(s).Success? && Select(s).value.Some? ==>
      var k := Select(s).value.value;
      k < |s| && s[k] > -1.0 && forall j :: 0 <= j < |s| && j != k ==> s[j] < s[k]
    ensures Select(s).Success? && (exists j :: 0 <= j < |s| && s[j] > -1.0) ==> Select(s).value.Some?
  {
    PickFails(s, 0, None, -1.0);
    PickSpec(s, 0, None, -1.0);
  }

  /** Two pairings scoring exactly the same, above -1, make the selection raise. */
  lemma TieRaises()
    ensures Select([0.5, 0.5]).Failure?
    ensures Select([0.5, 1.0]) == Success(Some(1))
    ensures Select([-1.0, -2.0]) == Success(None)
  {
  }

  // ---------------------------------------------------------------------------
  // Type scale
  // ---------------------------------------------------------------------------

  /** The golden ratio nudged by aesthetic score, whitespace and image complexity. */
  function AdjustedRatio(f: F.Aggregate): (r: real)
    ensures f.whitespace >= 0.0 ==> r >= (Golden - 0.07) * 0.98
  {
    var r0 := if f.aesthetic >= 8.0 then Golden + 0.07
              else if f.aesthetic <= 4.0 then Golden - 0.07
              else Golden;
    var r1 := r0 + f.whitespace * 0.03;
    if f.fractal > 1.7 || f.entropy > 6.5 then r1 * 0.98
    else if f.fractal < 1.3 || f.entropy < 3.0 then r1 * 1.02
    else r1
  }

  /** The sizes in pixels; the caption size (`ratio ** 1.5`) is not modelled. */
  datatype TypeScale = TypeScale(small: int, body: int, h6: int, h5: int, h4: int, h3: int, h2: int, h1: int, display: int)

  /** `max(1, round(x))`. */
  function AtLeastOne(x: real): (n: int)
    ensures n >= 1
    ensures n >= RoundHalfEven(x)
  {
    var k := RoundHalfEven(x);
    if k < 1 then 1 else k
  }

  /** `max(1, round(base * x))`. */
  function Scaled(base: real, x: real): int
  {
    AtLeastOne(base * x)
  }

  /** `calculate_golden_ratio_font_scale`: every entry at least one pixel. */
  function FontScale(base: real, f: F.Aggregate): (t: TypeScale)
    requires AdjustedRatio(f) != 0.0
    ensures t.small >= 1 && t.body >= 1 && t.h6 >= 1 && t.h5 >= 1 && t.h4 >= 1
    ensures t.h3 >= 1 && t.h2 >= 1 && t.h1 >= 1 && t.display >= 1
  {
    var r := AdjustedRatio(f);
    TypeScale(AtLeastOne(base / r), AtLeastOne(base),
              Scaled(base, Pow(r, 1)), Scaled(base, Pow(r, 2)), Scaled(base, Pow(r, 3)),
              Scaled(base, Pow(r, 4)), Scaled(base, Pow(r, 5)), Scaled(base, Pow(r, 6)),
              Scaled(base, Pow(r, 7)))
  }

  lemma AtLeastOneMonotone(x: real, y: real)
    requires x <= y
    ensures AtLeastOne(x) <= AtLeastOne(y)
  {
    RoundMonotone(x, y);
  }

  /** Scaling a larger factor by the same non-negative base never gives a smaller size. */
  lemma ScaledMonotone(base: real, a: real, b: real)
    requires base >= 0.0 && a <= b
    ensures Scaled(base, a) <= Scaled(base, b)
  {
    ScaleLe(a, b, base);
    AtLeastOneMonotone(base * a, base * b);
  }

  /** Consecutive powers of a ratio of at least one give non-decreasing sizes. */
  lemma StepMonotone(base: real, r: real, k: nat)
    requires base >= 0.0 && r >= 1.0
    ensures Scaled(base, Pow(r, k)) <= Scaled(base, Pow(r, k + 1))
  {
    PowStep(r, k);
    ScaledMonotone(base, Pow(r, k), Pow(r, k + 1));
  }

  lemma FirstStep(base: real, r: real)
    requires base >= 0.0 && r >= 1.0
    ensures AtLeastOne(base) <= Scaled(base, Pow(r, 1))
  {
    assert Pow(r, 1) == r;
    MulAtLeast(r, base);
    assert base * r == r * base;
    AtLeastOneMonotone(base, base * r);
  }

  /**
   * With a non-negative base and whitespace the ratio exceeds one, so the
   * scale never decreases from small through body, h6 ... h1 to display.
   */
  lemma FontScaleOrdered(base: real, f: F.Aggregate)
    requires base >= 0.0 && f.whitespace >= 0.0 && AdjustedRatio(f) != 0.0
    ensures var t := FontScale(base, f);
      t.small <= t.body <= t.h6 <= t.h5 <= t.h4 <= t.h3 <= t.h2 <= t.h1 <= t.display
  {
    var r := AdjustedRatio(f);
    assert r > 1.0;
    var q := base / r;
    assert q * r == base;
    MulAtLeast(r, q);
    AtLeastOneMonotone(q, base);
    FirstStep(base, r);
    StepMonotone(base, r, 1);
    StepMonotone(base, r, 2);
    StepMonotone(base, r, 3);
    StepMonotone(base, r, 4);
    StepMonotone(base, r, 5);
    StepMonotone(base, r, 6);
  }

  /** The inferred base: 16 plus whitespace and aesthetic terms, scaled for calm or busy images. */
  function InferredBase(f: F.Aggregate): (b: real)
    ensures var raw := BaseWeights(f);
      && (F.Simple(f) ==> b == raw * 1.05)
      && (!F.Simple(f) && F.Busy(f) ==> b == raw * 0.95)
      && (!F.Simple(f) && !F.Busy(f) ==> b == raw)
  {
    var raw := BaseWeights(f);
    if f.fractal < 1.3 || f.entropy < 3.0 then raw * 1.05
    else if f.fractal > 1.7 || f.entropy > 6.5 then raw * 0.95
    else raw
  }

  /** The base size before the complexity adjustment: 16px plus the weighted features. */
  function BaseWeights(f: F.Aggregate): real {
    16.0 + f.whitespace * 6.0 + f.aesthetic / 10.0 * 4.0
  }

  /**
   * Plain images are checked first: an image both plain and busy (say low
   * fractal dimension, high entropy) gets the larger base. Busy images
   * that are not plain get a smaller base than the weighted sum; the rest
   * exactly the weighted sum.
   */
  lemma InferredBaseBounds(f: F.Aggregate)
    requires 0.0 <= f.whitespace <= 1.0 && 0.0 <= f.aesthetic <= 10.0
    ensures 15.2 <= InferredBase(f) <= 27.3
    ensures var raw := 16.0 + f.whitespace * 6.0 + f.aesthetic * 0.4;
      && (F.Simple(f) ==> InferredBase(f) > raw)
      && (!F.Simple(f) && F.Busy(f) ==> InferredBase(f) < raw)
      && (!F.Simple(f) && !F.Busy(f) ==> InferredBase(f) == raw)
  {
    assert f.aesthetic / 10.0 * 4.0 == f.aesthetic * 0.4;
  }

  // ---------------------------------------------------------------------------
  // Recommendations
  // ---------------------------------------------------------------------------

  datatype Recommendations = Recommendations(lineHeight: string, letterSpacing: string)

  predicate Relaxed(f: F.Aggregate, ps: set<string>) {
    f.whitespace > 0.6 || f.aesthetic >= 8.0 || "minimalist" in ps || "clean" in ps
  }

  predicate Tight(f: F.Aggregate, ps: set<string>) {
    f.whitespace < 0.4 || f.fractal > 1.7 || f.entropy > 6.5 || "dense" in ps || "complex" in ps
  }

  function LineHeight(f: F.Aggregate, ps: set<string>): (h: string)
    ensures h in {"relaxed", "tight", "normal"}
    ensures h == "relaxed" <==> Relaxed(f, ps)
    ensures h == "tight" <==> !Relaxed(f, ps) && Tight(f, ps)
  {
    if Relaxed(f, ps) then "relaxed"
    else if Tight(f, ps) then "tight"
    else "normal"
  }

  predicate Wide(heading: string, ps: set<string>) {
    Contains(Lower(heading), "display") || "bold" in ps || "expressive" in ps || "vibrant" in ps
  }

  predicate TightSpacing(ps: set<string>) {
    "light" in ps || "geometric" in ps || "minimalist" in ps || "clean" in ps
  }

  /**
   * `get_typographic_recommendations`. `.lower()` is called on the heading
   * font, and on the body font only when neither rule fired and the heading
   * does not mention "script"; a font that is not a string raises there.
   */
  function Recommend(heading: Value, body: Value, f: F.Aggregate, ps: set<string>): (r: Result<Recommendations, string>)
    ensures r.Failure? <==> (!heading.Str?
      || (!Wide(heading.s, ps) && !TightSpacing(ps) && !Contains(Lower(heading.s), "script") && !body.Str?))
    ensures r.Success? ==> r.value.lineHeight == LineHeight(f, ps)
    ensures r.Success? ==> (r.value.letterSpacing == "wide" <==> Wide(heading.s, ps))
    ensures r.Success? ==> (r.value.letterSpacing == "tight" <==> !Wide(heading.s, ps) && TightSpacing(ps))
    ensures r.Success? ==> r.value.letterSpacing in {"wide", "tight", "normal"}
  {
    if !heading.Str? then Failure("heading font has no lower()")
    else
      var h := heading.s;
      var spacing :=
        if Wide(h, ps) then Success("wide")
        else if TightSpacing(ps) then Success("tight")
        else if Contains(Lower(h), "script") then Success("normal")
        else if !body.Str? then Failure("body font has no lower()")
        else Success("normal");
      if spacing.Failure? then Failure(spacing.error)
      else Success(Recommendations(LineHeight(f, ps), spacing.value))
  }

  // ---------------------------------------------------------------------------
  // The whole suggestion
  // ---------------------------------------------------------------------------

  datatype Suggestion = Suggestion(heading: Value, body: Value, scale: TypeScale, recs: Recommendations)

  /**
   * The pairing's fonts, or Roboto and Open Sans when nothing was selected;
   * a half the brand names keeps the default, not the brand's font.
   */
  function ChosenFonts(best: Option<nat>, bh: Value, bb: Value): (r: (string, string))
    requires best.Some? ==> best.value < |Catalogue|
    ensures Truthy(bh) || best.None? ==> r.0 == "Roboto"
    ensures Truthy(bb) || best.None? ==> r.1 == "Open Sans"
    ensures !Truthy(bh) && best.Some? ==> r.0 == Catalogue[best.value].heading
    ensures !Truthy(bb) && best.Some? ==> r.1 == Catalogue[best.value].body
  {
    if best.None? then ("Roboto", "Open Sans")
    else
      var p := Catalogue[best.value];
      (if Truthy(bh) then "Roboto" else p.heading, if Truthy(bb) then "Open Sans" else p.body)
  }

  /** Both brand fonts given: the catalogue is skipped and the base stays 16. */
  function FromBrand(bh: Value, bb: Value, f: F.Aggregate, ps: set<string>): (r: Result<Suggestion, string>)
    requires AdjustedRatio(f) != 0.0
    ensures r.Success? ==> r.value.heading == bh && r.value.body == bb
    ensures r.Success? ==> r.value.scale == FontScale(16.0, f)
  {
    match Recommend(bh, bb, f, ps)
    case Failure(e) => Failure(e)
    case Success(recs) => Success(Suggestion(bh, bb, FontScale(16.0, f), recs))
  }

  /**
   * The catalogue path: the selected pairing (or the defaults) fills the
   * halves the brand leaves open, over a scale from the inferred base.
   */
  function FromCatalogue(bh: Value, bb: Value, f: F.Aggregate, ps: set<string>): (r: Result<Suggestion, string>)
    requires AdjustedRatio(f) != 0.0
    ensures r.Success? ==> r.value.scale == FontScale(InferredBase(f), f)
    ensures r.Success? && Truthy(bh) ==> r.value.heading == Str("Roboto")
    ensures r.Success? && Truthy(bb) ==> r.value.body == Str("Open Sans")
    ensures r.Success? ==> Select(Scores(MakeContext(f, ps, bh, bb))).Success?
    ensures r.Success? && Select(Scores(MakeContext(f, ps, bh, bb))).value.None? ==>
      r.value.heading == Str("Roboto") && r.value.body == Str("Open Sans")
    ensures r.Success? && !Truthy(bh) && !Truthy(bb) && Select(Scores(MakeContext(f, ps, bh, bb))).value.Some? ==>
      var k := Select(Scores(MakeContext(f, ps, bh, bb))).value.value;
      k < |Catalogue|
      && r.value.heading == Str(Catalogue[k].heading) && r.value.body == Str(Catalogue[k].body)
  {
    var s := Scores(MakeContext(f, ps, bh, bb));
    match Select(s)
    case Failure(e) => Failure(e)
    case Success(best) =>
      SelectInCatalogue(s);
      var fonts := ChosenFonts(best, bh, bb);
      match Recommend(Str(fonts.0), Str(fonts.1), f, ps)
      case Failure(e) => Failure(e)
      case Success(recs) =>
        Success(Suggestion(Str(fonts.0), Str(fonts.1), FontScale(InferredBase(f), f), recs))
  }

  /**
   * `suggest_fonts`. The guideline dictionary is copied without a `None`
   * check, principles that are not strings raise, both brand fonts given
   * short-cut the catalogue with an unadjusted base of 16, and otherwise
   * the selected pairing fills the halves the brand leaves open.
   */
  function SuggestFonts(rs: seq<IA.Analysis>, arg: Option<Dict>): (r: Result<Suggestion, string>)
    ensures arg.None? ==> r.Failure?
    ensures r.Success? ==> F.DesignPrinciples(F.ActiveGuidelines(arg.value, F.Aggregated(rs))).Some?
    ensures r.Success? ==> AdjustedRatio(F.Aggregated(rs)) > 0.0
  {
    var f := F.Aggregated(rs);
    match F.FontActiveGuidelines(arg, f)
    case None => Failure("None has no copy()")
    case Some(a) =>
      if AdjustedRatio(f) <= 0.0 then Failure("a zero ratio divides by zero; a negative one makes `ratio ** 1.5` complex, which round() rejects")
      else
      match F.DesignPrinciples(a)
      case None => Failure("a designPrinciples entry is not a string")
      case Some(ps) =>
        var bh := Get(a, "headingFont");
        var bb := Get(a, "bodyFont");
        if Truthy(bh) && Truthy(bb) then FromBrand(bh, bb, f, ps)
        else FromCatalogue(bh, bb, f, ps)
  }

  /** The path `suggest_fonts` takes once the guidelines and principles are known. */
  lemma SuggestFontsPath(rs: seq<IA.Analysis>, g: Dict)
    requires SuggestFonts(rs, Some(g)).Success?
    ensures var f := F.Aggregated(rs);
      var a := F.ActiveGuidelines(g, f);
      var ps := F.DesignPrinciples(a).value;
      var bh := Get(a, "headingFont");
      var bb := Get(a, "bodyFont");
      SuggestFonts(rs, Some(g)) == (if Truthy(bh) && Truthy(bb) then FromBrand(bh, bb, f, ps)
                                    else FromCatalogue(bh, bb, f, ps))
  {
    F.CopiesAgree(Some(g), F.Aggregated(rs));
  }

  /**
   * Both brand fonts given: they come back as given, over the scale built
   * from the fixed base of 16 pixels.
   */
  lemma BrandFontsKept(rs: seq<IA.Analysis>, g: Dict)
    requires var a := F.ActiveGuidelines(g, F.Aggregated(rs));
      Truthy(Get(a, "headingFont")) && Truthy(Get(a, "bodyFont"))
    requires SuggestFonts(rs, Some(g)).Success?
    ensures var a := F.ActiveGuidelines(g, F.Aggregated(rs));
      var out := SuggestFonts(rs, Some(g)).value;
      out.heading == Get(a, "headingFont") && out.body == Get(a, "bodyFont")
      && out.scale == FontScale(16.0, F.Aggregated(rs))
  {
    SuggestFontsPath(rs, g);
  }

  /**
   * Only the heading font given: the heading stays Roboto rather than the
   * brand's font, because a named half is never overwritten by the pairing.
   */
  lemma HalfBrandUsesDefault(rs: seq<IA.Analysis>, g: Dict)
    requires var a := F.ActiveGuidelines(g, F.Aggregated(rs));
      Truthy(Get(a, "headingFont")) && !Truthy(Get(a, "bodyFont"))
    requires SuggestFonts(rs, Some(g)).Success?
    ensures SuggestFonts(rs, Some(g)).value.heading == Str("Roboto")
    ensures SuggestFonts(rs, Some(g)).value.scale == FontScale(InferredBase(F.Aggregated(rs)), F.Aggregated(rs))
  {
    SuggestFontsPath(rs, g);
  }

  /** A selected index is an index of the scores. */
  lemma SelectInCatalogue(s: seq<real>)
    ensures Select(s).Success? && Select(s).value.Some? ==> Select(s).value.value < |s|
  {
    SelectSpec(s);
  }

  /**
   * When the brand leaves both fonts open and the selection succeeds, the
   * suggested fonts are the pairing with the unique highest score, or the
   * defaults when no score beats -1.
   */
  lemma InferredFontsAreBest(rs: seq<IA.Analysis>, g: Dict)
    requires var a := F.ActiveGuidelines(g, F.Aggregated(rs));
      !Truthy(Get(a, "headingFont")) && !Truthy(Get(a, "bodyFont"))
    requires SuggestFonts(rs, Some(g)).Success?
    ensures var a := F.ActiveGuidelines(g, F.Aggregated(rs));
      var ps := F.DesignPrinciples(a).value;
      var s := Scores(MakeContext(F.Aggregated(rs), ps, Get(a, "headingFont"), Get(a, "bodyFont")));
      var out := SuggestFonts(rs, Some(g)).value;
      (exists k :: 0 <= k < |Catalogue| && s[k] > -1.0
                   && out.heading == Str(Catalogue[k].heading) && out.body == Str(Catalogue[k].body)
                   && forall j :: 0 <= j < |Catalogue| && j != k ==> s[j] < s[k])
      || ((forall j :: 0 <= j < |Catalogue| ==> s[j] <= -1.0)
          && out.heading == Str("Roboto") && out.body == Str("Open Sans"))
  {
    var f := F.Aggregated(rs);
    var a := F.ActiveGuidelines(g, f);
    SuggestFontsPath(rs, g);
    CatalogueBest(Get(a, "headingFont"), Get(a, "bodyFont"), f, F.DesignPrinciples(a).value);
  }

  /** Without brand fonts the catalogue path returns the best pairing or the defaults. */
  lemma CatalogueBest(bh: Value, bb: Value, f: F.Aggregate, ps: set<string>)
    requires AdjustedRatio(f) != 0.0
    requires !Truthy(bh) && !Truthy(bb)
    requires FromCatalogue(bh, bb, f, ps).Success?
    ensures var s := Scores(MakeContext(f, ps, bh, bb));
      var out := FromCatalogue(bh, bb, f, ps).value;
      (exists k :: 0 <= k < |Catalogue| && s[k] > -1.0
                   && out.heading == Str(Catalogue[k].heading) && out.body == Str(Catalogue[k].body)
                   && forall j :: 0 <= j < |Catalogue| && j != k ==> s[j] < s[k])
      || ((forall j :: 0 <= j < |Catalogue| ==> s[j] <= -1.0)
          && out.heading == Str("Roboto") && out.body == Str("Open Sans"))
  {
    SelectSpec(Scores(MakeContext(f, ps, bh, bb)));
  }
}
