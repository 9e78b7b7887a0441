/**
 * The decision layer of core/layout_generator.py: the layout style the
 * brand guidelines select, the golden-ratio spacing scale, and the Tailwind
 * classes chosen by an ordered list of rules in which a later match
 * overwrites an earlier one. The HTML text itself is not modelled.
 */
module Layout {
  import opened Wrappers
  import opened Numeric
  import opened Text
  import opened Json
  import F = Features
  import IA = ImageAnalyzer

  // ---------------------------------------------------------------------------
  // Layout style
  // ---------------------------------------------------------------------------

  /**
   * The caller's layout style, overridden by a recognised layoutPreference:
   * minimalist and classic give "minimal", bold gives "dense", modern gives
   * "creative".
   */
  function ResolveStyle(g: Dict, style: string): (r: string)
    ensures "layoutPreference" in g && g["layoutPreference"] == Str("minimalist") ==> r == "minimal"
    ensures "layoutPreference" in g && g["layoutPreference"] == Str("classic") ==> r == "minimal"
    ensures "layoutPreference" in g && g["layoutPreference"] == Str("bold") ==> r == "dense"
    ensures "layoutPreference" in g && g["layoutPreference"] == Str("modern") ==> r == "creative"
    ensures ("layoutPreference" !in g || g["layoutPreference"] !in PreferenceValues) ==> r == style
  {
    if "layoutPreference" !in g then style
    else
      var p := g["layoutPreference"];
      if p == Str("minimalist") then "minimal"
      else if p == Str("bold") then "dense"
      else if p == Str("classic") then "minimal"
      else if p == Str("modern") then "creative"
      else style
  }

  const PreferenceValues: set<Value> := {Str("minimalist"), Str("bold"), Str("classic"), Str("modern")}

  /** The style each inferred preference stands for. */
  function StyleOfPreference(p: string): string
  {
    if p == "minimalist" || p == "classic" then "minimal"
    else if p == "bold" then "dense"
    else "creative"
  }

  /**
   * Without guidelines the inferred preference always overrides the
   * caller's style, so the style is one of the three known ones.
   */
  lemma InferredStyle(f: F.Aggregate, style: string)
    ensures ResolveStyle(F.ActiveGuidelines(map[], f), style) == StyleOfPreference(F.InferPreference(f))
    ensures ResolveStyle(F.ActiveGuidelines(map[], f), style) in {"minimal", "dense", "creative"}
  {
  }

  // ---------------------------------------------------------------------------
  // Spacing
  // ---------------------------------------------------------------------------

  /**
   * The base spacing unit: 16 plus whitespace, balance and aesthetic
   * contributions, shrunk by a tenth for busy images and grown by a tenth
   * for calm ones.
   */
  function SpacingBase(f: F.Aggregate): (b: real)
    ensures var raw := SpacingWeights(f);
      && (F.Busy(f) ==> b == raw * 0.9)
      && (!F.Busy(f) && F.Simple(f) ==> b == raw * 1.1)
      && (!F.Busy(f) && !F.Simple(f) ==> b == raw)
  {
    var raw := SpacingWeights(f);
    if f.fractal > 1.7 || f.entropy > 6.5 then raw * 0.9
    else if f.fractal < 1.3 || f.entropy < 3.0 then raw * 1.1
    else raw
  }

  /** The base before the complexity adjustment: 16px plus the weighted features. */
  function SpacingWeights(f: F.Aggregate): real {
    16.0 + f.whitespace * 20.0 + f.balance * 10.0 + f.aesthetic / 10.0 * 10.0
  }

  /**
   * With whitespace and balance fractions and an aesthetic score out of 10
   * the base lies between 16 * 0.9 and 56 * 1.1. Busy images get a smaller
   * base than the weighted sum; plain ones, unless also busy, a larger one;
   * the rest exactly the weighted sum.
   */
  lemma SpacingBaseBounds(f: F.Aggregate)
    requires 0.0 <= f.whitespace <= 1.0 && 0.0 <= f.balance <= 1.0 && 0.0 <= f.aesthetic <= 10.0
    ensures 14.4 <= SpacingBase(f) <= 61.6
    ensures var raw := 16.0 + f.whitespace * 20.0 + f.balance * 10.0 + f.aesthetic;
      && (F.Busy(f) ==> SpacingBase(f) < raw)
      && (!F.Busy(f) && F.Simple(f) ==> SpacingBase(f) > raw)
      && (!F.Busy(f) && !F.Simple(f) ==> SpacingBase(f) == raw)
  {
    var raw := SpacingWeights(f);
    assert f.aesthetic / 10.0 * 10.0 == f.aesthetic;
    assert 16.0 <= raw <= 56.0;
  }

  /** The six spacing units, in pixels. */
  datatype Scale = Scale(xs: int, sm: int, md: int, lg: int, xl: int, xxl: int)

  /** `round(base / phi^2)`, `round(base / phi)`, ... `round(base * phi^3)`. */
  function SpacingScale(base: real): Scale
  {
    var g2 := Golden * Golden;
    Scale(
      RoundHalfEven(base / g2),
      RoundHalfEven(base / Golden),
      RoundHalfEven(base),
      RoundHalfEven(base * Golden),
      RoundHalfEven(base * g2),
      RoundHalfEven(base * (g2 * Golden)))
  }

  /** For a non-negative base the six units never decrease from xs to 2xl. */
  lemma SpacingScaleOrdered(base: real)
    requires base >= 0.0
    ensures var s := SpacingScale(base);
      0 <= s.xs <= s.sm <= s.md <= s.lg <= s.xl <= s.xxl
  {
    SpacingOrdered(base);
  }

  lemma SpacingOrdered(base: real)
    requires base >= 0.0
    ensures var g2 := Golden * Golden;
      0.0 <= base / g2 <= base / Golden <= base <= base * Golden <= base * g2 <= base * (g2 * Golden)
    ensures var g2 := Golden * Golden;
      && 0 <= RoundHalfEven(base / g2) <= RoundHalfEven(base / Golden)
      && RoundHalfEven(base / Golden) <= RoundHalfEven(base)
      && RoundHalfEven(base) <= RoundHalfEven(base * Golden)
      && RoundHalfEven(base * Golden) <= RoundHalfEven(base * g2)
      && RoundHalfEven(base * g2) <= RoundHalfEven(base * (g2 * Golden))
  {
    var g2 := Golden * Golden;
    var a := base / g2;
    var b := base / Golden;
    assert a * g2 == base;
    assert b * Golden == base;
    assert a * Golden == b by {
      assert (a * Golden) * Golden == a * g2;
    }
    MulAtLeast(Golden, a);
    MulAtLeast(Golden, b);
    MulAtLeast(Golden, base);
    MulAtLeast(Golden, base * Golden);
    assert base * g2 == (base * Golden) * Golden;
    MulAtLeast(Golden, base * g2);
    assert base * (g2 * Golden) == (base * g2) * Golden;
    RoundMonotone(0.0, a);
    RoundOfInt(0);
    RoundMonotone(a, b);
    RoundMonotone(b, base);
    RoundMonotone(base, base * Golden);
    RoundMonotone(base * Golden, base * g2);
    RoundMonotone(base * g2, base * (g2 * Golden));
  }

  /** A whole-pixel base is its own medium unit. */
  lemma WholeBaseIsMedium(k: int)
    ensures SpacingScale(k as real).md == k
  {
    RoundOfInt(k);
  }

  // ---------------------------------------------------------------------------
  // Style classes
  // ---------------------------------------------------------------------------

  /**
   * One Tailwind class string the rules can write. `NoClass` is the empty
   * string the template starts with; `Pad(n)` is the padding class for a
   * spacing unit of `n` pixels.
   */
  datatype Cls =
    | NoClass
    | ShadowSm | ShadowMd | ShadowLg | ShadowXl | Shadow2xl | ShadowNone
    | RoundedMd | RoundedLg | RoundedXl | Rounded3xl | RoundedFull
    | Pad(px: int)
    | Transition300 | Transition500 | Transition700
    | BgWhite | BgGray200 | BgPattern50 | BgPattern100 | BgPattern200
    | BorderSolid | BorderNone | BorderGray100 | BorderGray200
    | BorderSolidGray300x2 | BorderSolidGray400 | BorderSolidGray500x2
    | BorderDashedPrimary2 | BorderDottedPrimary2 | BorderSolidAccent4
    | LeadingTight | LeadingNormal | LeadingRelaxed | LeadingLoose
    | TrackingTight | TrackingNormal | TrackingWide | TrackingWider

  /**
   * The text the template interpolates for a class. The padding class is
   * `p-` followed by the unit divided by 4; Python's floor division by 4
   * agrees with Dafny's on every integer.
   */
  function Render(c: Cls): string
  {
    match c
    case NoClass => ""
    case ShadowSm => "shadow-sm"
    case ShadowMd => "shadow-md"
    case ShadowLg => "shadow-lg"
    case ShadowXl => "shadow-xl"
    case Shadow2xl => "shadow-2xl"
    case ShadowNone => "shadow-none"
    case RoundedMd => "rounded-md"
    case RoundedLg => "rounded-lg"
    case RoundedXl => "rounded-xl"
    case Rounded3xl => "rounded-3xl"
    case RoundedFull => "rounded-full"
    case Pad(px) => "p-" + IntToString(px / 4)
    case Transition300 => "transition-all duration-300 ease-in-out"
    case Transition500 => "transition-all duration-500 ease-in-out"
    case Transition700 => "transition-all duration-700 ease-in-out"
    case BgWhite => "bg-white"
    case BgGray200 => "bg-gray-200"
    case BgPattern50 => "bg-repeat bg-center bg-gray-50 bg-opacity-20"
    case BgPattern100 => "bg-repeat bg-center bg-gray-100 bg-opacity-50"
    case BgPattern200 => "bg-repeat bg-center bg-gray-200"
    case BorderSolid => "border-solid"
    case BorderNone => "border-none"
    case BorderGray100 => "border-gray-100 border"
    case BorderGray200 => "border-gray-200 border"
    case BorderSolidGray300x2 => "border-solid border-gray-300 border-2"
    case BorderSolidGray400 => "border-solid border-gray-400 border"
    case BorderSolidGray500x2 => "border-solid border-gray-500 border-2"
    case BorderDashedPrimary2 => "border-dashed border-2 border-primary"
    case BorderDottedPrimary2 => "border-dotted border-primary border-2"
    case BorderSolidAccent4 => "border-solid border-accent border-4"
    case LeadingTight => "leading-tight"
    case LeadingNormal => "leading-normal"
    case LeadingRelaxed => "leading-relaxed"
    case LeadingLoose => "leading-loose"
    case TrackingTight => "tracking-tight"
    case TrackingNormal => "tracking-normal"
    case TrackingWide => "tracking-wide"
    case TrackingWider => "tracking-wider"
  }

  /** The classes the template interpolates. */
  datatype Classes = Classes(
    headerShadow: Cls,
    buttonRounded: Cls,
    sectionPadding: Cls,
    cardShadow: Cls,
    cardRounded: Cls,
    transition: Cls,
    bgPattern: Cls,
    border: Cls,
    leading: Cls,
    tracking: Cls)

  function DefaultClasses(sc: Scale): Classes
  {
    Classes(ShadowMd, RoundedFull, Pad(sc.lg), ShadowMd, RoundedLg,
            NoClass, NoClass, BorderSolid, LeadingNormal, TrackingNormal)
  }

  /** Which of the ten class rules fire, in source order. */
  datatype Fired = Fired(
    professional: bool, playful: bool, minimalist: bool, dense: bool,
    structured: bool, organic: bool, bold: bool, subtle: bool, clean: bool, complex: bool)

  /** The four mood rules read the batch; the six principle rules read the principles. */
  function FiredRules(f: F.Aggregate, ps: set<string>): Fired
  {
    Fired(
      "professional" in f.moods || f.aesthetic >= 8.0,
      "playful" in f.moods || "creative" in f.moods,
      "minimalist" in f.moods || f.whitespace > 0.7,
      "dense" in f.moods || f.whitespace < 0.3,
      "structured" in ps, "organic" in ps, "bold" in ps,
      "subtle" in ps, "clean" in ps, "complex" in ps)
  }

  function Professional(c: Classes, f: F.Aggregate): Classes
  {
    c.(headerShadow := ShadowXl, cardShadow := ShadowLg, buttonRounded := RoundedMd,
       transition := Transition500,
       bgPattern := if f.fractal < 1.3 then BgWhite else c.bgPattern,
       border := BorderGray200, leading := LeadingRelaxed, tracking := TrackingTight)
  }

  function Playful(c: Classes, f: F.Aggregate): Classes
  {
    c.(buttonRounded := RoundedFull, cardRounded := Rounded3xl,
       transition := Transition300,
       bgPattern := if f.entropy > 6.0 then BgPattern50 else c.bgPattern,
       border := BorderDashedPrimary2, leading := LeadingLoose, tracking := TrackingWide)
  }

  function Minimalist(c: Classes, sc: Scale): Classes
  {
    c.(sectionPadding := Pad(sc.xl), cardShadow := ShadowSm, cardRounded := RoundedXl,
       bgPattern := BgWhite, border := BorderNone, leading := LeadingRelaxed, tracking := TrackingTight)
  }

  function Dense(c: Classes, f: F.Aggregate, sc: Scale): Classes
  {
    c.(sectionPadding := Pad(sc.sm), cardShadow := ShadowNone,
       bgPattern := if f.entropy > 7.0 then BgGray200 else c.bgPattern,
       border := BorderSolidGray400, leading := LeadingTight, tracking := TrackingNormal)
  }

  function StructuredClasses(c: Classes): Classes
  {
    c.(buttonRounded := RoundedMd, cardRounded := RoundedLg, headerShadow := ShadowLg,
       border := BorderSolidGray300x2, leading := LeadingNormal, tracking := TrackingTight)
  }

  function OrganicClasses(c: Classes): Classes
  {
    c.(buttonRounded := RoundedFull, cardRounded := Rounded3xl,
       bgPattern := BgPattern100,
       border := BorderDottedPrimary2, leading := LeadingLoose, tracking := TrackingWide)
  }

  function BoldClasses(c: Classes, sc: Scale): Classes
  {
    c.(headerShadow := Shadow2xl, cardShadow := ShadowXl, sectionPadding := Pad(sc.sm),
       border := BorderSolidAccent4, leading := LeadingTight, tracking := TrackingWider)
  }

  function SubtleClasses(c: Classes): Classes
  {
    c.(headerShadow := ShadowSm, cardShadow := ShadowSm,
       transition := Transition700, bgPattern := BgWhite,
       border := BorderNone, leading := LeadingRelaxed, tracking := TrackingNormal)
  }

  function CleanClasses(c: Classes): Classes
  {
    c.(cardShadow := ShadowNone, cardRounded := RoundedMd, bgPattern := BgWhite,
       border := BorderGray100, leading := LeadingRelaxed, tracking := TrackingTight)
  }

  function ComplexClasses(c: Classes): Classes
  {
    c.(cardShadow := ShadowXl, buttonRounded := RoundedLg, bgPattern := BgPattern200,
       border := BorderSolidGray500x2, leading := LeadingTight, tracking := TrackingNormal)
  }

  /** The classes after the four mood rules, in source order. */
  function MoodLayer(t: Fired, f: F.Aggregate, sc: Scale): Classes
  {
    var c0 := DefaultClasses(sc);
    var c1 := if t.professional then Professional(c0, f) else c0;
    var c2 := if t.playful then Playful(c1, f) else c1;
    var c3 := if t.minimalist then Minimalist(c2, sc) else c2;
    if t.dense then Dense(c3, f, sc) else c3
  }

  /** The six principle rules, in source order, layered over `c`. */
  function PrincipleLayer(t: Fired, c: Classes, sc: Scale): Classes
  {
    var c5 := if t.structured then StructuredClasses(c) else c;
    var c6 := if t.organic then OrganicClasses(c5) else c5;
    var c7 := if t.bold then BoldClasses(c6, sc) else c6;
    var c8 := if t.subtle then SubtleClasses(c7) else c7;
    var c9 := if t.clean then CleanClasses(c8) else c8;
    if t.complex then ComplexClasses(c9) else c9
  }

  /** All ten rules: the principle rules are layered over the mood rules. */
  function Layered(t: Fired, f: F.Aggregate, sc: Scale): Classes
  {
    PrincipleLayer(t, MoodLayer(t, f, sc), sc)
  }

  function StyleClasses(f: F.Aggregate, ps: set<string>, sc: Scale): Classes
  {
    Layered(FiredRules(f, ps), f, sc)
  }

  /** What the four mood rules leave in each class, the last matching writer winning. */
  lemma MoodLayerWrites(t: Fired, f: F.Aggregate, sc: Scale)
    ensures var c := MoodLayer(t, f, sc);
      && c.headerShadow == (if t.professional then ShadowXl else ShadowMd)
      && c.buttonRounded == (if t.playful then RoundedFull else if t.professional then RoundedMd else RoundedFull)
      && c.sectionPadding == (if t.dense then Pad(sc.sm) else if t.minimalist then Pad(sc.xl) else Pad(sc.lg))
      && c.cardShadow == (if t.dense then ShadowNone else if t.minimalist then ShadowSm
                          else if t.professional then ShadowLg else ShadowMd)
      && c.cardRounded == (if t.minimalist then RoundedXl else if t.playful then Rounded3xl else RoundedLg)
      && c.transition == (if t.playful then Transition300
                          else if t.professional then Transition500 else NoClass)
  {
  }

  /** The background and text classes after the mood rules. */
  lemma MoodLayerWritesText(t: Fired, f: F.Aggregate, sc: Scale)
    ensures var c := MoodLayer(t, f, sc);
      && c.bgPattern == (if t.dense && f.entropy > 7.0 then BgGray200
                         else if t.minimalist then BgWhite
                         else if t.playful && f.entropy > 6.0 then BgPattern50
                         else if t.professional && f.fractal < 1.3 then BgWhite else NoClass)
      && c.border == (if t.dense then BorderSolidGray400
                      else if t.minimalist then BorderNone
                      else if t.playful then BorderDashedPrimary2
                      else if t.professional then BorderGray200 else BorderSolid)
      && c.leading == (if t.dense then LeadingTight else if t.minimalist then LeadingRelaxed
                       else if t.playful then LeadingLoose else if t.professional then LeadingRelaxed
                       else LeadingNormal)
      && c.tracking == (if t.dense then TrackingNormal else if t.minimalist then TrackingTight
                        else if t.playful then TrackingWide else if t.professional then TrackingTight
                        else TrackingNormal)
  {
  }

  /** What the six principle rules write over the classes `c` they start from: header, button, padding. */
  lemma PrincipleLayerWrites(t: Fired, c: Classes, sc: Scale)
    ensures var r := PrincipleLayer(t, c, sc);
      && r.headerShadow == (if t.subtle then ShadowSm else if t.bold then Shadow2xl
                            else if t.structured then ShadowLg else c.headerShadow)
      && r.buttonRounded == (if t.complex then RoundedLg else if t.organic then RoundedFull
                             else if t.structured then RoundedMd else c.buttonRounded)
      && r.sectionPadding == (if t.bold then Pad(sc.sm) else c.sectionPadding)
  {
  }

  /** The card and transition classes the principle rules write. */
  lemma PrincipleLayerWritesCards(t: Fired, c: Classes, sc: Scale)
    ensures var r := PrincipleLayer(t, c, sc);
      && r.cardShadow == (if t.complex then ShadowXl else if t.clean then ShadowNone
                          else if t.subtle then ShadowSm else if t.bold then ShadowXl else c.cardShadow)
      && r.cardRounded == (if t.clean then RoundedMd else if t.organic then Rounded3xl
                           else if t.structured then RoundedLg else c.cardRounded)
      && r.transition == (if t.subtle then Transition700 else c.transition)
  {
  }

  /** The background and text classes the principle rules write. */
  lemma PrincipleLayerWritesText(t: Fired, c: Classes, sc: Scale)
    ensures var r := PrincipleLayer(t, c, sc);
      && r.bgPattern == (if t.complex then BgPattern200
                         else if t.clean || t.subtle then BgWhite
                         else if t.organic then BgPattern100
                         else c.bgPattern)
      && r.border == (if t.complex then BorderSolidGray500x2
                      else if t.clean then BorderGray100
                      else if t.subtle then BorderNone
                      else if t.bold then BorderSolidAccent4
                      else if t.organic then BorderDottedPrimary2
                      else if t.structured then BorderSolidGray300x2
                      else c.border)
      && r.leading == (if t.complex then LeadingTight else if t.clean || t.subtle then LeadingRelaxed
                       else if t.bold then LeadingTight else if t.organic then LeadingLoose
                       else if t.structured then LeadingNormal else c.leading)
      && r.tracking == (if t.complex then TrackingNormal else if t.clean then TrackingTight
                        else if t.subtle then TrackingNormal else if t.bold then TrackingWider
                        else if t.organic then TrackingWide else if t.structured then TrackingTight
                        else c.tracking)
  {
  }

  /** The card shadow is written by the last matching rule among its six writers. */
  lemma CardShadowLastWriter(t: Fired, f: F.Aggregate, sc: Scale)
    ensures Layered(t, f, sc).cardShadow ==
      if t.complex then ShadowXl
      else if t.clean then ShadowNone
      else if t.subtle then ShadowSm
      else if t.bold then ShadowXl
      else if t.dense then ShadowNone
      else if t.minimalist then ShadowSm
      else if t.professional then ShadowLg
      else ShadowMd
  {
    MoodLayerWrites(t, f, sc);
    PrincipleLayerWritesCards(t, MoodLayer(t, f, sc), sc);
  }

  /** The header shadow: subtle over bold over structured over professional. */
  lemma HeaderShadowLastWriter(t: Fired, f: F.Aggregate, sc: Scale)
    ensures Layered(t, f, sc).headerShadow ==
      if t.subtle then ShadowSm
      else if t.bold then Shadow2xl
      else if t.structured then ShadowLg
      else if t.professional then ShadowXl
      else ShadowMd
  {
    MoodLayerWrites(t, f, sc);
    PrincipleLayerWrites(t, MoodLayer(t, f, sc), sc);
  }

  /** The button rounding. */
  lemma ButtonLastWriter(t: Fired, f: F.Aggregate, sc: Scale)
    ensures Layered(t, f, sc).buttonRounded ==
      if t.complex then RoundedLg
      else if t.organic then RoundedFull
      else if t.structured then RoundedMd
      else if t.playful then RoundedFull
      else if t.professional then RoundedMd
      else RoundedFull
  {
    MoodLayerWrites(t, f, sc);
    PrincipleLayerWrites(t, MoodLayer(t, f, sc), sc);
  }

  /** The section padding: the bold principle and the dense rule both use the small unit. */
  lemma PaddingLastWriter(t: Fired, f: F.Aggregate, sc: Scale)
    ensures Layered(t, f, sc).sectionPadding ==
      if t.bold || t.dense then Pad(sc.sm)
      else if t.minimalist then Pad(sc.xl)
      else Pad(sc.lg)
  {
    MoodLayerWrites(t, f, sc);
    PrincipleLayerWrites(t, MoodLayer(t, f, sc), sc);
  }

  /** The card rounding. */
  lemma CardRoundedLastWriter(t: Fired, f: F.Aggregate, sc: Scale)
    ensures Layered(t, f, sc).cardRounded ==
      if t.clean then RoundedMd
      else if t.organic then Rounded3xl
      else if t.structured then RoundedLg
      else if t.minimalist then RoundedXl
      else if t.playful then Rounded3xl
      else RoundedLg
  {
    MoodLayerWrites(t, f, sc);
    PrincipleLayerWritesCards(t, MoodLayer(t, f, sc), sc);
  }

  /** The transition. */
  lemma TransitionLastWriter(t: Fired, f: F.Aggregate, sc: Scale)
    ensures Layered(t, f, sc).transition ==
      if t.subtle then Transition700
      else if t.playful then Transition300
      else if t.professional then Transition500
      else NoClass
  {
    MoodLayerWrites(t, f, sc);
    PrincipleLayerWritesCards(t, MoodLayer(t, f, sc), sc);
  }

  /** The background pattern, including the writes guarded by an inner condition. */
  lemma BackgroundLastWriter(t: Fired, f: F.Aggregate, sc: Scale)
    ensures Layered(t, f, sc).bgPattern ==
      if t.complex then BgPattern200
      else if t.clean || t.subtle then BgWhite
      else if t.organic then BgPattern100
      else if t.dense && f.entropy > 7.0 then BgGray200
      else if t.minimalist then BgWhite
      else if t.playful && f.entropy > 6.0 then BgPattern50
      else if t.professional && f.fractal < 1.3 then BgWhite
      else NoClass
  {
    MoodLayerWritesText(t, f, sc);
    PrincipleLayerWritesText(t, MoodLayer(t, f, sc), sc);
  }

  /** The line height, written by every rule. */
  lemma LeadingLastWriter(t: Fired, f: F.Aggregate, sc: Scale)
    ensures Layered(t, f, sc).leading ==
      if t.complex then LeadingTight
      else if t.clean || t.subtle then LeadingRelaxed
      else if t.bold then LeadingTight
      else if t.organic then LeadingLoose
      else if t.structured then LeadingNormal
      else if t.dense then LeadingTight
      else if t.minimalist then LeadingRelaxed
      else if t.playful then LeadingLoose
      else if t.professional then LeadingRelaxed
      else LeadingNormal
  {
    MoodLayerWritesText(t, f, sc);
    PrincipleLayerWritesText(t, MoodLayer(t, f, sc), sc);
  }

  /** The letter tracking, written by every rule. */
  lemma TrackingLastWriter(t: Fired, f: F.Aggregate, sc: Scale)
    ensures Layered(t, f, sc).tracking ==
      if t.complex then TrackingNormal
      else if t.clean then TrackingTight
      else if t.subtle then TrackingNormal
      else if t.bold then TrackingWider
      else if t.organic then TrackingWide
      else if t.structured then TrackingTight
      else if t.dense then TrackingNormal
      else if t.minimalist then TrackingTight
      else if t.playful then TrackingWide
      else if t.professional then TrackingTight
      else TrackingNormal
  {
    MoodLayerWritesText(t, f, sc);
    PrincipleLayerWritesText(t, MoodLayer(t, f, sc), sc);
  }

  /** The border, written by every rule. */
  lemma BorderLastWriter(t: Fired, f: F.Aggregate, sc: Scale)
    ensures Layered(t, f, sc).border ==
      if t.complex then BorderSolidGray500x2
      else if t.clean then BorderGray100
      else if t.subtle then BorderNone
      else if t.bold then BorderSolidAccent4
      else if t.organic then BorderDottedPrimary2
      else if t.structured then BorderSolidGray300x2
      else if t.dense then BorderSolidGray400
      else if t.minimalist then BorderNone
      else if t.playful then BorderDashedPrimary2
      else if t.professional then BorderGray200
      else BorderSolid
  {
    MoodLayerWritesText(t, f, sc);
    PrincipleLayerWritesText(t, MoodLayer(t, f, sc), sc);
  }

  /**
   * With no tag or principle rule firing, moderate whitespace and an
   * aesthetic score below 8, every class keeps its default.
   */
  lemma QuietImageKeepsDefaults(f: F.Aggregate, sc: Scale)
    requires "professional" !in f.moods && "playful" !in f.moods && "creative" !in f.moods
    requires "minimalist" !in f.moods && "dense" !in f.moods
    requires 0.3 <= f.whitespace <= 0.7 && f.aesthetic < 8.0
    ensures StyleClasses(f, {}, sc) == DefaultClasses(sc)
  {
  }

  // ---------------------------------------------------------------------------
  // The whole decision
  // ---------------------------------------------------------------------------

  /** Everything the template interpolates, and the guidelines returned with it. */
  datatype Plan = Plan(style: string, scale: Scale, classes: Classes, guidelines: Dict)

  /**
   * `generate_layout` without the HTML: aggregate, fill in guidelines when
   * none are given, extract principles, resolve the style, size the
   * spacing and layer the classes. It raises when a designPrinciples entry
   * is not a string, and when the creative template reads the first
   * analysis of an empty batch.
   */
  function GenerateLayout(rs: seq<IA.Analysis>, arg: Option<Dict>, style: string): (r: Result<Plan, string>)
    ensures r.Success? ==> r.value.guidelines == F.ActiveFromArgument(arg, F.Aggregated(rs))
    ensures r.Success? ==> r.value.style == ResolveStyle(r.value.guidelines, style)
    ensures r.Failure? <==>
      F.DesignPrinciples(F.ActiveFromArgument(arg, F.Aggregated(rs))).None?
      || (|rs| == 0 && ResolveStyle(F.ActiveFromArgument(arg, F.Aggregated(rs)), style) == "creative")
  {
    var f := F.Aggregated(rs);
    var active := F.ActiveFromArgument(arg, f);
    match F.DesignPrinciples(active)
    case None => Failure("a designPrinciples entry is not a string")
    case Some(ps) =>
      var resolved := ResolveStyle(active, style);
      if |rs| == 0 && resolved == "creative" then Failure("creative layout reads the first analysis")
      else
        var sc := SpacingScale(SpacingBase(f));
        Success(Plan(resolved, sc, StyleClasses(f, ps, sc), active))
  }

  /** A non-empty guideline dictionary comes back unchanged, with nothing inferred. */
  lemma GivenGuidelinesUnchanged(rs: seq<IA.Analysis>, g: Dict, style: string)
    requires |g| > 0
    requires GenerateLayout(rs, Some(g), style).Success?
    ensures GenerateLayout(rs, Some(g), style).value.guidelines == g
  {
  }

  /**
   * An empty batch with no guidelines and any style: the defaults give the
   * "classic" preference and so the minimal style, and the spacing base is
   * 16 + 10 + 5 + 5 = 36 pixels.
   */
  lemma EmptyBatch(style: string)
    ensures GenerateLayout([], None, style).Success?
    ensures GenerateLayout([], None, style).value.style == "minimal"
    ensures GenerateLayout([], None, style).value.scale.md == 36
  {
    var f := F.Aggregated([]);
    assert f == F.DefaultAggregate;
    assert F.InferPreference(f) == "classic";
    var active := F.ActiveGuidelines(map[], f);
    F.InferredPrinciplesRecovered(f);
    assert SpacingBase(f) == 36.0;
    RoundOfInt(36);
  }
}
