/**
 * core/js_component_suggester.py: interactive components proposed for a
 * batch of analyses. The caller's layout style picks a first component and
 * up to three more; five cross-cutting rules follow. Every rule appends at
 * most one component and nothing is ever removed or reordered. The
 * variation and rationale texts are not modelled, only which components
 * are proposed and in which order.
 */
module Components {
  import opened Wrappers
  import opened Json
  import F = Features
  import IA = ImageAnalyzer

  datatype Component =
    | ModalDialog | Accordion | SmoothScroll
    | TabbedInterface | InteractiveChart | AdvancedSearch
    | ImageCarousel | CanvasAnimation | LottieAnimation | InteractiveGrid
    | TooltipSystem | StickyNavigation | AnimatedCta | ImageLightbox | InfiniteScroll

  /** The `component` entry of a suggestion. */
  function Name(c: Component): string {
    match c
    case ModalDialog => "Modal/Dialog"
    case Accordion => "Accordion/Collapse"
    case SmoothScroll => "Smooth Scroll/Scroll-to-Top Button"
    case TabbedInterface => "Tabbed Interface"
    case InteractiveChart => "Interactive Chart/Graph"
    case AdvancedSearch => "Advanced Search with Autocomplete/Filtering"
    case ImageCarousel => "Image Carousel/Slider"
    case CanvasAnimation => "Interactive Background/Canvas Animation"
    case LottieAnimation => "Lottie Animation (JSON-based)"
    case InteractiveGrid => "Interactive Grid with Hover Effects"
    case TooltipSystem => "Tooltip/Popover System"
    case StickyNavigation => "Sticky Navigation with Scroll-based Transformations"
    case AnimatedCta => "Animated Call-to-Action (CTA) Button"
    case ImageLightbox => "Minimalist Image Lightbox"
    case InfiniteScroll => "Infinite Scroll/Load More Button"
  }

  /** The caller's layout style as the rules see it: three names and the rest. */
  datatype Kind = Minimal | Dense | Creative | OtherStyle

  function KindOf(style: string): (k: Kind)
    ensures k == Minimal <==> style == "minimal"
    ensures k == Dense <==> style == "dense"
    ensures k == Creative <==> style == "creative"
  {
    if style == "minimal" then Minimal
    else if style == "dense" then Dense
    else if style == "creative" then Creative
    else OtherStyle
  }

  // ---------------------------------------------------------------------------
  // The rule table: a reference statement of when each component is proposed
  // ---------------------------------------------------------------------------

  const MinimalRules: seq<Component> := [ModalDialog, Accordion, SmoothScroll]
  const DenseRules: seq<Component> := [TabbedInterface, InteractiveChart, AdvancedSearch]
  const CreativeRules: seq<Component> := [ImageCarousel, CanvasAnimation, LottieAnimation, InteractiveGrid]
  const CrossRules: seq<Component> := [TooltipSystem, StickyNavigation, AnimatedCta, ImageLightbox, InfiniteScroll]

  /** Every component once, in the order the rules are tried. */
  const RuleOrder: seq<Component> := MinimalRules + DenseRules + CreativeRules + CrossRules

  /** The condition under which a component's rule fires. */
  predicate Fires(c: Component, k: Kind, f: F.Aggregate, ps: set<string>) {
    match c
    case ModalDialog => k == Minimal
    case Accordion => k == Minimal && f.horizontal > 0.8 && f.vertical > 0.8
    case SmoothScroll => k == Minimal && f.aesthetic >= 8.0 && f.fractal < 1.3
    case TabbedInterface => k == Dense
    case InteractiveChart => k == Dense && (f.fractal > 1.7 || "complex" in ps)
    case AdvancedSearch => k == Dense && (f.entropy > 6.0 || "complex" in ps)
    case ImageCarousel => k == Creative
    case CanvasAnimation => k == Creative && (f.horizontal < 0.6 || f.vertical < 0.6 || "organic" in ps)
    case LottieAnimation => k == Creative && ("playful" in f.moods || "expressive" in ps)
    case InteractiveGrid => k == Creative && f.aesthetic >= 8.0 && f.golden
    case TooltipSystem => f.aesthetic >= 8.0 && "professional" in f.moods
    case StickyNavigation => f.balance >= 0.9 && "structured" in ps
    case AnimatedCta => "vibrant" in f.moods || "energetic" in f.moods || "bold" in ps
    case ImageLightbox => f.fractal < 1.3 && "clean" in ps
    case InfiniteScroll => f.entropy > 7.0 && "complex" in ps
  }

  /** The components of `cs` whose rule fires, in the order of `cs`. */
  function Filter(cs: seq<Component>, k: Kind, f: F.Aggregate, ps: set<string>): (s: seq<Component>)
    ensures |s| <= |cs|
  {
    if |cs| == 0 then []
    else (if Fires(cs[0], k, f, ps) then [cs[0]] else []) + Filter(cs[1..], k, f, ps)
  }

  /** The filter keeps exactly the components whose rule fires. */
  lemma {:induction false} FilterMembers(cs: seq<Component>, k: Kind, f: F.Aggregate, ps: set<string>, c: Component)
    ensures c in Filter(cs, k, f, ps) <==> c in cs && Fires(c, k, f, ps)
  {
    if |cs| > 0 {
      assert cs == [cs[0]] + cs[1..];
      FilterMembers(cs[1..], k, f, ps, c);
    }
  }

  /** One step of the filter, for lists whose first element is known. */
  lemma FilterCons(c: Component, rest: seq<Component>, k: Kind, f: F.Aggregate, ps: set<string>)
    ensures Filter([c] + rest, k, f, ps) == (if Fires(c, k, f, ps) then [c] else []) + Filter(rest, k, f, ps)
  {
    assert ([c] + rest)[0] == c;
    assert ([c] + rest)[1..] == rest;
  }

  lemma {:induction false} FilterAppend(a: seq<Component>, b: seq<Component>, k: Kind, f: F.Aggregate, ps: set<string>)
    ensures Filter(a + b, k, f, ps) == Filter(a, k, f, ps) + Filter(b, k, f, ps)
  {
    if |a| == 0 {
      assert a + b == b;
    } else {
      assert (a + b)[0] == a[0];
      assert (a + b)[1..] == a[1..] + b;
      FilterAppend(a[1..], b, k, f, ps);
      var head := if Fires(a[0], k, f, ps) then [a[0]] else [];
      assert head + (Filter(a[1..], k, f, ps) + Filter(b, k, f, ps))
          == (head + Filter(a[1..], k, f, ps)) + Filter(b, k, f, ps);
    }
  }

  predicate Distinct(s: seq<Component>) {
    forall i, j :: 0 <= i < j < |s| ==> s[i] != s[j]
  }

  /** Filtering a list without repeats gives a list without repeats. */
  lemma {:induction false} FilterDistinct(cs: seq<Component>, k: Kind, f: F.Aggregate, ps: set<string>)
    requires Distinct(cs)
    ensures Distinct(Filter(cs, k, f, ps))
  {
    if |cs| > 0 {
      var rest := cs[1..];
      assert Distinct(rest) by {
        forall i, j | 0 <= i < j < |rest| ensures rest[i] != rest[j] {
          assert rest[i] == cs[i + 1] && rest[j] == cs[j + 1];
        }
      }
      FilterDistinct(rest, k, f, ps);
      FilterMembers(rest, k, f, ps, cs[0]);
      assert cs[0] !in rest by {
        forall i | 0 <= i < |rest| ensures rest[i] != cs[0] {
          assert rest[i] == cs[i + 1];
        }
      }
    }
  }

  /** A component's position in the rule order. */
  function Rank(c: Component): nat {
    match c
    case ModalDialog => 0
    case Accordion => 1
    case SmoothScroll => 2
    case TabbedInterface => 3
    case InteractiveChart => 4
    case AdvancedSearch => 5
    case ImageCarousel => 6
    case CanvasAnimation => 7
    case LottieAnimation => 8
    case InteractiveGrid => 9
    case TooltipSystem => 10
    case StickyNavigation => 11
    case AnimatedCta => 12
    case ImageLightbox => 13
    case InfiniteScroll => 14
  }

  /** Every component sits in the rule order exactly at its rank. */
  lemma RuleOrderRanks()
    ensures |RuleOrder| == 15
    ensures forall i :: 0 <= i < |RuleOrder| ==> Rank(RuleOrder[i]) == i
  {
    assert RuleOrder == [ModalDialog, Accordion, SmoothScroll,
                         TabbedInterface, InteractiveChart, AdvancedSearch,
                         ImageCarousel, CanvasAnimation, LottieAnimation, InteractiveGrid,
                         TooltipSystem, StickyNavigation, AnimatedCta, ImageLightbox, InfiniteScroll];
  }

  lemma RuleOrderComplete(c: Component)
    ensures c in RuleOrder
  {
    RuleOrderRanks();
    assert RuleOrder[Rank(c)] == c by {
      var d := RuleOrder[Rank(c)];
      assert Rank(d) == Rank(c);
    }
  }

  lemma RuleOrderDistinct()
    ensures Distinct(RuleOrder)
  {
    RuleOrderRanks();
    forall i, j | 0 <= i < j < |RuleOrder| ensures RuleOrder[i] != RuleOrder[j] {
      assert Rank(RuleOrder[i]) == i && Rank(RuleOrder[j]) == j;
    }
  }

  // ---------------------------------------------------------------------------
  // The rules as the suggester applies them
  // ---------------------------------------------------------------------------

  /** The layout-specific block: one branch per recognised style, none for any other. */
  function LayoutSuggestions(k: Kind, f: F.Aggregate, ps: set<string>): (s: seq<Component>)
    ensures k == Minimal ==> 1 <= |s| <= 3 && s[0] == ModalDialog
    ensures k == Dense ==> 1 <= |s| <= 3 && s[0] == TabbedInterface
    ensures k == Creative ==> 1 <= |s| <= 4 && s[0] == ImageCarousel
    ensures k == OtherStyle ==> s == []
  {
    if k == Minimal then
      [ModalDialog]
      + (if f.horizontal > 0.8 && f.vertical > 0.8 then [Accordion] else [])
      + (if f.aesthetic >= 8.0 && f.fractal < 1.3 then [SmoothScroll] else [])
    else if k == Dense then
      [TabbedInterface]
      + (if f.fractal > 1.7 || "complex" in ps then [InteractiveChart] else [])
      + (if f.entropy > 6.0 || "complex" in ps then [AdvancedSearch] else [])
    else if k == Creative then
      [ImageCarousel]
      + (if f.horizontal < 0.6 || f.vertical < 0.6 || "organic" in ps then [CanvasAnimation] else [])
      + (if "playful" in f.moods || "expressive" in ps then [LottieAnimation] else [])
      + (if f.aesthetic >= 8.0 && f.golden then [InteractiveGrid] else [])
    else []
  }

  /** The five cross-cutting rules, applied whatever the style. */
  function CrossSuggestions(f: F.Aggregate, ps: set<string>): (s: seq<Component>)
    ensures |s| <= 5
  {
    (if f.aesthetic >= 8.0 && "professional" in f.moods then [TooltipSystem] else [])
    + (if f.balance >= 0.9 && "structured" in ps then [StickyNavigation] else [])
    + (if "vibrant" in f.moods || "energetic" in f.moods || "bold" in ps then [AnimatedCta] else [])
    + (if f.fractal < 1.3 && "clean" in ps then [ImageLightbox] else [])
    + (if f.entropy > 7.0 && "complex" in ps then [InfiniteScroll] else [])
  }

  function Suggest(k: Kind, f: F.Aggregate, ps: set<string>): seq<Component>
  {
    LayoutSuggestions(k, f, ps) + CrossSuggestions(f, ps)
  }

  /** The filter's contribution for one component. */
  function Keep(c: Component, k: Kind, f: F.Aggregate, ps: set<string>): seq<Component> {
    if Fires(c, k, f, ps) then [c] else []
  }

  // The filter over short literal lists, for components left abstract so
  // that no rule is unfolded while the list is taken apart.

  lemma FilterOne(a: Component, k: Kind, f: F.Aggregate, ps: set<string>)
    ensures Filter([a], k, f, ps) == Keep(a, k, f, ps)
  {
    FilterCons(a, [], k, f, ps);
    assert [a] == [a] + [];
  }

  lemma FilterTwo(a: Component, b: Component, k: Kind, f: F.Aggregate, ps: set<string>)
    ensures Filter([a, b], k, f, ps) == Keep(a, k, f, ps) + Keep(b, k, f, ps)
  {
    FilterCons(a, [b], k, f, ps);
    assert [a, b] == [a] + [b];
    FilterOne(b, k, f, ps);
  }

  lemma FilterThree(a: Component, b: Component, c: Component, k: Kind, f: F.Aggregate, ps: set<string>)
    ensures Filter([a, b, c], k, f, ps) == Keep(a, k, f, ps) + (Keep(b, k, f, ps) + Keep(c, k, f, ps))
  {
    FilterCons(a, [b, c], k, f, ps);
    assert [a, b, c] == [a] + [b, c];
    FilterTwo(b, c, k, f, ps);
  }

  lemma FilterFour(a: Component, b: Component, c: Component, d: Component, k: Kind, f: F.Aggregate, ps: set<string>)
    ensures Filter([a, b, c, d], k, f, ps)
         == Keep(a, k, f, ps) + (Keep(b, k, f, ps) + (Keep(c, k, f, ps) + Keep(d, k, f, ps)))
  {
    FilterCons(a, [b, c, d], k, f, ps);
    assert [a, b, c, d] == [a] + [b, c, d];
    FilterThree(b, c, d, k, f, ps);
  }

  lemma MinimalBlock(k: Kind, f: F.Aggregate, ps: set<string>)
    requires k == Minimal
    ensures LayoutSuggestions(k, f, ps) == Filter(MinimalRules, k, f, ps)
  {
    FilterThree(ModalDialog, Accordion, SmoothScroll, k, f, ps);
    Regroup3(Keep(ModalDialog, k, f, ps), Keep(Accordion, k, f, ps), Keep(SmoothScroll, k, f, ps));
  }

  lemma DenseBlock(k: Kind, f: F.Aggregate, ps: set<string>)
    requires k == Dense
    ensures LayoutSuggestions(k, f, ps) == Filter(DenseRules, k, f, ps)
  {
    FilterThree(TabbedInterface, InteractiveChart, AdvancedSearch, k, f, ps);
    Regroup3(Keep(TabbedInterface, k, f, ps), Keep(InteractiveChart, k, f, ps), Keep(AdvancedSearch, k, f, ps));
  }

  lemma CreativeBlock(k: Kind, f: F.Aggregate, ps: set<string>)
    requires k == Creative
    ensures LayoutSuggestions(k, f, ps) == Filter(CreativeRules, k, f, ps)
  {
    FilterFour(ImageCarousel, CanvasAnimation, LottieAnimation, InteractiveGrid, k, f, ps);
    Regroup4(Keep(ImageCarousel, k, f, ps), Keep(CanvasAnimation, k, f, ps),
             Keep(LottieAnimation, k, f, ps), Keep(InteractiveGrid, k, f, ps));
  }

  /** The last four cross-cutting rules, one filter step at a time. */
  lemma CrossTail(k: Kind, f: F.Aggregate, ps: set<string>)
    ensures Filter([StickyNavigation, AnimatedCta, ImageLightbox, InfiniteScroll], k, f, ps)
         == (if f.balance >= 0.9 && "structured" in ps then [StickyNavigation] else [])
            + ((if "vibrant" in f.moods || "energetic" in f.moods || "bold" in ps then [AnimatedCta] else [])
            + ((if f.fractal < 1.3 && "clean" in ps then [ImageLightbox] else [])
            + (if f.entropy > 7.0 && "complex" in ps then [InfiniteScroll] else [])))
  {
    FilterFour(StickyNavigation, AnimatedCta, ImageLightbox, InfiniteScroll, k, f, ps);
  }

  lemma Regroup3(h: seq<Component>, a: seq<Component>, b: seq<Component>)
    ensures h + (a + b) == h + a + b
  {
  }

  lemma Regroup4(h: seq<Component>, a: seq<Component>, b: seq<Component>, c: seq<Component>)
    ensures h + (a + (b + c)) == h + a + b + c
  {
  }

  lemma Regroup(t: seq<Component>, n: seq<Component>, a: seq<Component>, l: seq<Component>, i: seq<Component>)
    ensures t + (n + (a + (l + i))) == t + n + a + l + i
  {
  }

  lemma CrossHead(k: Kind, f: F.Aggregate, ps: set<string>)
    ensures Filter(CrossRules, k, f, ps)
         == (if f.aesthetic >= 8.0 && "professional" in f.moods then [TooltipSystem] else [])
            + Filter([StickyNavigation, AnimatedCta, ImageLightbox, InfiniteScroll], k, f, ps)
  {
    assert CrossRules[0] == TooltipSystem;
    assert CrossRules[1..] == [StickyNavigation, AnimatedCta, ImageLightbox, InfiniteScroll];
  }

  lemma CrossBlock(k: Kind, f: F.Aggregate, ps: set<string>)
    ensures CrossSuggestions(f, ps) == Filter(CrossRules, k, f, ps)
  {
    var t := if f.aesthetic >= 8.0 && "professional" in f.moods then [TooltipSystem] else [];
    var n := if f.balance >= 0.9 && "structured" in ps then [StickyNavigation] else [];
    var a := if "vibrant" in f.moods || "energetic" in f.moods || "bold" in ps then [AnimatedCta] else [];
    var l := if f.fractal < 1.3 && "clean" in ps then [ImageLightbox] else [];
    var i := if f.entropy > 7.0 && "complex" in ps then [InfiniteScroll] else [];
    CrossHead(k, f, ps);
    CrossTail(k, f, ps);
    Regroup(t, n, a, l, i);
  }

  /** A block of another style contributes nothing. */
  lemma {:induction false} SilentBlock(cs: seq<Component>, k: Kind, f: F.Aggregate, ps: set<string>)
    requires forall i :: 0 <= i < |cs| ==> !Fires(cs[i], k, f, ps)
    ensures Filter(cs, k, f, ps) == []
  {
    if |cs| > 0 {
      SilentBlock(cs[1..], k, f, ps);
    }
  }

  lemma MinimalSilent(k: Kind, f: F.Aggregate, ps: set<string>)
    requires k != Minimal
    ensures Filter(MinimalRules, k, f, ps) == []
  {
    SilentBlock(MinimalRules, k, f, ps);
  }

  lemma DenseSilent(k: Kind, f: F.Aggregate, ps: set<string>)
    requires k != Dense
    ensures Filter(DenseRules, k, f, ps) == []
  {
    SilentBlock(DenseRules, k, f, ps);
  }

  lemma CreativeSilent(k: Kind, f: F.Aggregate, ps: set<string>)
    requires k != Creative
    ensures Filter(CreativeRules, k, f, ps) == []
  {
    SilentBlock(CreativeRules, k, f, ps);
  }

  /** The rule order split into its four blocks. */
  lemma FilterBlocks(k: Kind, f: F.Aggregate, ps: set<string>)
    ensures Filter(RuleOrder, k, f, ps)
         == Filter(MinimalRules, k, f, ps) + Filter(DenseRules, k, f, ps)
            + Filter(CreativeRules, k, f, ps) + Filter(CrossRules, k, f, ps)
  {
    FilterAppend(MinimalRules, DenseRules, k, f, ps);
    FilterAppend(MinimalRules + DenseRules, CreativeRules, k, f, ps);
    FilterAppend(MinimalRules + DenseRules + CreativeRules, CrossRules, k, f, ps);
  }

  /**
   * The suggester's appends produce exactly the components whose rule fires,
   * in rule order.
   */
  lemma SuggestMatchesRules(k: Kind, f: F.Aggregate, ps: set<string>)
    ensures Suggest(k, f, ps) == Filter(RuleOrder, k, f, ps)
  {
    FilterBlocks(k, f, ps);
    CrossBlock(k, f, ps);
    var m, d, c := Filter(MinimalRules, k, f, ps), Filter(DenseRules, k, f, ps), Filter(CreativeRules, k, f, ps);
    match k
    case Minimal =>
      MinimalBlock(k, f, ps);
      DenseSilent(k, f, ps);
      CreativeSilent(k, f, ps);
      assert m + d + c == m;
    case Dense =>
      MinimalSilent(k, f, ps);
      DenseBlock(k, f, ps);
      CreativeSilent(k, f, ps);
      assert m + d + c == d;
    case Creative =>
      MinimalSilent(k, f, ps);
      DenseSilent(k, f, ps);
      CreativeBlock(k, f, ps);
      assert m + d + c == c;
    case OtherStyle =>
      MinimalSilent(k, f, ps);
      DenseSilent(k, f, ps);
      CreativeSilent(k, f, ps);
      assert m + d + c == [];
  }

  /**
   * A component is proposed exactly when its rule fires, and no component is
   * proposed twice.
   */
  lemma SuggestMembership(k: Kind, f: F.Aggregate, ps: set<string>)
    ensures forall c :: c in Suggest(k, f, ps) <==> Fires(c, k, f, ps)
    ensures Distinct(Suggest(k, f, ps))
  {
    SuggestMatchesRules(k, f, ps);
    forall c ensures c in Suggest(k, f, ps) <==> Fires(c, k, f, ps) {
      RuleOrderComplete(c);
      FilterMembers(RuleOrder, k, f, ps, c);
    }
    RuleOrderDistinct();
    FilterDistinct(RuleOrder, k, f, ps);
  }

  // ---------------------------------------------------------------------------
  // suggest_js_components
  // ---------------------------------------------------------------------------

  /**
   * `suggest_js_components`: aggregate, fill in guidelines when none are
   * given (`None` counts as empty), extract principles, apply the rules
   * for the caller's style. The style is taken as given; this suggester
   * does not consult layoutPreference. A designPrinciples entry that is
   * not a string raises.
   */
  function SuggestComponents(rs: seq<IA.Analysis>, style: string, arg: Option<Dict>): (r: Result<seq<Component>, string>)
    ensures r.Failure? <==> F.DesignPrinciples(F.ActiveFromArgument(arg, F.Aggregated(rs))).None?
    ensures r.Success? ==>
      r.value == Filter(RuleOrder, KindOf(style), F.Aggregated(rs),
                        F.DesignPrinciples(F.ActiveFromArgument(arg, F.Aggregated(rs))).value)
  {
    var f := F.Aggregated(rs);
    match F.DesignPrinciples(F.ActiveFromArgument(arg, f))
    case None => Failure("a designPrinciples entry is not a string")
    case Some(ps) =>
      SuggestMatchesRules(KindOf(style), f, ps);
      Success(Suggest(KindOf(style), f, ps))
  }

  /** The principles the component rules see, once extraction has succeeded. */
  function Principles(rs: seq<IA.Analysis>, arg: Option<Dict>): set<string>
    requires F.DesignPrinciples(F.ActiveFromArgument(arg, F.Aggregated(rs))).Some?
  {
    F.DesignPrinciples(F.ActiveFromArgument(arg, F.Aggregated(rs))).value
  }

  /** The layout block comes first, then at most five cross-cutting components. */
  lemma SuggestShape(k: Kind, f: F.Aggregate, ps: set<string>)
    ensures var s := Suggest(k, f, ps);
      (k == Minimal ==> |s| >= 1 && s[0] == ModalDialog && |s| <= 8)
      && (k == Dense ==> |s| >= 1 && s[0] == TabbedInterface && |s| <= 8)
      && (k == Creative ==> |s| >= 1 && s[0] == ImageCarousel && |s| <= 9)
      && (k == OtherStyle ==> |s| <= 5 && forall i :: 0 <= i < |s| ==> s[i] in CrossRules)
  {
    var s := Suggest(k, f, ps);
    var x := CrossSuggestions(f, ps);
    if k == OtherStyle {
      assert s == x;
      CrossBlock(k, f, ps);
      forall i | 0 <= i < |s| ensures s[i] in CrossRules {
        FilterMembers(CrossRules, k, f, ps, s[i]);
      }
    }
  }

  /**
   * A component is proposed exactly when its rule fires, none is proposed
   * twice, and the first one is fixed by the style; any other style gets
   * only cross-cutting components. At most three (minimal, dense) or four
   * (creative) layout components precede at most five cross-cutting ones.
   */
  lemma SuggestionShape(rs: seq<IA.Analysis>, style: string, arg: Option<Dict>)
    requires SuggestComponents(rs, style, arg).Success?
    ensures var s := SuggestComponents(rs, style, arg).value;
      forall c :: c in s <==> Fires(c, KindOf(style), F.Aggregated(rs), Principles(rs, arg))
    ensures Distinct(SuggestComponents(rs, style, arg).value)
    ensures var s := SuggestComponents(rs, style, arg).value;
      (style == "minimal" ==> |s| >= 1 && s[0] == ModalDialog && |s| <= 8)
      && (style == "dense" ==> |s| >= 1 && s[0] == TabbedInterface && |s| <= 8)
      && (style == "creative" ==> |s| >= 1 && s[0] == ImageCarousel && |s| <= 9)
      && (style != "minimal" && style != "dense" && style != "creative" ==>
            |s| <= 5 && forall i :: 0 <= i < |s| ==> s[i] in CrossRules)
  {
    var f := F.Aggregated(rs);
    var ps := Principles(rs, arg);
    var k := KindOf(style);
    SuggestMatchesRules(k, f, ps);
    assert SuggestComponents(rs, style, arg).value == Suggest(k, f, ps);
    SuggestMembership(k, f, ps);
    SuggestShape(k, f, ps);
  }

  /** One component of the whole suggester: proposed exactly when its rule fires. */
  lemma SuggestedIff(rs: seq<IA.Analysis>, style: string, arg: Option<Dict>, c: Component)
    requires SuggestComponents(rs, style, arg).Success?
    ensures c in SuggestComponents(rs, style, arg).value <==>
      Fires(c, KindOf(style), F.Aggregated(rs), Principles(rs, arg))
  {
    RuleOrderComplete(c);
    FilterMembers(RuleOrder, KindOf(style), F.Aggregated(rs), Principles(rs, arg), c);
  }

  // Each rule read off for one component, kept apart so that the match in
  // `Fires` is unfolded without the whole suggester in view.

  lemma GridFires(k: Kind, f: F.Aggregate, ps: set<string>)
    ensures Fires(InteractiveGrid, k, f, ps) <==> k == Creative && f.aesthetic >= 8.0 && f.golden
  {
  }

  lemma StickyFires(k: Kind, f: F.Aggregate, ps: set<string>)
    ensures Fires(StickyNavigation, k, f, ps) <==> f.balance >= 0.9 && "structured" in ps
  {
  }

  lemma ScrollFires(k: Kind, f: F.Aggregate, ps: set<string>)
    ensures Fires(InfiniteScroll, k, f, ps) <==> f.entropy > 7.0 && "complex" in ps
  {
  }

  /**
   * The interactive grid is proposed exactly for a creative layout whose
   * mean aesthetic score is at least 8 and in which some image matched the
   * golden ratio.
   */
  lemma GridNeedsGoldenImage(rs: seq<IA.Analysis>, style: string, arg: Option<Dict>)
    requires SuggestComponents(rs, style, arg).Success?
    ensures InteractiveGrid in SuggestComponents(rs, style, arg).value <==>
      style == "creative" && F.Aggregated(rs).aesthetic >= 8.0
      && exists i :: 0 <= i < |rs| && rs[i].goldenMatch
  {
    SuggestedIff(rs, style, arg, InteractiveGrid);
    GridFires(KindOf(style), F.Aggregated(rs), Principles(rs, arg));
    assert F.Aggregated(rs).golden == F.AnyGolden(rs);
  }

  /**
   * Sticky navigation exactly when the balance is at least 0.9 and
   * "structured" is a principle, whatever the style.
   */
  lemma StickyNavigationRule(rs: seq<IA.Analysis>, style: string, arg: Option<Dict>)
    requires SuggestComponents(rs, style, arg).Success?
    ensures StickyNavigation in SuggestComponents(rs, style, arg).value <==>
      F.Aggregated(rs).balance >= 0.9 && "structured" in Principles(rs, arg)
  {
    SuggestedIff(rs, style, arg, StickyNavigation);
    StickyFires(KindOf(style), F.Aggregated(rs), Principles(rs, arg));
  }

  /**
   * Infinite scroll exactly when the entropy exceeds 7 and "complex" is a
   * principle, whatever the style.
   */
  lemma InfiniteScrollRule(rs: seq<IA.Analysis>, style: string, arg: Option<Dict>)
    requires SuggestComponents(rs, style, arg).Success?
    ensures InfiniteScroll in SuggestComponents(rs, style, arg).value <==>
      F.Aggregated(rs).entropy > 7.0 && "complex" in Principles(rs, arg)
  {
    SuggestedIff(rs, style, arg, InfiniteScroll);
    ScrollFires(KindOf(style), F.Aggregated(rs), Principles(rs, arg));
  }

  /** With no analyses and no guidelines nothing is inferred as a principle. */
  lemma NoPrinciplesByDefault(arg: Option<Dict>)
    requires arg == None || arg == Some(map[])
    ensures F.DesignPrinciples(F.ActiveFromArgument(arg, F.Aggregated([]))) == Some({})
  {
    var f := F.Aggregated([]);
    assert f == F.DefaultAggregate;
    assert F.ActiveFromArgument(arg, f) == F.ActiveGuidelines(map[], f);
    F.InferredPrinciplesRecovered(f);
    var none: seq<string> := [];
    assert F.InferPrinciples(f) == none;
    assert (set p | p in none) == {};
  }

  /** The default features fire only the fixed first rule of the minimal block. */
  lemma DefaultsMinimal()
    ensures Suggest(Minimal, F.DefaultAggregate, {}) == [ModalDialog]
  {
    var f := F.DefaultAggregate;
    assert LayoutSuggestions(Minimal, f, {}) == [ModalDialog];
    assert CrossSuggestions(f, {}) == [];
  }

  /**
   * No analyses, the minimal style and an empty guideline dictionary (or
   * none): the defaults fire no rule beyond the fixed first one.
   */
  lemma EmptyMinimal()
    ensures SuggestComponents([], "minimal", Some(map[])) == Success([ModalDialog])
    ensures SuggestComponents([], "minimal", None) == Success([ModalDialog])
  {
    var f := F.Aggregated([]);
    assert f == F.DefaultAggregate;
    assert KindOf("minimal") == Minimal;
    NoPrinciplesByDefault(Some(map[]));
    NoPrinciplesByDefault(None);
    SuggestMatchesRules(Minimal, f, {});
    DefaultsMinimal();
  }
}
