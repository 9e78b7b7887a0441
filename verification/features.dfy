/**
 * The batch-level features shared by the layout generator, the font
 * suggester and the component suggester: per-field means over the
 * analyses that carry a value, the union of the comma-separated mood and
 * typography tags, and the brand guidelines inferred when none are given.
 *
 * The three generators each carry their own textual copy of this
 * aggregation and inference; the copies in core/layout_generator.py and
 * core/js_component_suggester.py read the same, and the one in
 * core/font_suggester.py differs only in how it copies the guideline
 * dictionary (`FontActiveGuidelines`).
 */
module Features {
  import opened Wrappers
  import opened Numeric
  import opened Text
  import opened Json
  import IA = ImageAnalyzer

  // ---------------------------------------------------------------------------
  // Means over present values
  // ---------------------------------------------------------------------------

  /** The numeric fields of an analysis that are averaged. */
  datatype Field = Whitespace | Horizontal | Vertical | Fractal | Entropy | Balance | Aesthetic

  function FieldOf(a: IA.Analysis, f: Field): Option<real>
  {
    match f
    case Whitespace => a.whitespace
    case Horizontal => a.horizontal
    case Vertical => a.vertical
    case Fractal => a.fractal
    case Entropy => a.entropy
    case Balance => a.balance
    case Aesthetic => a.aesthetic
  }

  function Column(rs: seq<IA.Analysis>, f: Field): (col: seq<Option<real>>)
    ensures |col| == |rs|
    ensures forall i :: 0 <= i < |rs| ==> col[i] == FieldOf(rs[i], f)
  {
    seq(|rs|, i requires 0 <= i < |rs| => FieldOf(rs[i], f))
  }

  /** How many entries are present. */
  function CountSome(xs: seq<Option<real>>): nat
  {
    if |xs| == 0 then 0 else CountSome(xs[1..]) + (if xs[0].Some? then 1 else 0)
  }

  /** The total of the present entries. */
  function SumSome(xs: seq<Option<real>>): real
  {
    if |xs| == 0 then 0.0 else (if xs[0].Some? then xs[0].value else 0.0) + SumSome(xs[1..])
  }

  /**
   * The values that are not `None`, in order: the list comprehension's
   * filter. It keeps every present value once per occurrence, so it has as
   * many values as there are present entries, with the same total.
   */
  function Present(xs: seq<Option<real>>): (p: seq<real>)
    ensures |p| <= |xs|
    ensures forall x :: x in p ==> Some(x) in xs
    ensures (forall i :: 0 <= i < |xs| ==> xs[i].None?) <==> |p| == 0
    ensures |p| == CountSome(xs) && Sum(p) == SumSome(xs)
  {
    if |xs| == 0 then []
    else
      var init := Present(xs[..|xs| - 1]);
      var last := xs[|xs| - 1];
      assert forall x :: Some(x) in xs[..|xs| - 1] ==> Some(x) in xs;
      FoldsSnoc(xs[..|xs| - 1], last);
      assert xs[..|xs| - 1] + [last] == xs;
      var p := init + (if last.Some? then [last.value] else []);
      if last.Some? then
        assert p[..|p| - 1] == init;
        assert Sum(p) == Sum(init) + last.value;
        p
      else
        assert p == init;
        p
  }

  /** The two folds run from the front; appending an entry adds it at the back. */
  lemma {:induction false} FoldsSnoc(xs: seq<Option<real>>, x: Option<real>)
    ensures CountSome(xs + [x]) == CountSome(xs) + (if x.Some? then 1 else 0)
    ensures SumSome(xs + [x]) == SumSome(xs) + (if x.Some? then x.value else 0.0)
  {
    if |xs| > 0 {
      assert (xs + [x])[1..] == xs[1..] + [x];
      FoldsSnoc(xs[1..], x);
    }
  }

  function Sum(xs: seq<real>): real
  {
    if |xs| == 0 then 0.0 else Sum(xs[..|xs| - 1]) + xs[|xs| - 1]
  }

  /**
   * `sum(p) / len(p)` over the present values, or the default when there
   * are none: the mean over exactly the entries that are not `None`.
   */
  function MeanOr(xs: seq<Option<real>>, default: real): (m: real)
    ensures (forall i :: 0 <= i < |xs| ==> xs[i].None?) ==> m == default
    ensures CountSome(xs) == 0 ==> m == default
    ensures CountSome(xs) > 0 ==> m == Average(SumSome(xs), CountSome(xs))
  {
    var p := Present(xs);
    if |p| == 0 then default else Average(Sum(p), |p|)
  }

  /** Two present values average to their midpoint, whatever the missing ones around them. */
  lemma MeanOfTwo()
    ensures MeanOr([Some(20.0), None, Some(80.0)], 0.5) == 50.0
  {
    var xs: seq<Option<real>> := [Some(20.0), None, Some(80.0)];
    assert xs[1..] == [None, Some(80.0)];
    assert xs[1..][1..] == [Some(80.0)];
    assert xs[1..][1..][1..] == [];
  }

  /** `total / count` for a positive count. */
  function Average(total: real, count: nat): real
    requires count > 0
  {
    total / count as real
  }

  lemma {:induction false} SumBounds(xs: seq<real>, lo: real, hi: real)
    requires forall i :: 0 <= i < |xs| ==> lo <= xs[i] <= hi
    ensures lo * |xs| as real <= Sum(xs) <= hi * |xs| as real
  {
    if |xs| > 0 {
      SumBounds(xs[..|xs| - 1], lo, hi);
      assert lo * |xs| as real == lo * (|xs| - 1) as real + lo;
      assert hi * |xs| as real == hi * (|xs| - 1) as real + hi;
    }
  }

  /** A mean of values in [lo, hi], with a default in [lo, hi], stays in [lo, hi]. */
  lemma MeanWithin(xs: seq<Option<real>>, default: real, lo: real, hi: real)
    requires lo <= default <= hi
    requires forall i :: 0 <= i < |xs| && xs[i].Some? ==> lo <= xs[i].value <= hi
    ensures lo <= MeanOr(xs, default) <= hi
  {
    var p := Present(xs);
    if |p| > 0 {
      PresentWithin(xs, lo, hi);
      AverageWithin(p, lo, hi);
    }
  }

  /** The average of a non-empty list of values in [lo, hi] is in [lo, hi]. */
  lemma AverageWithin(p: seq<real>, lo: real, hi: real)
    requires |p| > 0
    requires forall i :: 0 <= i < |p| ==> lo <= p[i] <= hi
    ensures lo <= Sum(p) / |p| as real <= hi
  {
    SumBounds(p, lo, hi);
    DivBounds(Sum(p), |p| as real, lo, hi);
  }

  /** The present values keep the bounds every value of the column has. */
  lemma PresentWithin(xs: seq<Option<real>>, lo: real, hi: real)
    requires forall i :: 0 <= i < |xs| && xs[i].Some? ==> lo <= xs[i].value <= hi
    ensures forall i :: 0 <= i < |Present(xs)| ==> lo <= Present(xs)[i] <= hi
  {
    var p := Present(xs);
    forall i | 0 <= i < |p|
      ensures lo <= p[i] <= hi
    {
      assert p[i] in p;
      var j :| 0 <= j < |xs| && xs[j] == Some(p[i]);
    }
  }

  lemma MeanOfOne(x: Option<real>, default: real)
    ensures MeanOr([x], default) == x.GetOr(default)
  {
    assert [x][..0] == [];
    if x.Some? {
      assert Present([x]) == [x.value];
      assert [x.value][..0] == [];
      assert Sum([x.value]) == x.value;
    } else {
      assert Present([x]) == [];
    }
  }

  // ---------------------------------------------------------------------------
  // Tag sets
  // ---------------------------------------------------------------------------

  /** `{t.strip() for t in s.split(',')}`. */
  function Parts(s: string): set<string>
  {
    set t | t in StripAll(Split(s, ','))
  }

  /** What one analysis string adds: nothing when it is empty or the placeholder. */
  function Contribution(s: string, placeholder: string): set<string>
  {
    if |s| > 0 && s != placeholder then Parts(s) else {}
  }

  /** The union of a list of sets. */
  function UnionOf(ss: seq<set<string>>): set<string>
  {
    if |ss| == 0 then {} else UnionOf(ss[..|ss| - 1]) + ss[|ss| - 1]
  }

  /** A string is in the union exactly when it is in one of the sets. */
  lemma {:induction false} UnionMembers(ss: seq<set<string>>, t: string)
    ensures t in UnionOf(ss) <==> exists i :: 0 <= i < |ss| && t in ss[i]
  {
    if |ss| > 0 {
      var init := ss[..|ss| - 1];
      UnionMembers(init, t);
      if t in UnionOf(init) {
        var i :| 0 <= i < |init| && t in init[i];
        assert ss[i] == init[i];
      }
      if exists i :: 0 <= i < |ss| && t in ss[i] {
        var i :| 0 <= i < |ss| && t in ss[i];
        if i < |init| {
          assert init[i] == ss[i];
        }
      }
    }
  }

  /** The mood tags of a batch: every analysis's contribution, "neutral" ignored. */
  function MoodUnion(rs: seq<IA.Analysis>): set<string>
  {
    UnionOf(seq(|rs|, i requires 0 <= i < |rs| => Contribution(rs[i].mood, "neutral")))
  }

  /** The typography tags of a batch, "unknown" ignored. */
  function TypographyUnion(rs: seq<IA.Analysis>): set<string>
  {
    UnionOf(seq(|rs|, i requires 0 <= i < |rs| => Contribution(rs[i].typography, "unknown")))
  }

  lemma JoinLength(xs: seq<string>, sep: string)
    requires |xs| >= 1
    ensures |Join(xs, sep)| >= |xs[0]|
  {
  }

  /**
   * Splitting and stripping inverts the serialisation: the parts of a
   * serialised list of plain, non-empty tags are exactly its tags, unless
   * the whole string is the placeholder.
   */
  lemma ContributionOfSerialised(tags: seq<string>, fallback: string, placeholder: string)
    requires |tags| >= 1 && IA.PlainTags(tags)
    requires forall i :: 0 <= i < |tags| ==> |tags[i]| > 0
    requires IA.Serialise(tags, fallback) != placeholder
    ensures Contribution(IA.Serialise(tags, fallback), placeholder) == set t | t in tags
  {
    IA.SerialiseRoundTrip(tags, fallback);
    var d := Dedup(tags);
    assert d[0] in tags;
    JoinLength(d, ", ");
  }

  // ---------------------------------------------------------------------------
  // The aggregate
  // ---------------------------------------------------------------------------

  /** The averaged features of a batch of analyses; whitespace is a fraction. */
  datatype Aggregate = Aggregate(
    whitespace: real,
    horizontal: real,
    vertical: real,
    fractal: real,
    entropy: real,
    balance: real,
    aesthetic: real,
    golden: bool,
    moods: set<string>,
    typography: set<string>)

  /** The images are intricate: a high fractal dimension or a high entropy. */
  predicate Busy(f: Aggregate) {
    f.fractal > 1.7 || f.entropy > 6.5
  }

  /** The images are plain: a low fractal dimension or a low entropy. */
  predicate Simple(f: Aggregate) {
    f.fractal < 1.3 || f.entropy < 3.0
  }

  /** The values used when no analysis supplies a field. */
  const DefaultAggregate: Aggregate := Aggregate(0.5, 0.5, 0.5, 1.5, 4.0, 0.5, 5.0, false, {}, {})

  /** `any(a.get("golden_ratio_aspect_match", False) ...)`. */
  predicate AnyGolden(rs: seq<IA.Analysis>) {
    exists i :: 0 <= i < |rs| && rs[i].goldenMatch
  }

  function Aggregated(rs: seq<IA.Analysis>): (f: Aggregate)
    ensures |rs| == 0 ==> f == DefaultAggregate
  {
    Aggregate(
      MeanOr(Column(rs, Whitespace), 50.0) / 100.0,
      MeanOr(Column(rs, Horizontal), 0.5),
      MeanOr(Column(rs, Vertical), 0.5),
      MeanOr(Column(rs, Fractal), 1.5),
      MeanOr(Column(rs, Entropy), 4.0),
      MeanOr(Column(rs, Balance), 0.5),
      MeanOr(Column(rs, Aesthetic), 5.0),
      AnyGolden(rs),
      MoodUnion(rs),
      TypographyUnion(rs))
  }

  /**
   * A batch of one reproduces that image's values, whitespace divided by
   * 100, each missing field falling back to its own default.
   */
  lemma OneImage(a: IA.Analysis)
    ensures Aggregated([a]).whitespace == a.whitespace.GetOr(50.0) / 100.0
    ensures Aggregated([a]).horizontal == a.horizontal.GetOr(0.5)
    ensures Aggregated([a]).vertical == a.vertical.GetOr(0.5)
    ensures Aggregated([a]).fractal == a.fractal.GetOr(1.5)
    ensures Aggregated([a]).entropy == a.entropy.GetOr(4.0)
    ensures Aggregated([a]).balance == a.balance.GetOr(0.5)
    ensures Aggregated([a]).aesthetic == a.aesthetic.GetOr(5.0)
    ensures Aggregated([a]).golden == a.goldenMatch
  {
    OneImageWhitespace(a);
    OneImageHorizontal(a);
    OneImageVertical(a);
    OneImageFractal(a);
    OneImageEntropy(a);
    OneImageBalance(a);
    OneImageAesthetic(a);
    OneImageGolden(a);
  }

  // The fields of OneImage one at a time, so that each proof stays small.

  lemma OneColumn(a: IA.Analysis, f: Field, default: real)
    ensures MeanOr(Column([a], f), default) == FieldOf(a, f).GetOr(default)
  {
    assert Column([a], f) == [FieldOf(a, f)];
    MeanOfOne(FieldOf(a, f), default);
  }

  lemma OneImageGolden(a: IA.Analysis)
    ensures Aggregated([a]).golden == a.goldenMatch
  {
    assert [a][0] == a;
  }

  lemma OneImageWhitespace(a: IA.Analysis)
    ensures Aggregated([a]).whitespace == a.whitespace.GetOr(50.0) / 100.0
  {
    OneColumn(a, Whitespace, 50.0);
  }

  lemma OneImageHorizontal(a: IA.Analysis)
    ensures Aggregated([a]).horizontal == a.horizontal.GetOr(0.5)
  {
    OneColumn(a, Horizontal, 0.5);
  }

  lemma OneImageVertical(a: IA.Analysis)
    ensures Aggregated([a]).vertical == a.vertical.GetOr(0.5)
  {
    OneColumn(a, Vertical, 0.5);
  }

  lemma OneImageFractal(a: IA.Analysis)
    ensures Aggregated([a]).fractal == a.fractal.GetOr(1.5)
  {
    OneColumn(a, Fractal, 1.5);
  }

  lemma OneImageEntropy(a: IA.Analysis)
    ensures Aggregated([a]).entropy == a.entropy.GetOr(4.0)
  {
    OneColumn(a, Entropy, 4.0);
  }

  lemma OneImageBalance(a: IA.Analysis)
    ensures Aggregated([a]).balance == a.balance.GetOr(0.5)
  {
    OneColumn(a, Balance, 0.5);
  }

  lemma OneImageAesthetic(a: IA.Analysis)
    ensures Aggregated([a]).aesthetic == a.aesthetic.GetOr(5.0)
  {
    OneColumn(a, Aesthetic, 5.0);
  }

  /** A batch of one contributes exactly that image's tags. */
  lemma OneImageTags(a: IA.Analysis)
    ensures Aggregated([a]).moods == Contribution(a.mood, "neutral")
    ensures Aggregated([a]).typography == Contribution(a.typography, "unknown")
  {
    var ms := seq(1, i requires 0 <= i < 1 => Contribution([a][i].mood, "neutral"));
    var ts := seq(1, i requires 0 <= i < 1 => Contribution([a][i].typography, "unknown"));
    assert ms[..0] == [] && ts[..0] == [];
    assert UnionOf(ms) == ms[0];
    assert UnionOf(ts) == ts[0];
  }

  /** Analyses with percentages and scores in range give fractions in range. */
  lemma AggregateBounds(rs: seq<IA.Analysis>)
    requires forall i :: 0 <= i < |rs| && rs[i].whitespace.Some? ==> 0.0 <= rs[i].whitespace.value <= 100.0
    requires forall i :: 0 <= i < |rs| && rs[i].horizontal.Some? ==> 0.0 <= rs[i].horizontal.value <= 1.0
    requires forall i :: 0 <= i < |rs| && rs[i].vertical.Some? ==> 0.0 <= rs[i].vertical.value <= 1.0
    ensures 0.0 <= Aggregated(rs).whitespace <= 1.0
    ensures 0.0 <= Aggregated(rs).horizontal <= 1.0
    ensures 0.0 <= Aggregated(rs).vertical <= 1.0
  {
    MeanWithin(Column(rs, Whitespace), 50.0, 0.0, 100.0);
    MeanWithin(Column(rs, Horizontal), 0.5, 0.0, 1.0);
    MeanWithin(Column(rs, Vertical), 0.5, 0.0, 1.0);
  }

  // ---------------------------------------------------------------------------
  // Tags of an analysed picture
  // ---------------------------------------------------------------------------

  lemma MoodNameIsNeutral(m: IA.Mood)
    ensures IA.MoodName(m) == "neutral" <==> m == IA.Neutral
    ensures |IA.MoodName(m)| > 0
  {
  }

  lemma StyleNameFacts(s: IA.Style)
    ensures |IA.StyleName(s)| > 0
  {
  }

  /** Serialising one tag gives the tag itself. */
  lemma SerialiseSingle(tags: seq<string>, word: string, fallback: string)
    requires |tags| >= 1 && forall i :: 0 <= i < |tags| ==> tags[i] == word
    ensures IA.Serialise(tags, fallback) == word
  {
    DedupConstant(tags, word);
  }

  predicate AllNeutral(tags: seq<IA.Mood>) {
    forall i :: 0 <= i < |tags| ==> tags[i] == IA.Neutral
  }

  /** A serialised list of nothing but "neutral" adds no mood. */
  lemma NeutralAddsNothing(tags: seq<IA.Mood>)
    requires |tags| >= 1 && AllNeutral(tags)
    ensures Contribution(IA.Serialise(IA.MoodNames(tags), "neutral"), "neutral") == {}
  {
    SerialiseSingle(IA.MoodNames(tags), "neutral", "neutral");
  }

  /** A serialised list with any other mood adds exactly the mood names. */
  lemma OtherMoodsAdded(tags: seq<IA.Mood>, k: nat)
    requires k < |tags| && tags[k] != IA.Neutral
    ensures Contribution(IA.Serialise(IA.MoodNames(tags), "neutral"), "neutral")
            == set t | t in IA.MoodNames(tags)
  {
    var names := IA.MoodNames(tags);
    IA.MoodNamesPlain(tags);
    forall i | 0 <= i < |names|
      ensures |names[i]| > 0
    {
      MoodNameIsNeutral(tags[i]);
    }
    MoodNameIsNeutral(tags[k]);
    IA.SerialisedIsNot(names, "neutral", "neutral", k);
    ContributionOfSerialised(names, "neutral", "neutral");
  }

  /**
   * The moods a serialised list of mood tags adds to the union are their
   * names, except that a list of nothing but "neutral" adds none.
   */
  lemma MoodsOfTags(tags: seq<IA.Mood>)
    requires |tags| >= 1
    ensures Contribution(IA.Serialise(IA.MoodNames(tags), "neutral"), "neutral")
            == if AllNeutral(tags) then {} else set t | t in IA.MoodNames(tags)
  {
    if AllNeutral(tags) {
      NeutralAddsNothing(tags);
    } else {
      var k :| 0 <= k < |tags| && tags[k] != IA.Neutral;
      OtherMoodsAdded(tags, k);
    }
  }

  /**
   * The moods an analysed picture adds to the union are the names of its
   * mood tags, except that a picture whose only mood is "neutral" adds none.
   */
  lemma MoodsOfAnalysis(mr: real, mg: real, mb: real, sat: real, ws: real, avgSym: real)
    ensures var tags := IA.MoodTags(mr, mg, mb, sat, ws, avgSym);
      Contribution(IA.MoodEmotion(mr, mg, mb, sat, ws, avgSym), "neutral")
      == if AllNeutral(tags) then {} else set t | t in IA.MoodNames(tags)
  {
    MoodsOfTags(IA.MoodTags(mr, mg, mb, sat, ws, avgSym));
  }

  /**
   * The typography tags a serialised style list adds are the style names,
   * or "sans-serif" when the list is empty.
   */
  lemma StylesOfTags(styles: seq<IA.Style>)
    ensures Contribution(IA.Serialise(IA.StyleNames(styles), "sans-serif"), "unknown")
            == if |styles| == 0 then {"sans-serif"} else set t | t in IA.StyleNames(styles)
  {
    if |styles| == 0 {
      assert IA.StyleNames(styles) == [];
      FallbackTag();
    } else {
      NamedStyleTags(styles);
    }
  }

  /** The placeholder "sans-serif" stands for itself. */
  lemma FallbackTag()
    ensures Contribution(IA.Serialise([], "sans-serif"), "unknown") == {"sans-serif"}
  {
    var w := "sans-serif";
    assert IA.Serialise([], w) == w;
    assert w != "unknown" by {
      assert w[0] != "unknown"[0];
    }
    IA.PlaceholdersPlain();
    WordIsOnePart(w);
  }

  /** A comma-free word without surrounding blanks is its own only part. */
  lemma WordIsOnePart(w: string)
    requires HasNo(w, ',') && IsStripped(w)
    ensures Parts(w) == {w}
  {
    SplitWhole(w, ',');
    StripOne(w);
  }

  lemma StripOne(w: string)
    requires IsStripped(w)
    ensures StripAll([w]) == [w]
  {
    StripStripped(w);
    assert StripAll([w])[0] == w;
  }

  lemma NamedStyleTags(styles: seq<IA.Style>)
    requires |styles| > 0
    ensures Contribution(IA.Serialise(IA.StyleNames(styles), "sans-serif"), "unknown")
            == set t | t in IA.StyleNames(styles)
  {
    var names := IA.StyleNames(styles);
    IA.StyleNamesPlain(styles);
    forall i | 0 <= i < |names|
      ensures |names[i]| > 0
    {
      StyleNameFacts(styles[i]);
    }
    IA.SerialisedIsNot(names, "sans-serif", "unknown", 0);
    ContributionOfSerialised(names, "sans-serif", "unknown");
  }

  /**
   * The typography tags an analysed picture adds are the names of its
   * styles, or "sans-serif" when no style rule fired.
   */
  lemma StylesOfAnalysis(ws: real, hsym: real, vsym: real, sat: real)
    ensures var styles := IA.TypographyStyles(ws, hsym, vsym, sat);
      Contribution(IA.TypographyInference(ws, hsym, vsym, sat), "unknown")
      == if |styles| == 0 then {"sans-serif"} else set t | t in IA.StyleNames(styles)
  {
    StylesOfTags(IA.TypographyStyles(ws, hsym, vsym, sat));
  }

  // ---------------------------------------------------------------------------
  // Brand-guideline inference
  // ---------------------------------------------------------------------------

  const LayoutPreferences: set<string> := {"minimalist", "bold", "classic", "modern"}

  /** The inferred layoutPreference, by priority minimalist > bold > modern > classic. */
  function InferPreference(f: Aggregate): (p: string)
    ensures p in LayoutPreferences
    ensures p == "minimalist" <==> "minimalist" in f.moods || f.whitespace > 0.75
    ensures p == "bold" <==> !("minimalist" in f.moods || f.whitespace > 0.75)
                             && ("dense" in f.moods || f.whitespace < 0.25)
    ensures p == "modern" <==> !("minimalist" in f.moods || f.whitespace > 0.75)
                               && !("dense" in f.moods || f.whitespace < 0.25)
                               && ("creative" in f.moods || "dynamic" in f.moods || f.entropy > 6.5)
  {
    if "minimalist" in f.moods || f.whitespace > 0.75 then "minimalist"
    else if "dense" in f.moods || f.whitespace < 0.25 then "bold"
    else if "creative" in f.moods || "dynamic" in f.moods || f.entropy > 6.5 then "modern"
    else "classic"
  }

  const PrincipleNames: set<string> := {"structured", "organic", "bold", "subtle", "clean", "complex"}

  predicate Structured(f: Aggregate) {
    f.horizontal > 0.85 && f.vertical > 0.85 && f.balance > 0.9
  }

  predicate Organic(f: Aggregate) {
    "creative" in f.moods || "dynamic" in f.moods || f.entropy > 6.0
  }

  predicate BoldPrinciple(f: Aggregate) {
    "bold" in f.typography || f.whitespace < 0.3
  }

  predicate Subtle(f: Aggregate) {
    "light" in f.typography || f.whitespace > 0.7
  }

  predicate Clean(f: Aggregate) {
    f.aesthetic >= 8.0 && f.fractal < 1.3
  }

  predicate Complex(f: Aggregate) {
    f.fractal > 1.7 || f.entropy > 7.0
  }

  /** A principle name when its condition holds, nothing otherwise. */
  function Flag(holds: bool, name: string): seq<string> {
    if holds then [name] else []
  }

  /**
   * The inferred designPrinciples, listed in rule order: a string is among
   * them exactly when it is one of the six names and that name's condition
   * holds.
   */
  function InferPrinciples(f: Aggregate): (ps: seq<string>)
    ensures forall p :: p in ps <==>
      (p == "structured" && Structured(f)) || (p == "organic" && Organic(f))
      || (p == "bold" && BoldPrinciple(f)) || (p == "subtle" && Subtle(f))
      || (p == "clean" && Clean(f)) || (p == "complex" && Complex(f))
  {
    Flag(Structured(f), "structured") + Flag(Organic(f), "organic")
    + Flag(BoldPrinciple(f), "bold") + Flag(Subtle(f), "subtle")
    + Flag(Clean(f), "clean") + Flag(Complex(f), "complex")
  }

  /** Each principle is inferred exactly under its own rule, and nothing else is. */
  lemma PrincipleRules(f: Aggregate)
    ensures forall p :: p in InferPrinciples(f) ==> p in PrincipleNames
    ensures "structured" in InferPrinciples(f) <==> Structured(f)
    ensures "organic" in InferPrinciples(f) <==> Organic(f)
    ensures "bold" in InferPrinciples(f) <==> BoldPrinciple(f)
    ensures "subtle" in InferPrinciples(f) <==> Subtle(f)
    ensures "clean" in InferPrinciples(f) <==> Clean(f)
    ensures "complex" in InferPrinciples(f) <==> Complex(f)
  {
    NamesDiffer();
  }

  /** The six principle names are pairwise different. */
  lemma NamesDiffer()
    ensures |"structured"| == 10 && |"organic"| == 7 && |"bold"| == 4
    ensures |"subtle"| == 6 && |"clean"| == 5 && |"complex"| == 7
    ensures "organic"[0] != "complex"[0]
  {
  }

  function Strs(xs: seq<string>): (vs: seq<Value>)
    ensures |vs| == |xs|
    ensures forall i :: 0 <= i < |xs| ==> vs[i] == Str(xs[i])
  {
    seq(|xs|, i requires 0 <= i < |xs| => Str(xs[i]))
  }

  /**
   * The guidelines in force: the given dictionary when it is non-empty,
   * unchanged and with nothing filled in; otherwise exactly the two
   * inferred keys.
   */
  function ActiveGuidelines(g: Dict, f: Aggregate): (a: Dict)
    ensures |g| > 0 ==> a == g
    ensures |g| == 0 ==> a.Keys == {"layoutPreference", "designPrinciples"}
    ensures |g| == 0 ==> a["layoutPreference"] == Str(InferPreference(f))
  {
    if |g| > 0 then g
    else map["layoutPreference" := Str(InferPreference(f)),
             "designPrinciples" := Array(Strs(InferPrinciples(f)))]
  }

  /**
   * `brand_guidelines.copy() if brand_guidelines else {}` followed by the
   * inference, as core/layout_generator.py and core/js_component_suggester.py
   * write it: a missing dictionary (`None`) counts as an empty one.
   */
  function ActiveFromArgument(arg: Option<Dict>, f: Aggregate): Dict
  {
    ActiveGuidelines(if arg.None? then map[] else arg.value, f)
  }

  /**
   * The copy in core/font_suggester.py calls `brand_guidelines.copy()`
   * unconditionally, which fails on `None`.
   */
  function FontActiveGuidelines(arg: Option<Dict>, f: Aggregate): (r: Option<Dict>)
    ensures arg.None? <==> r.None?
  {
    if arg.None? then None else Some(ActiveGuidelines(arg.value, f))
  }

  /** The three copies agree on every dictionary; only `None` tells them apart. */
  lemma CopiesAgree(arg: Option<Dict>, f: Aggregate)
    ensures arg.Some? ==> FontActiveGuidelines(arg, f) == Some(ActiveFromArgument(arg, f))
    ensures arg.None? ==> ActiveFromArgument(arg, f) == ActiveFromArgument(Some(map[]), f)
  {
  }

  /** Python's `str.lower()` for `str.strip()`-ed text: the principle as it is matched. */
  function Normalise(s: string): string
  {
    Lower(Strip(s))
  }

  predicate AllStrings(vs: seq<Value>) {
    forall i :: 0 <= i < |vs| ==> vs[i].Str?
  }

  /**
   * `{p.strip().lower() for p in designPrinciples}` when the key holds a
   * list, the empty set otherwise. A list holding a non-string makes
   * `.strip()` raise, modelled as `None`.
   */
  function DesignPrinciples(a: Dict): (r: Option<set<string>>)
    ensures ("designPrinciples" !in a || !a["designPrinciples"].Array?) ==> r == Some({})
    ensures r.None? <==> "designPrinciples" in a && a["designPrinciples"].Array?
                         && !AllStrings(a["designPrinciples"].items)
  {
    if "designPrinciples" in a && a["designPrinciples"].Array? then
      var items := a["designPrinciples"].items;
      if AllStrings(items) then Some(set i | 0 <= i < |items| :: Normalise(items[i].s))
      else None
    else Some({})
  }

  /** Text that `strip().lower()` leaves unchanged. */
  predicate IsNormal(s: string) {
    IsStripped(s) && forall i :: 0 <= i < |s| ==> !('A' <= s[i] <= 'Z')
  }

  lemma NormalFixed(s: string)
    requires IsNormal(s)
    ensures Normalise(s) == s
  {
    StripStripped(s);
    LowerOfLower(s);
  }

  lemma PrincipleNamesNormal()
    ensures forall p :: p in PrincipleNames ==> IsNormal(p)
  {
    assert IsNormal("structured");
    assert IsNormal("organic");
    assert IsNormal("bold");
    assert IsNormal("subtle");
    assert IsNormal("clean");
    assert IsNormal("complex");
  }

  /** Extracting a list of normal strings gives the set of those strings. */
  lemma ExtractNormal(a: Dict, ps: seq<string>)
    requires "designPrinciples" in a && a["designPrinciples"] == Array(Strs(ps))
    requires forall i :: 0 <= i < |ps| ==> IsNormal(ps[i])
    ensures DesignPrinciples(a) == Some(set p | p in ps)
  {
    var items := Strs(ps);
    assert AllStrings(items);
    forall i | 0 <= i < |items|
      ensures Normalise(items[i].s) == ps[i]
    {
      NormalFixed(ps[i]);
    }
    var got := set i | 0 <= i < |items| :: Normalise(items[i].s);
    forall p | p in ps
      ensures p in got
    {
      var i :| 0 <= i < |ps| && ps[i] == p;
      assert Normalise(items[i].s) == p;
    }
    assert got == set p | p in ps;
  }

  /**
   * Inference followed by extraction gives back exactly the inferred
   * principles.
   */
  lemma InferredPrinciplesRecovered(f: Aggregate)
    ensures DesignPrinciples(ActiveGuidelines(map[], f)) == Some(set p | p in InferPrinciples(f))
  {
    var ps := InferPrinciples(f);
    PrincipleNamesNormal();
    PrincipleRules(f);
    assert forall i :: 0 <= i < |ps| ==> ps[i] in PrincipleNames;
    ExtractNormal(ActiveGuidelines(map[], f), ps);
  }
}
