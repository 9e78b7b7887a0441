/**
 * `calculate_color_harmony_score` of core/palette_extractor.py: hues in
 * degrees, sorted, scored by the monochromatic, analogous, complementary
 * and triadic rules, clamped to [0, 10] and rounded to two places.
 */
module Harmony {
  import opened Numeric
  import opened Color

  // ------------------------------------------------------------------ sorting

  predicate Sorted(s: seq<real>) {
    forall i, j :: 0 <= i < j < |s| ==> s[i] <= s[j]
  }

  /** Put `x` in its place in an ascending sequence. */
  function Insert(x: real, s: seq<real>): (r: seq<real>)
    requires Sorted(s)
    ensures Sorted(r)
    ensures multiset(r) == multiset(s) + multiset{x}
    ensures |r| == |s| + 1
    ensures r[0] == x || (|s| > 0 && r[0] == s[0])
  {
    if |s| == 0 then [x]
    else if x <= s[0] then [x] + s
    else
      var t := Insert(x, s[1..]);
      assert s == [s[0]] + s[1..];
      assert s[0] <= t[0];
      [s[0]] + t
  }

  /** Python's `list.sort()` on floats: an ascending permutation. */
  function SortReals(s: seq<real>): (r: seq<real>)
    ensures Sorted(r)
    ensures multiset(r) == multiset(s)
    ensures |r| == |s|
  {
    if |s| == 0 then []
    else
      assert s == [s[0]] + s[1..];
      Insert(s[0], SortReals(s[1..]))
  }

  /** Two ascending sequences with the same elements are the same sequence. */
  lemma {:induction false} SortedUnique(a: seq<real>, b: seq<real>)
    requires Sorted(a) && Sorted(b)
    requires multiset(a) == multiset(b)
    ensures a == b
    decreases |a|
  {
    SameLength(a, b);
    if |a| > 0 {
      SameHead(a, b);
      SameTail(a, b);
      SortedUnique(a[1..], b[1..]);
      assert a == [a[0]] + a[1..];
      assert b == [b[0]] + b[1..];
    }
  }

  lemma SameLength<T>(a: seq<T>, b: seq<T>)
    requires multiset(a) == multiset(b)
    ensures |a| == |b|
  {
    assert |a| == |multiset(a)|;
    assert |b| == |multiset(b)|;
  }

  /** Equal ascending sequences start alike: each head is the least element of both. */
  lemma SameHead(a: seq<real>, b: seq<real>)
    requires Sorted(a) && Sorted(b)
    requires multiset(a) == multiset(b) && |a| > 0 && |b| > 0
    ensures a[0] == b[0]
  {
    assert a[0] in multiset(b);
    assert b[0] in multiset(a);
    HeadIsLeast(a, b[0]);
    HeadIsLeast(b, a[0]);
  }

  lemma SameTail(a: seq<real>, b: seq<real>)
    requires Sorted(a) && Sorted(b)
    requires multiset(a) == multiset(b) && |a| > 0 && |b| > 0 && a[0] == b[0]
    ensures Sorted(a[1..]) && Sorted(b[1..])
    ensures multiset(a[1..]) == multiset(b[1..])
  {
    MultisetTail(a);
    MultisetTail(b);
    SortedTail(a);
    SortedTail(b);
  }

  lemma MultisetTail<T>(a: seq<T>)
    requires |a| > 0
    ensures multiset(a[1..]) == multiset(a) - multiset{a[0]}
  {
    assert a == [a[0]] + a[1..];
  }

  lemma HeadIsLeast(a: seq<real>, x: real)
    requires Sorted(a) && x in multiset(a)
    ensures a[0] <= x
  {
    var i :| 0 <= i < |a| && a[i] == x;
  }

  lemma SortedTail(a: seq<real>)
    requires Sorted(a) && |a| > 0
    ensures Sorted(a[1..])
  {
  }

  // --------------------------------------------------------------- hue angles

  /** The hue of a colour in degrees, `rgb_to_hls(...)[0] * 360`. */
  function HueDegrees(c: Rgb): (d: real)
    requires Valid(c)
    ensures 0.0 <= d < 360.0
  {
    RgbToHls(ToUnit(c)).h * 360.0
  }

  predicate AllValid(cs: seq<Rgb>) {
    forall i :: 0 <= i < |cs| ==> Valid(cs[i])
  }

  /** The hue of a colour the engine scores; every such colour is 8-bit, the 0.0 is never used. */
  function HueOf(c: Rgb): (d: real)
    ensures 0.0 <= d < 360.0
  {
    if Valid(c) then HueDegrees(c) else 0.0
  }

  /** The hues of the colours, in input order. */
  function Hues(cs: seq<Rgb>): (hs: seq<real>)
    ensures |hs| == |cs|
  {
    if |cs| == 0 then [] else [HueOf(cs[0])] + Hues(cs[1..])
  }

  predicate InDegrees(hs: seq<real>) {
    forall i :: 0 <= i < |hs| ==> 0.0 <= hs[i] < 360.0
  }

  /** The shorter way round the colour wheel, `min(|a - b|, 360 - |a - b|)`. */
  function AngularDiff(a: real, b: real): (d: real)
    requires 0.0 <= a < 360.0 && 0.0 <= b < 360.0
    ensures 0.0 <= d <= 180.0
  {
    var gap := if a >= b then a - b else b - a;
    if 360.0 - gap < gap then 360.0 - gap else gap
  }

  /** Two hues are within 15 degrees of opposite. */
  predicate Complementary(a: real, b: real)
    requires 0.0 <= a < 360.0 && 0.0 <= b < 360.0
  {
    Abs(AngularDiff(a, b) - 180.0) < 15.0
  }

  // ------------------------------------------------------------------- rules

  /** Rule 1: the spread of the hues, or its complement, is under 15 degrees. */
  predicate Monochromatic(hs: seq<real>)
    requires Sorted(hs) && InDegrees(hs)
  {
    |hs| > 1 && (hs[|hs| - 1] - hs[0] < 15.0 || 360.0 - (hs[|hs| - 1] - hs[0]) < 15.0)
  }

  /** Rule 2: every neighbour, the last one wrapping to the first, is within 60 degrees. */
  predicate Analogous(hs: seq<real>)
    requires InDegrees(hs)
  {
    |hs| > 1 && forall i :: 0 <= i < |hs| ==> NeighbourGap(hs, i) <= 60.0
  }

  /** The angle from hue i to the next one, the last wrapping to the first. */
  function NeighbourGap(hs: seq<real>, i: nat): real
    requires InDegrees(hs) && i < |hs|
  {
    AngularDiff(hs[i], hs[(i + 1) % |hs|])
  }

  /** Rule 3 for two hues: they are opposite. */
  predicate ComplementaryPair(hs: seq<real>)
    requires InDegrees(hs)
  {
    |hs| == 2 && Complementary(hs[0], hs[1])
  }

  /** Some hue at an index in [j, |hs|) is opposite `hs[i]`. */
  predicate HasPartnerFrom(hs: seq<real>, i: nat, j: nat)
    requires InDegrees(hs) && i < |hs|
    decreases |hs| - j
  {
    j < |hs| && (Complementary(hs[i], hs[j]) || HasPartnerFrom(hs, i, j + 1))
  }

  /**
   * Rule 3 for more than two hues: the number of outer indices i >= from
   * with an opposite hue after them. The inner loop of the original breaks
   * at the first partner, so each outer index scores once.
   */
  function PairCount(hs: seq<real>, from: nat): (n: nat)
    requires InDegrees(hs)
    ensures n <= |hs| - from || (from > |hs| && n == 0)
    decreases |hs| - from
  {
    if from >= |hs| then 0
    else (if HasPartnerFrom(hs, from, from + 1) then 1 else 0) + PairCount(hs, from + 1)
  }

  /** The last hue has nothing after it, so at most |hs| - 1 outer indices score. */
  lemma {:induction false} PairCountBound(hs: seq<real>, from: nat)
    requires InDegrees(hs) && 0 < |hs| && from < |hs|
    ensures PairCount(hs, from) <= |hs| - 1 - from
    decreases |hs| - from
  {
    if from == |hs| - 1 {
      assert !HasPartnerFrom(hs, from, from + 1);
    } else {
      PairCountBound(hs, from + 1);
    }
  }

  /** Rule 4: three hues, each adjacent pair within 15 degrees of 120 apart. */
  predicate Triadic(hs: seq<real>)
    requires InDegrees(hs)
  {
    |hs| == 3
    && Abs(AngularDiff(hs[1], hs[0]) - 120.0) < 15.0
    && Abs(AngularDiff(hs[2], hs[1]) - 120.0) < 15.0
    && Abs(AngularDiff(hs[0], hs[2]) - 120.0) < 15.0
  }

  /** The points the rules award, before clamping. */
  function RawScore(hs: seq<real>): real
    requires Sorted(hs) && InDegrees(hs)
  {
    (if Monochromatic(hs) then 2.0 else 0.0)
    + (if Analogous(hs) then 3.0 else 0.0)
    + (if ComplementaryPair(hs) then 4.0 else 0.0)
    + (if |hs| > 2 then 1.5 * PairCount(hs, 0) as real else 0.0)
    + (if Triadic(hs) then 5.0 else 0.0)
  }

  /** Some rule added an explanation line. */
  predicate AnyRule(hs: seq<real>)
    requires Sorted(hs) && InDegrees(hs)
  {
    Monochromatic(hs) || Analogous(hs) || ComplementaryPair(hs)
    || (|hs| > 2 && PairCount(hs, 0) > 0) || Triadic(hs)
  }

  /**
   * The score of two or more sorted hues: the raw points capped to [0, 10],
   * lifted to 3.0 when no rule fired, rounded to two places.
   */
  function HueScore(hs: seq<real>): (score: real)
    requires Sorted(hs) && InDegrees(hs)
    ensures 0.0 <= score <= 10.0
    ensures !AnyRule(hs) ==> score == 3.0
    ensures AnyRule(hs) ==> score >= 1.5
  {
    var capped := Clamp(RawScore(hs), 0.0, 10.0);
    var final := if AnyRule(hs) then capped else Max(capped, 3.0);
    assert !AnyRule(hs) ==> RawScore(hs) == 0.0;
    assert AnyRule(hs) ==> RawScore(hs) >= 1.5;
    RoundBounds(final);
    Round2(final)
  }

  /** Rounding to two places keeps a value that lies between two cent values inside them. */
  lemma RoundBounds(x: real)
    ensures 0.0 <= x <= 10.0 ==> 0.0 <= Round2(x) <= 10.0
    ensures 1.5 <= x ==> 1.5 <= Round2(x)
    ensures x == 3.0 ==> Round2(x) == 3.0
  {
    Round2OfCents(0);
    Round2OfCents(150);
    Round2OfCents(300);
    Round2OfCents(1000);
    if 0.0 <= x {
      Round2Monotone(0.0, x);
    }
    if x <= 10.0 {
      Round2Monotone(x, 10.0);
    }
    if 1.5 <= x {
      Round2Monotone(1.5, x);
    }
  }

  /** `calculate_color_harmony_score(...)["score"]`. */
  function HarmonyScore(cs: seq<Rgb>): (score: real)
    requires AllValid(cs)
    ensures 0.0 <= score <= 10.0
    ensures |cs| == 0 ==> score == 0.0
    ensures |cs| == 1 ==> score == 7.0
  {
    if |cs| == 0 then 0.0
    else if |cs| == 1 then 7.0
    else
      var hs := SortReals(Hues(cs));
      HuesInDegrees(cs);
      assert InDegrees(hs) by {
        forall i | 0 <= i < |hs| ensures 0.0 <= hs[i] < 360.0 {
          assert hs[i] in multiset(Hues(cs));
        }
      }
      HueScore(hs)
  }

  lemma {:induction false} HuesInDegrees(cs: seq<Rgb>)
    ensures InDegrees(Hues(cs))
  {
    if |cs| > 0 {
      HuesInDegrees(cs[1..]);
    }
  }

  // -------------------------------------------------------------- invariance

  lemma {:induction false} HuesAppend(a: seq<Rgb>, b: seq<Rgb>)
    ensures Hues(a + b) == Hues(a) + Hues(b)
    decreases |a|
  {
    if |a| == 0 {
      assert a + b == b;
    } else {
      assert (a + b)[1..] == a[1..] + b;
      assert (a + b)[0] == a[0];
      HuesAppend(a[1..], b);
    }
  }

  /** The multiset of hues depends only on the multiset of colours. */
  lemma {:induction false} HuesPermutation(a: seq<Rgb>, b: seq<Rgb>)
    requires multiset(a) == multiset(b)
    ensures multiset(Hues(a)) == multiset(Hues(b))
    decreases |a|
  {
    if |a| == 0 {
      assert |b| == |multiset(b)| == 0;
    } else {
      assert a[0] in multiset(b);
      var k :| 0 <= k < |b| && b[k] == a[0];
      var rest := b[..k] + b[k + 1..];
      HuesRemoveAt(b, k);
      MultisetTail(a);
      HuesPermutation(a[1..], rest);
      assert Hues(a) == [HueOf(a[0])] + Hues(a[1..]);
    }
  }

  /** Taking the colour at index k out of a sequence takes its hue out of the hues. */
  lemma HuesRemoveAt(b: seq<Rgb>, k: nat)
    requires k < |b|
    ensures multiset(b[..k] + b[k + 1..]) == multiset(b) - multiset{b[k]}
    ensures multiset(Hues(b)) == multiset{HueOf(b[k])} + multiset(Hues(b[..k] + b[k + 1..]))
  {
    RemoveAt(b, k);
    HuesSplit(b, k);
    HuesAppend(b[..k], b[k + 1..]);
    MultisetMiddle(Hues(b[..k]), HueOf(b[k]), Hues(b[k + 1..]));
  }

  /** The hues of a sequence cut around index k. */
  lemma HuesSplit(b: seq<Rgb>, k: nat)
    requires k < |b|
    ensures Hues(b) == Hues(b[..k]) + ([HueOf(b[k])] + Hues(b[k + 1..]))
  {
    SplitAround(b, k);
    HuesAppend(b[..k], [b[k]] + b[k + 1..]);
    HuesCons(b[k], b[k + 1..]);
  }

  lemma SplitAround<T>(b: seq<T>, k: nat)
    requires k < |b|
    ensures b == b[..k] + ([b[k]] + b[k + 1..])
  {
  }

  lemma HuesCons(c: Rgb, t: seq<Rgb>)
    ensures Hues([c] + t) == [HueOf(c)] + Hues(t)
  {
    assert ([c] + t)[0] == c;
    assert ([c] + t)[1..] == t;
  }

  lemma MultisetMiddle<T>(a: seq<T>, x: T, c: seq<T>)
    ensures multiset(a + ([x] + c)) == multiset{x} + multiset(a + c)
  {
  }

  lemma RemoveAt<T>(b: seq<T>, k: nat)
    requires k < |b|
    ensures multiset(b[..k] + b[k + 1..]) == multiset(b) - multiset{b[k]}
  {
    SplitAround(b, k);
  }

  /** Reordering the colours never changes the harmony score: only the sorted hues matter. */
  lemma HarmonyPermutationInvariant(a: seq<Rgb>, b: seq<Rgb>)
    requires AllValid(a) && AllValid(b)
    requires multiset(a) == multiset(b)
    ensures HarmonyScore(a) == HarmonyScore(b)
  {
    assert |a| == |multiset(a)| == |multiset(b)| == |b|;
    if |a| > 1 {
      HuesPermutation(a, b);
      HuesInDegrees(a);
      SortedUnique(SortReals(Hues(a)), SortReals(Hues(b)));
    }
  }

  // ---------------------------------------------------------------- examples

  /** When some rule fires and the points stay within 10, the score is the points rounded. */
  lemma ScoreOfFiredRules(hs: seq<real>)
    requires Sorted(hs) && InDegrees(hs)
    requires AnyRule(hs) && RawScore(hs) <= 10.0
    ensures HueScore(hs) == Round2(RawScore(hs))
  {
  }

  /** Two opposite hues score the complementary 4 points and nothing else. */
  lemma ComplementaryExample()
    ensures HueScore([0.0, 180.0]) == 4.0
  {
    var hs := [0.0, 180.0];
    assert AngularDiff(hs[0], hs[1]) == 180.0;
    assert NeighbourGap(hs, 0) == 180.0;
    assert !Monochromatic(hs);
    assert !Analogous(hs);
    assert ComplementaryPair(hs);
    assert !Triadic(hs);
    assert RawScore(hs) == 4.0;
    ScoreOfFiredRules(hs);
    Round2OfCents(400);
  }

  /** Three hues 120 degrees apart score the triadic 5 points. */
  lemma TriadicExample()
    ensures HueScore([0.0, 120.0, 240.0]) == 5.0
  {
    var hs := [0.0, 120.0, 240.0];
    NoPairsInTriad();
    TriadRules();
    assert RawScore(hs) == 5.0;
    ScoreOfFiredRules(hs);
    Round2OfCents(500);
  }

  lemma TriadRules()
    ensures !Monochromatic([0.0, 120.0, 240.0])
    ensures !Analogous([0.0, 120.0, 240.0])
    ensures !ComplementaryPair([0.0, 120.0, 240.0])
    ensures Triadic([0.0, 120.0, 240.0])
  {
    var hs := [0.0, 120.0, 240.0];
    assert hs[0] == 0.0 && hs[1] == 120.0 && hs[2] == 240.0;
    assert AngularDiff(0.0, 120.0) == 120.0;
    assert NeighbourGap(hs, 0) == 120.0;
    assert AngularDiff(120.0, 0.0) == 120.0;
    assert AngularDiff(240.0, 120.0) == 120.0;
    assert AngularDiff(0.0, 240.0) == 120.0;
  }

  lemma NoPairsInTriad()
    ensures PairCount([0.0, 120.0, 240.0], 0) == 0
  {
    var hs := [0.0, 120.0, 240.0];
    NoPartnerOfFirst();
    LaterIndicesUnpaired();
  }

  lemma NoPartnerOfFirst()
    ensures !HasPartnerFrom([0.0, 120.0, 240.0], 0, 1)
  {
    var hs := [0.0, 120.0, 240.0];
    assert hs[0] == 0.0 && hs[1] == 120.0 && hs[2] == 240.0;
    assert AngularDiff(0.0, 120.0) == 120.0;
    assert AngularDiff(0.0, 240.0) == 120.0;
    assert !HasPartnerFrom(hs, 0, 3);
    assert !HasPartnerFrom(hs, 0, 2);
  }

  lemma LaterIndicesUnpaired()
    ensures PairCount([0.0, 120.0, 240.0], 1) == 0
  {
    var hs := [0.0, 120.0, 240.0];
    assert hs[0] == 0.0 && hs[1] == 120.0 && hs[2] == 240.0;
    assert AngularDiff(120.0, 240.0) == 120.0;
    assert !HasPartnerFrom(hs, 1, 3);
    assert !HasPartnerFrom(hs, 1, 2);
    assert !HasPartnerFrom(hs, 2, 3);
    assert PairCount(hs, 3) == 0;
    assert PairCount(hs, 2) == 0;
  }

  /**
   * Hues 0, 170 and 355: two outer indices each find an opposite hue, so
   * the pair bonus is paid twice, and the 355-degree spread wraps round to
   * a monochromatic 5 degrees.
   */
  lemma PairBonusPerOuterIndex()
    ensures PairCount([0.0, 170.0, 355.0], 0) == 2
    ensures HueScore([0.0, 170.0, 355.0]) == 5.0
  {
    var hs := [0.0, 170.0, 355.0];
    assert AngularDiff(hs[0], hs[1]) == 170.0;
    assert AngularDiff(hs[1], hs[2]) == 175.0;
    assert HasPartnerFrom(hs, 0, 1);
    assert HasPartnerFrom(hs, 1, 2);
    assert !HasPartnerFrom(hs, 2, 3);
    assert PairCount(hs, 2) == 0;
    assert PairCount(hs, 0) == 2;
    assert Monochromatic(hs);
    assert NeighbourGap(hs, 0) == 170.0;
    assert !Analogous(hs);
    assert !Triadic(hs);
    assert RawScore(hs) == 5.0;
    ScoreOfFiredRules(hs);
    Round2OfCents(500);
  }
}
