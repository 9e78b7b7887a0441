/**
 * The per-image metrics of the analyzer: the whitespace share, the two
 * mirror-symmetry scores, the golden aspect match, and the heuristic
 * typography and mood tags with their comma-joined serialisation.
 *
 * A decoded image arrives as its grey-level rows and its flattened list
 * of RGB pixels; the fractal dimension, entropy, visual balance and the
 * aesthetic score are computed elsewhere and arrive as numbers.
 */
module ImageAnalyzer {
  import opened Wrappers
  import opened Numeric
  import opened Text
  import Color

  // ---------------------------------------------------------------------------
  // Images
  // ---------------------------------------------------------------------------

  predicate IsByte(v: int) {
    0 <= v <= 255
  }

  /** A non-empty rectangular image of 8-bit grey levels, row by row. */
  predicate Rectangular(g: seq<seq<int>>) {
    |g| >= 1 && |g[0]| >= 1
    && (forall i :: 0 <= i < |g| ==> |g[i]| == |g[0]|)
    && (forall i, j :: 0 <= i < |g| && 0 <= j < |g[i]| ==> IsByte(g[i][j]))
  }

  function Width(g: seq<seq<int>>): nat
    requires |g| >= 1
  {
    |g[0]|
  }

  predicate AllValid(px: seq<Color.Rgb>) {
    forall i :: 0 <= i < |px| ==> Color.Valid(px[i])
  }

  /** A decoded picture: grey levels and the same pixels in colour, row-major. */
  datatype Image = Image(gray: seq<seq<int>>, rgb: seq<Color.Rgb>)

  predicate Decoded(im: Image) {
    Rectangular(im.gray) && |im.rgb| == |im.gray| * Width(im.gray) && AllValid(im.rgb)
  }

  // ---------------------------------------------------------------------------
  // Whitespace
  // ---------------------------------------------------------------------------

  const LightThreshold: int := 240
  const DarkThreshold: int := 15

  predicate IsLight(v: int) {
    v > LightThreshold
  }

  predicate IsDark(v: int) {
    v < DarkThreshold
  }

  /** A pixel that counts as whitespace: very light or very dark, both strictly. */
  predicate IsBlank(v: int) {
    IsLight(v) || IsDark(v)
  }

  /** How many entries of a row satisfy p. */
  function CountRow(row: seq<int>, p: int -> bool): (n: nat)
    ensures n <= |row|
  {
    if |row| == 0 then 0
    else CountRow(row[..|row| - 1], p) + (if p(row[|row| - 1]) then 1 else 0)
  }

  /** How many pixels of an image satisfy p. */
  function CountRows(g: seq<seq<int>>, p: int -> bool): nat
  {
    if |g| == 0 then 0 else CountRows(g[..|g| - 1], p) + CountRow(g[|g| - 1], p)
  }

  lemma {:induction false} CountRowsBound(g: seq<seq<int>>, p: int -> bool, w: nat)
    requires forall i :: 0 <= i < |g| ==> |g[i]| == w
    ensures CountRows(g, p) <= |g| * w
  {
    if |g| > 0 {
      CountRowsBound(g[..|g| - 1], p, w);
      assert |g| * w == (|g| - 1) * w + w;
    }
  }

  /** The light and the dark thresholds never both hold, so the two counts add up. */
  lemma {:induction false} CountRowSplit(row: seq<int>)
    ensures CountRow(row, IsBlank) == CountRow(row, IsLight) + CountRow(row, IsDark)
  {
    if |row| > 0 {
      CountRowSplit(row[..|row| - 1]);
    }
  }

  lemma {:induction false} CountRowsSplit(g: seq<seq<int>>)
    ensures CountRows(g, IsBlank) == CountRows(g, IsLight) + CountRows(g, IsDark)
  {
    if |g| > 0 {
      CountRowsSplit(g[..|g| - 1]);
      CountRowSplit(g[|g| - 1]);
    }
  }

  /** `round(blank / total * 100, 2)`. */
  function WhitespacePercentage(g: seq<seq<int>>): (pct: real)
    requires Rectangular(g)
    ensures 0.0 <= pct <= 100.0
  {
    var total := |g| * Width(g);
    var count := CountRows(g, IsBlank);
    CountRowsBound(g, IsBlank, Width(g));
    PercentBounds(count, total);
    Round2(count as real / total as real * 100.0)
  }

  lemma PercentBounds(count: nat, total: nat)
    requires 0 < total && count <= total
    ensures 0.0 <= Round2(count as real / total as real * 100.0) <= 100.0
  {
    var x := count as real / total as real * 100.0;
    ShareBounds(count as real, total as real);
    Round2OfCents(0);
    Round2OfCents(10000);
    Round2Monotone(0.0, x);
    Round2Monotone(x, 100.0);
  }

  /**
   * The whitespace loop: light and dark pixels are counted separately, as
   * the two `np.sum` calls do, and the result is the share of pixels that
   * are blank.
   */
  method MeasureWhitespace(g: seq<seq<int>>) returns (pct: real)
    requires Rectangular(g)
    ensures pct == WhitespacePercentage(g)
    ensures 0.0 <= pct <= 100.0
  {
    var light, dark := 0, 0;
    var i := 0;
    while i < |g|
      invariant 0 <= i <= |g|
      invariant light == CountRows(g[..i], IsLight)
      invariant dark == CountRows(g[..i], IsDark)
    {
      var rowLight, rowDark := MeasureRow(g[i]);
      assert g[..i + 1][..i] == g[..i];
      light, dark := light + rowLight, dark + rowDark;
      i := i + 1;
    }
    assert g[..|g|] == g;
    CountRowsSplit(g);
    var total := |g| * Width(g);
    PositiveArea(g);
    pct := Round2((light + dark) as real / total as real * 100.0);
  }

  lemma PositiveArea(g: seq<seq<int>>)
    requires Rectangular(g)
    ensures |g| * Width(g) > 0
  {
    var h, w := |g|, Width(g);
    assert h >= 1 && w >= 1;
    assert h * w >= 1 * w;
  }

  /** The light and the dark pixels of one row, counted in one pass. */
  method MeasureRow(row: seq<int>) returns (light: nat, dark: nat)
    ensures light == CountRow(row, IsLight) && dark == CountRow(row, IsDark)
  {
    light, dark := 0, 0;
    var j := 0;
    while j < |row|
      invariant 0 <= j <= |row|
      invariant light == CountRow(row[..j], IsLight)
      invariant dark == CountRow(row[..j], IsDark)
    {
      assert row[..j + 1][..j] == row[..j];
      if IsLight(row[j]) {
        light := light + 1;
      }
      if IsDark(row[j]) {
        dark := dark + 1;
      }
      j := j + 1;
    }
    assert row[..|row|] == row;
  }

  /** A picture made only of blank pixels is all whitespace. */
  lemma {:induction false} AllBlankIsHundred(g: seq<seq<int>>)
    requires Rectangular(g)
    requires forall i, j :: 0 <= i < |g| && 0 <= j < |g[i]| ==> IsBlank(g[i][j])
    ensures WhitespacePercentage(g) == 100.0
  {
    CountAllRows(g, IsBlank, Width(g));
    var total := |g| * Width(g);
    assert total > 0 by {
      assert |g| >= 1 && Width(g) >= 1;
    }
    ShareBounds(total as real, total as real);
    Round2OfCents(10000);
  }

  lemma {:induction false} CountAllRow(row: seq<int>, p: int -> bool)
    requires forall j :: 0 <= j < |row| ==> p(row[j])
    ensures CountRow(row, p) == |row|
  {
    if |row| > 0 {
      CountAllRow(row[..|row| - 1], p);
    }
  }

  lemma {:induction false} CountAllRows(g: seq<seq<int>>, p: int -> bool, w: nat)
    requires forall i :: 0 <= i < |g| ==> |g[i]| == w
    requires forall i, j :: 0 <= i < |g| && 0 <= j < |g[i]| ==> p(g[i][j])
    ensures CountRows(g, p) == |g| * w
  {
    if |g| > 0 {
      CountAllRows(g[..|g| - 1], p, w);
      CountAllRow(g[|g| - 1], p);
      assert |g| * w == (|g| - 1) * w + w;
    }
  }

  /** Levels 240 and 15 are not whitespace; 241 and 14 are. */
  lemma ThresholdsAreStrict()
    ensures WhitespacePercentage([[240, 241, 14, 15]]) == 50.0
  {
    var g := [[240, 241, 14, 15]];
    var row := g[0];
    assert [240][..0] == [];
    assert CountRow([240], IsBlank) == 0;
    assert [240, 241][..1] == [240];
    assert CountRow([240, 241], IsBlank) == 1;
    assert [240, 241, 14][..2] == [240, 241];
    assert CountRow([240, 241, 14], IsBlank) == 2;
    assert row[..3] == [240, 241, 14];
    assert CountRow(row, IsBlank) == 2;
    assert g[..0] == [];
    assert CountRows(g, IsBlank) == 2;
    assert 2 as real / 4 as real * 100.0 == 5000 as real / 100.0;
    Round2OfCents(5000);
  }

  // ---------------------------------------------------------------------------
  // Symmetry
  // ---------------------------------------------------------------------------

  /**
   * The per-pixel term of the symmetry sums. Both halves are `uint8` arrays,
   * so their difference wraps modulo 256 and `abs` leaves it unchanged.
   */
  function WrapDiff(a: int, b: int): (d: nat)
    ensures d < 256
    ensures 0 <= b <= a < 256 ==> d == a - b
    ensures 0 <= a < b < 256 ==> d == a - b + 256
  {
    (a - b) % 256
  }

  /** Sum of `WrapDiff(a[j], b[j])` over the first n columns. */
  function PairDiff(a: seq<int>, b: seq<int>, n: nat): (d: nat)
    requires n <= |a| && n <= |b|
    ensures d <= 255 * n
  {
    if n == 0 then 0 else PairDiff(a, b, n - 1) + WrapDiff(a[n - 1], b[n - 1])
  }

  /** Row i of the top half is paired with row `height - 1 - i` of the flipped bottom half. */
  function TopDiff(g: seq<seq<int>>, k: nat): (d: nat)
    requires Rectangular(g) && k <= |g| / 2
    ensures d <= 255 * (k * Width(g))
  {
    if k == 0 then 0
    else
      var d := TopDiff(g, k - 1) + PairDiff(g[k - 1], g[|g| - k], Width(g));
      assert k * Width(g) == (k - 1) * Width(g) + Width(g);
      d
  }

  /** Column j of the left half is paired with column `width - 1 - j`. */
  function MirrorDiff(row: seq<int>, n: nat): (d: nat)
    requires n <= |row| / 2
    ensures d <= 255 * n
  {
    if n == 0 then 0 else MirrorDiff(row, n - 1) + WrapDiff(row[n - 1], row[|row| - n])
  }

  function LeftDiff(g: seq<seq<int>>, k: nat): (d: nat)
    requires Rectangular(g) && k <= |g|
    ensures d <= 255 * (k * (Width(g) / 2))
  {
    if k == 0 then 0
    else
      var d := LeftDiff(g, k - 1) + MirrorDiff(g[k - 1], Width(g) / 2);
      assert k * (Width(g) / 2) == (k - 1) * (Width(g) / 2) + Width(g) / 2;
      d
  }

  /** `1 - diff / (255 * size)` for a non-empty half, 0.0 for an empty one. */
  function MirrorScore(diff: nat, size: nat): (s: real)
    requires diff <= 255 * size
    ensures 0.0 <= s <= 1.0
    ensures size == 0 ==> s == 0.0
    ensures size > 0 ==> (s == 1.0 <==> diff == 0)
  {
    if size == 0 then 0.0
    else
      DivLe(diff as real, (255 * size) as real, (255 * size) as real);
      1.0 - diff as real / (255 * size) as real
  }

  function HorizontalSymmetry(g: seq<seq<int>>): (s: real)
    requires Rectangular(g)
    ensures 0.0 <= s <= 1.0
  {
    MirrorScore(TopDiff(g, |g| / 2), |g| / 2 * Width(g))
  }

  function VerticalSymmetry(g: seq<seq<int>>): (s: real)
    requires Rectangular(g)
    ensures 0.0 <= s <= 1.0
  {
    MirrorScore(LeftDiff(g, |g|), |g| * (Width(g) / 2))
  }

  /** The horizontal-symmetry loop over the top half and the flipped bottom half. */
  method MeasureHorizontal(g: seq<seq<int>>) returns (s: real)
    requires Rectangular(g)
    ensures s == HorizontalSymmetry(g)
    ensures 0.0 <= s <= 1.0
    ensures |g| == 1 ==> s == 0.0
  {
    var half := |g| / 2;
    var w := |g[0]|;
    var diff := 0;
    var i := 0;
    while i < half
      invariant 0 <= i <= half
      invariant diff == TopDiff(g, i)
    {
      var top, bottom := g[i], g[|g| - 1 - i];
      var rowDiff := 0;
      var j := 0;
      while j < w
        invariant 0 <= j <= w
        invariant rowDiff == PairDiff(top, bottom, j)
      {
        rowDiff := rowDiff + (top[j] - bottom[j]) % 256;
        j := j + 1;
      }
      diff := diff + rowDiff;
      i := i + 1;
    }
    if half * w > 0 {
      s := 1.0 - diff as real / (255 * (half * w)) as real;
    } else {
      s := 0.0;
    }
  }

  /** The vertical-symmetry loop over the left half and the flipped right half. */
  method MeasureVertical(g: seq<seq<int>>) returns (s: real)
    requires Rectangular(g)
    ensures s == VerticalSymmetry(g)
    ensures 0.0 <= s <= 1.0
    ensures |g[0]| == 1 ==> s == 0.0
  {
    var half := |g[0]| / 2;
    var diff := 0;
    var i := 0;
    while i < |g|
      invariant 0 <= i <= |g|
      invariant diff == LeftDiff(g, i)
    {
      var row := g[i];
      var rowDiff := 0;
      var j := 0;
      while j < half
        invariant 0 <= j <= half
        invariant rowDiff == MirrorDiff(row, j)
      {
        rowDiff := rowDiff + (row[j] - row[|row| - 1 - j]) % 256;
        j := j + 1;
      }
      diff := diff + rowDiff;
      i := i + 1;
    }
    if |g| * half > 0 {
      s := 1.0 - diff as real / (255 * (|g| * half)) as real;
    } else {
      s := 0.0;
    }
  }

  /** Rows mirrored about the middle row. */
  predicate UpDownMirrored(g: seq<seq<int>>)
    requires Rectangular(g)
  {
    forall i, j {:trigger g[i][j]} :: 0 <= i < |g| && 0 <= j < Width(g) ==> g[i][j] == g[|g| - 1 - i][j]
  }

  /** Columns mirrored about the middle column. */
  predicate LeftRightMirrored(g: seq<seq<int>>)
    requires Rectangular(g)
  {
    forall i, j :: 0 <= i < |g| && 0 <= j < Width(g) ==> g[i][j] == g[i][Width(g) - 1 - j]
  }

  lemma {:induction false} PairDiffOfEqual(a: seq<int>, b: seq<int>, n: nat)
    requires n <= |a| && n <= |b|
    requires forall j :: 0 <= j < n ==> a[j] == b[j]
    ensures PairDiff(a, b, n) == 0
  {
    if n > 0 {
      PairDiffOfEqual(a, b, n - 1);
    }
  }

  lemma {:induction false} TopDiffOfMirrored(g: seq<seq<int>>, k: nat)
    requires Rectangular(g) && k <= |g| / 2 && UpDownMirrored(g)
    ensures TopDiff(g, k) == 0
  {
    if k > 0 {
      TopDiffOfMirrored(g, k - 1);
      var a, b := g[k - 1], g[|g| - k];
      forall j | 0 <= j < Width(g)
        ensures a[j] == b[j]
      {
        assert g[k - 1][j] == g[|g| - 1 - (k - 1)][j];
      }
      PairDiffOfEqual(a, b, Width(g));
    }
  }

  /** A picture equal to its own up-down flip scores exactly 1.0 (once it has two rows). */
  lemma MirroredScoresOne(g: seq<seq<int>>)
    requires Rectangular(g) && |g| >= 2 && UpDownMirrored(g)
    ensures HorizontalSymmetry(g) == 1.0
  {
    TopDiffOfMirrored(g, |g| / 2);
  }

  lemma {:induction false} MirrorDiffOfMirrored(row: seq<int>, n: nat)
    requires n <= |row| / 2
    requires forall j :: 0 <= j < |row| ==> row[j] == row[|row| - 1 - j]
    ensures MirrorDiff(row, n) == 0
  {
    if n > 0 {
      MirrorDiffOfMirrored(row, n - 1);
      assert row[n - 1] == row[|row| - 1 - (n - 1)];
    }
  }

  lemma {:induction false} LeftDiffOfMirrored(g: seq<seq<int>>, k: nat)
    requires Rectangular(g) && k <= |g| && LeftRightMirrored(g)
    ensures LeftDiff(g, k) == 0
  {
    if k > 0 {
      LeftDiffOfMirrored(g, k - 1);
      var row := g[k - 1];
      forall j | 0 <= j < |row|
        ensures row[j] == row[|row| - 1 - j]
      {
        assert g[k - 1][j] == g[k - 1][Width(g) - 1 - j];
      }
      MirrorDiffOfMirrored(row, Width(g) / 2);
    }
  }

  /** A picture equal to its own left-right flip scores exactly 1.0 (once it has two columns). */
  lemma MirroredScoresOneVertically(g: seq<seq<int>>)
    requires Rectangular(g) && Width(g) >= 2 && LeftRightMirrored(g)
    ensures VerticalSymmetry(g) == 1.0
  {
    LeftDiffOfMirrored(g, |g|);
  }

  /**
   * The wrapping difference is not the distance: a dark pixel above a
   * slightly lighter one counts as the largest possible difference, while
   * the same two pixels the other way round count as the smallest non-zero one.
   */
  lemma WrapIsNotDistance()
    ensures HorizontalSymmetry([[0], [1]]) == 0.0
    ensures HorizontalSymmetry([[1], [0]]) == 1.0 - 1.0 / 255.0
  {
    assert TopDiff([[0], [1]], 1) == 255;
    assert TopDiff([[1], [0]], 1) == 1;
  }

  // ---------------------------------------------------------------------------
  // Aspect ratio
  // ---------------------------------------------------------------------------

  /** `round(width / height, 2)`. */
  function AspectRatio(width: nat, height: nat): real
    requires height > 0
  {
    Round2(width as real / height as real)
  }

  predicate NearGolden(ar: real) {
    Abs(ar - Golden) < 0.1 || Abs(ar - 1.0 / Golden) < 0.1
  }

  /** On whole hundredths, nearness to φ or 1/φ is two fixed windows. */
  lemma GoldenWindows(k: int)
    ensures NearGolden(k as real / 100.0) <==> (152 <= k <= 171 || 52 <= k <= 71)
  {
    assert 0.61803398874 < 1.0 / Golden < 0.61803398875;
  }

  /**
   * The golden-ratio aspect match: the ratio rounded to hundredths lies
   * within 0.1 of φ or of 1/φ, which is the same as its hundredths count
   * lying in 152..171 or in 52..71.
   */
  function GoldenAspectMatch(width: nat, height: nat): (m: bool)
    requires height > 0
    ensures m <==> NearGolden(AspectRatio(width, height))
    ensures var k := RoundHalfEven(width as real / height as real * 100.0);
            m <==> (152 <= k <= 171 || 52 <= k <= 71)
  {
    var k := RoundHalfEven(width as real / height as real * 100.0);
    assert AspectRatio(width, height) == k as real / 100.0;
    GoldenWindows(k);
    NearGolden(AspectRatio(width, height))
  }

  // ---------------------------------------------------------------------------
  // Average colour
  // ---------------------------------------------------------------------------

  function Channel(c: Color.Rgb, ch: nat): int {
    if ch == 0 then c.r else if ch == 1 then c.g else c.b
  }

  function ChannelSum(px: seq<Color.Rgb>, ch: nat): (s: int)
    requires AllValid(px)
    ensures 0 <= s <= 255 * |px|
  {
    if |px| == 0 then 0
    else ChannelSum(px[..|px| - 1], ch) + Channel(px[|px| - 1], ch)
  }

  /** `np.mean(rgb, axis=0)[ch]`. */
  function ChannelMean(px: seq<Color.Rgb>, ch: nat): (m: real)
    requires |px| > 0 && AllValid(px)
    ensures 0.0 <= m <= 255.0
  {
    var s := ChannelSum(px, ch);
    var n := |px| as real;
    DivLe(s as real, (255 * |px|) as real, n);
    assert (255 * |px|) as real == 255.0 * n;
    assert 255.0 * n / n == 255.0;
    s as real / |px| as real
  }

  /** The mean colour scaled to [0, 1] per channel. */
  function MeanUnit(px: seq<Color.Rgb>): (u: Color.Unit)
    requires |px| > 0 && AllValid(px)
    ensures Color.InUnit(u)
  {
    Color.Unit(ChannelMean(px, 0) / 255.0, ChannelMean(px, 1) / 255.0, ChannelMean(px, 2) / 255.0)
  }

  /** The saturation of the mean colour in the HLS model. */
  function MeanSaturation(px: seq<Color.Rgb>): (s: real)
    requires |px| > 0 && AllValid(px)
    ensures 0.0 <= s <= 1.0
  {
    Color.RgbToHls(MeanUnit(px)).s
  }

  // ---------------------------------------------------------------------------
  // Typography tags
  // ---------------------------------------------------------------------------

  datatype Style = Light | Bold | Geometric | Expressive | Display | Serif

  function StyleName(s: Style): string
  {
    match s
    case Light => "light"
    case Bold => "bold"
    case Geometric => "geometric"
    case Expressive => "expressive"
    case Display => "display"
    case Serif => "serif"
  }

  /** The three independent typography rules, in order. */
  function RawStyles(ws: real, hsym: real, vsym: real, sat: real): seq<Style>
  {
    (if ws > 70.0 then [Light] else [])
    + (if ws < 30.0 then [Bold] else [])
    + (if hsym > 0.85 && vsym > 0.85 then [Geometric]
       else if hsym < 0.5 || vsym < 0.5 then [Expressive] else [])
    + (if sat > 0.6 then [Display] else if sat < 0.2 then [Serif] else [])
  }

  /** When both weights are present, keep "bold" below 50% whitespace and "light" otherwise. */
  function ResolveWeight(styles: seq<Style>, ws: real): seq<Style>
  {
    if Bold in styles && Light in styles then
      if ws < 50.0 then RemoveFirst(styles, Light) else RemoveFirst(styles, Bold)
    else styles
  }

  /**
   * The inferred typography styles. No two conflicting styles appear
   * together, and each style is present exactly when its rule fires.
   */
  function TypographyStyles(ws: real, hsym: real, vsym: real, sat: real): (r: seq<Style>)
    ensures !(Bold in r && Light in r)
    ensures !(Geometric in r && Expressive in r)
    ensures !(Display in r && Serif in r)
    ensures Light in r <==> ws > 70.0
    ensures Bold in r <==> ws < 30.0
    ensures Geometric in r <==> hsym > 0.85 && vsym > 0.85
    ensures Expressive in r <==> !(hsym > 0.85 && vsym > 0.85) && (hsym < 0.5 || vsym < 0.5)
    ensures Display in r <==> sat > 0.6
    ensures Serif in r <==> sat < 0.2
    ensures |r| == 0 <==> 30.0 <= ws <= 70.0 && !(hsym > 0.85 && vsym > 0.85)
                          && !(hsym < 0.5 || vsym < 0.5) && 0.2 <= sat <= 0.6
  {
    var raw := RawStyles(ws, hsym, vsym, sat);
    assert Bold in raw ==> ws < 30.0;
    assert Light in raw ==> ws > 70.0;
    ResolveWeight(raw, ws)
  }

  // ---------------------------------------------------------------------------
  // Mood tags
  // ---------------------------------------------------------------------------

  datatype Mood =
    | Energetic | Warm | Vibrant | Calm | Neutral | Muted
    | Minimalist | Dense | Balanced | Professional | Dynamic | Creative

  function MoodName(m: Mood): string
  {
    match m
    case Energetic => "energetic"
    case Warm => "warm"
    case Vibrant => "vibrant"
    case Calm => "calm"
    case Neutral => "neutral"
    case Muted => "muted"
    case Minimalist => "minimalist"
    case Dense => "dense"
    case Balanced => "balanced"
    case Professional => "professional"
    case Dynamic => "dynamic"
    case Creative => "creative"
  }

  /** The dominant-channel rule: always exactly one tag. */
  function ChannelMood(mr: real, mg: real, mb: real, sat: real): Mood
  {
    if mr > mg && mr > mb then (if sat > 0.5 then Energetic else Warm)
    else if mb > mr && mb > mg then (if sat > 0.5 then Vibrant else Calm)
    else Neutral
  }

  /** The tags the two colour rules can produce. */
  predicate ColourMood(m: Mood) {
    m.Energetic? || m.Warm? || m.Vibrant? || m.Calm? || m.Neutral? || m.Muted?
  }

  /** Red is the strictly largest mean channel. */
  predicate RedDominant(mr: real, mg: real, mb: real) {
    mr > mg && mr > mb
  }

  /** Blue is the strictly largest mean channel. */
  predicate BlueDominant(mr: real, mg: real, mb: real) {
    mb > mr && mb > mg
  }

  /**
   * The dominant-channel tag followed by the saturation tag, if any. Each
   * hue tag appears exactly under its channel and saturation condition;
   * "vibrant" comes from a saturated blue picture or from any picture
   * saturated above 0.7.
   */
  function ColourMoods(mr: real, mg: real, mb: real, sat: real): (r: seq<Mood>)
    ensures 1 <= |r| <= 2
    ensures forall t :: t in r ==> ColourMood(t)
    ensures Muted in r <==> sat < 0.3
    ensures Energetic in r <==> RedDominant(mr, mg, mb) && sat > 0.5
    ensures Warm in r <==> RedDominant(mr, mg, mb) && sat <= 0.5
    ensures Calm in r <==> BlueDominant(mr, mg, mb) && sat <= 0.5
    ensures Neutral in r <==> !RedDominant(mr, mg, mb) && !BlueDominant(mr, mg, mb)
    ensures Vibrant in r <==> (BlueDominant(mr, mg, mb) && sat > 0.5) || sat > 0.7
  {
    [ChannelMood(mr, mg, mb, sat)] + (if sat > 0.7 then [Vibrant] else if sat < 0.3 then [Muted] else [])
  }

  /** `if "vibrant" in moods: moods.remove("vibrant")`. */
  function DropVibrant(moods: seq<Mood>): (r: seq<Mood>)
    ensures multiset(r) == multiset(moods) - multiset{Vibrant}
  {
    if Vibrant in moods then RemoveFirst(moods, Vibrant) else moods
  }

  lemma DropVibrantKeeps(m: seq<Mood>)
    ensures |DropVibrant(m)| >= |m| - 1
    ensures forall t :: t in DropVibrant(m) ==> t in m
    ensures forall t :: t != Vibrant ==> (t in DropVibrant(m) <==> t in m)
  {
    var r := DropVibrant(m);
    forall t
      ensures t in r ==> t in m
      ensures t != Vibrant ==> (t in r <==> t in m)
    {
      assert t in m <==> t in multiset(m);
      assert t in r <==> t in multiset(r);
    }
  }

  /** The whitespace rule: "minimalist" (dropping one "vibrant") or "dense". */
  function WhitespaceMoods(first: seq<Mood>, ws: real): (r: seq<Mood>)
    requires |first| >= 1 && forall t :: t in first ==> ColourMood(t)
    ensures |r| >= 1
    ensures Minimalist in r <==> ws > 70.0
    ensures Dense in r <==> ws < 30.0
    ensures forall t :: t in r ==> t in first || t == Minimalist || t == Dense
    ensures Muted in r <==> Muted in first
  {
    if ws > 70.0 then
      MinimalistBranch(first);
      DropVibrant(first + [Minimalist])
    else if ws < 30.0 then
      assert !ColourMood(Minimalist);
      first + [Dense]
    else
      assert !ColourMood(Minimalist) && !ColourMood(Dense);
      first
  }

  /**
   * The whitespace rule keeps every colour tag, except that "minimalist"
   * may take a "vibrant" away.
   */
  lemma WhitespaceKeepsColours(first: seq<Mood>, ws: real)
    requires |first| >= 1 && forall t :: t in first ==> ColourMood(t)
    ensures var r := WhitespaceMoods(first, ws);
      && (forall t :: ColourMood(t) && t != Vibrant ==> (t in r <==> t in first))
      && (ws <= 70.0 ==> (Vibrant in r <==> Vibrant in first))
  {
    if ws > 70.0 {
      MinimalistBranch(first);
    } else {
      assert !ColourMood(Minimalist) && !ColourMood(Dense);
    }
  }

  /** Colour tags plus "minimalist", less one "vibrant". */
  lemma MinimalistBranch(first: seq<Mood>)
    requires forall t :: t in first ==> ColourMood(t)
    ensures var r := DropVibrant(first + [Minimalist]);
      Minimalist in r && Dense !in r
      && (forall t :: t in r ==> t in first || t == Minimalist)
      && (Muted in r <==> Muted in first)
      && (forall t :: ColourMood(t) && t != Vibrant ==> (t in r <==> t in first))
  {
    var both := first + [Minimalist];
    DropVibrantKeeps(both);
    assert Minimalist in both;
    assert !ColourMood(Dense);
    forall t | t in both ensures t in first || t == Minimalist {
    }
    forall t | ColourMood(t) && t != Vibrant ensures t in both <==> t in first {
    }
  }

  /** The symmetry rule's two tags, or none. */
  function SymmetryMoods(avgSym: real): seq<Mood>
  {
    if avgSym > 0.8 then [Balanced, Professional]
    else if avgSym < 0.5 then [Dynamic, Creative] else []
  }

  /**
   * The inferred moods, in the order the rules append them. The list is
   * never empty, and the whitespace and symmetry tags are present exactly
   * when their thresholds are crossed.
   */
  function MoodTags(mr: real, mg: real, mb: real, sat: real, ws: real, avgSym: real): (r: seq<Mood>)
    ensures |r| >= 1
    ensures Minimalist in r <==> ws > 70.0
    ensures Dense in r <==> ws < 30.0
    ensures Balanced in r <==> avgSym > 0.8
    ensures Professional in r <==> avgSym > 0.8
    ensures Dynamic in r <==> avgSym < 0.5
    ensures Creative in r <==> avgSym < 0.5
    ensures Muted in r <==> sat < 0.3
    ensures Energetic in r <==> RedDominant(mr, mg, mb) && sat > 0.5
    ensures Warm in r <==> RedDominant(mr, mg, mb) && sat <= 0.5
    ensures Calm in r <==> BlueDominant(mr, mg, mb) && sat <= 0.5
    ensures Neutral in r <==> !RedDominant(mr, mg, mb) && !BlueDominant(mr, mg, mb)
    ensures ws <= 70.0 ==> (Vibrant in r <==> (BlueDominant(mr, mg, mb) && sat > 0.5) || sat > 0.7)
  {
    var first := ColourMoods(mr, mg, mb, sat);
    var spaced := WhitespaceMoods(first, ws);
    var sym := SymmetryMoods(avgSym);
    JoinedTags(first, ws, avgSym);
    JoinedSymmetry(first, ws, avgSym);
    JoinedColours(first, ws, avgSym);
    spaced + sym
  }

  /** Appending the symmetry tags keeps the whitespace tags as the whitespace rule left them. */
  lemma JoinedTags(first: seq<Mood>, ws: real, avgSym: real)
    requires |first| >= 1 && forall t :: t in first ==> ColourMood(t)
    ensures var r := WhitespaceMoods(first, ws) + SymmetryMoods(avgSym);
      && |r| >= 1
      && (Minimalist in r <==> ws > 70.0)
      && (Dense in r <==> ws < 30.0)
  {
    SymmetryOnly(avgSym);
  }

  /** The symmetry tags in the joined list are those the symmetry rule adds. */
  lemma JoinedSymmetry(first: seq<Mood>, ws: real, avgSym: real)
    requires |first| >= 1 && forall t :: t in first ==> ColourMood(t)
    ensures var r := WhitespaceMoods(first, ws) + SymmetryMoods(avgSym);
      && (Balanced in r <==> avgSym > 0.8)
      && (Professional in r <==> avgSym > 0.8)
      && (Dynamic in r <==> avgSym < 0.5)
      && (Creative in r <==> avgSym < 0.5)
  {
    var spaced := WhitespaceMoods(first, ws);
    assert !ColourMood(Balanced) && !ColourMood(Professional);
    assert !ColourMood(Dynamic) && !ColourMood(Creative);
    assert Balanced !in spaced && Professional !in spaced && Dynamic !in spaced && Creative !in spaced;
  }

  /** Appending the symmetry tags keeps the colour tags the first rules left. */
  lemma JoinedColours(first: seq<Mood>, ws: real, avgSym: real)
    requires |first| >= 1 && forall t :: t in first ==> ColourMood(t)
    ensures var r := WhitespaceMoods(first, ws) + SymmetryMoods(avgSym);
      && (forall t :: ColourMood(t) && t != Vibrant ==> (t in r <==> t in first))
      && (ws <= 70.0 ==> (Vibrant in r <==> Vibrant in first))
  {
    var spaced := WhitespaceMoods(first, ws);
    var sym := SymmetryMoods(avgSym);
    WhitespaceKeepsColours(first, ws);
    SymmetryNotColour(avgSym);
    forall t | ColourMood(t)
      ensures t in spaced + sym <==> t in spaced
    {
    }
  }

  /**
   * "minimalist" removes only one "vibrant": above 70% whitespace "vibrant"
   * survives exactly when the picture is blue-dominant and saturated above
   * 0.7, so that both vibrant rules fired.
   */
  lemma VibrantBesideMinimalist(mr: real, mg: real, mb: real, sat: real, ws: real, avgSym: real)
    requires ws > 70.0
    ensures Vibrant in MoodTags(mr, mg, mb, sat, ws, avgSym) <==> (mb > mr && mb > mg && sat > 0.7)
    ensures Minimalist in MoodTags(mr, mg, mb, sat, ws, avgSym)
  {
    SpacedTags(mr, mg, mb, sat, ws, avgSym);
    VibrantKept(mr, mg, mb, sat);
    SymmetryNotColour(avgSym);
  }

  /** The symmetry rule adds only symmetry tags. */
  lemma SymmetryOnly(avgSym: real)
    ensures forall t :: t in SymmetryMoods(avgSym) ==> t.Balanced? || t.Professional? || t.Dynamic? || t.Creative?
  {
    if avgSym > 0.8 {
      assert SymmetryMoods(avgSym) == [Balanced, Professional];
    } else if avgSym < 0.5 {
      assert SymmetryMoods(avgSym) == [Dynamic, Creative];
    }
  }

  /** The symmetry rule adds no colour tag. */
  lemma SymmetryNotColour(avgSym: real)
    ensures forall t :: t in SymmetryMoods(avgSym) ==> !ColourMood(t)
  {
  }

  /** Above 70% whitespace the tags are the minimalist branch followed by the symmetry tags. */
  lemma SpacedTags(mr: real, mg: real, mb: real, sat: real, ws: real, avgSym: real)
    requires ws > 70.0
    ensures MoodTags(mr, mg, mb, sat, ws, avgSym)
      == DropVibrant(ColourMoods(mr, mg, mb, sat) + [Minimalist]) + SymmetryMoods(avgSym)
  {
  }

  /** The minimalist branch keeps a "vibrant" exactly when both vibrant rules fired. */
  lemma VibrantKept(mr: real, mg: real, mb: real, sat: real)
    ensures Vibrant in DropVibrant(ColourMoods(mr, mg, mb, sat) + [Minimalist])
      <==> (mb > mr && mb > mg && sat > 0.7)
  {
    if mb > mr && mb > mg && sat > 0.7 {
      assert ColourMoods(mr, mg, mb, sat) == [Vibrant] + [Vibrant];
      TwoVibrants();
    } else {
      VibrantAtMostOnce(ColourMoods(mr, mg, mb, sat), mr, mg, mb, sat);
    }
  }

  /** Both vibrant rules fired: one copy survives the removal. */
  lemma TwoVibrants()
    ensures Vibrant in DropVibrant([Vibrant] + [Vibrant] + [Minimalist])
  {
    var both := [Vibrant] + [Vibrant] + [Minimalist];
    assert both == [Vibrant, Vibrant, Minimalist];
    assert multiset(both)[Vibrant] == 2;
    assert Vibrant in multiset(DropVibrant(both));
  }

  /** At most one vibrant rule fired: the removal leaves none. */
  lemma VibrantAtMostOnce(first: seq<Mood>, mr: real, mg: real, mb: real, sat: real)
    requires first == ColourMoods(mr, mg, mb, sat)
    requires !(mb > mr && mb > mg && sat > 0.7)
    ensures Vibrant !in DropVibrant(first + [Minimalist])
  {
    var both := first + [Minimalist];
    var tail := if sat > 0.7 then [Vibrant] else if sat < 0.3 then [Muted] else [];
    assert both == [ChannelMood(mr, mg, mb, sat)] + tail + [Minimalist];
    assert ChannelMood(mr, mg, mb, sat) == Vibrant ==> tail == [];
    assert multiset(both)[Vibrant] <= 1;
    assert multiset(DropVibrant(both))[Vibrant] == 0;
  }

  // ---------------------------------------------------------------------------
  // Serialisation
  // ---------------------------------------------------------------------------

  /** `", ".join(set(tags)) if tags else fallback`, one copy of each tag in first-seen order. */
  function Serialise(tags: seq<string>, fallback: string): string
  {
    if |tags| == 0 then fallback else Join(Dedup(tags), ", ")
  }

  predicate PlainTag(t: string) {
    HasNo(t, ',') && IsStripped(t)
  }

  predicate PlainTags(tags: seq<string>) {
    forall i :: 0 <= i < |tags| ==> PlainTag(tags[i])
  }

  /**
   * Splitting a serialised non-empty tag list at commas and stripping the
   * parts recovers each tag once.
   */
  lemma SerialiseRoundTrip(tags: seq<string>, fallback: string)
    requires |tags| >= 1 && PlainTags(tags)
    ensures StripAll(Split(Serialise(tags, fallback), ',')) == Dedup(tags)
    ensures forall t :: t in StripAll(Split(Serialise(tags, fallback), ',')) <==> t in tags
  {
    var d := Dedup(tags);
    forall i | 0 <= i < |d|
      ensures HasNo(d[i], ',') && IsStripped(d[i])
    {
      assert d[i] in tags;
    }
    SplitStripInvertsJoin(d);
  }

  /** A serialised list holding some tag other than `word` is not `word` itself. */
  lemma SerialisedIsNot(tags: seq<string>, fallback: string, word: string, k: nat)
    requires k < |tags| && PlainTags(tags) && PlainTag(word) && tags[k] != word
    ensures Serialise(tags, fallback) != word
  {
    PlainWordParses(word);
    assert tags[k] in Dedup(tags);
    SerialiseParses(tags, fallback);
  }

  /** A plain tag read back on its own is the one-element list of itself. */
  lemma PlainWordParses(word: string)
    requires PlainTag(word)
    ensures StripAll(Split(word, ',')) == [word]
  {
    SplitWhole(word, ',');
    StripStripped(word);
  }

  /** The first half of the round trip, without the membership corollary. */
  lemma SerialiseParses(tags: seq<string>, fallback: string)
    requires |tags| >= 1 && PlainTags(tags)
    ensures StripAll(Split(Serialise(tags, fallback), ',')) == Dedup(tags)
  {
    SerialiseRoundTrip(tags, fallback);
  }

  function StyleNames(r: seq<Style>): (names: seq<string>)
    ensures |names| == |r|
    ensures forall i :: 0 <= i < |r| ==> names[i] == StyleName(r[i])
  {
    seq(|r|, i requires 0 <= i < |r| => StyleName(r[i]))
  }

  function MoodNames(r: seq<Mood>): (names: seq<string>)
    ensures |names| == |r|
    ensures forall i :: 0 <= i < |r| ==> names[i] == MoodName(r[i])
  {
    seq(|r|, i requires 0 <= i < |r| => MoodName(r[i]))
  }

  /** Style names are plain words, distinct from the two placeholder strings. */
  lemma StyleNamesPlain(r: seq<Style>)
    ensures PlainTags(StyleNames(r))
    ensures "sans-serif" !in StyleNames(r) && "unknown" !in StyleNames(r)
  {
    forall i | 0 <= i < |r|
      ensures PlainTag(StyleName(r[i]))
      ensures StyleName(r[i]) != "sans-serif" && StyleName(r[i]) != "unknown"
    {
    }
  }

  lemma MoodNamesPlain(r: seq<Mood>)
    ensures PlainTags(MoodNames(r))
  {
    forall i | 0 <= i < |r|
      ensures PlainTag(MoodName(r[i]))
    {
      MoodNamePlain(r[i]);
    }
  }

  lemma MoodNamePlain(m: Mood)
    ensures PlainTag(MoodName(m))
  {
    match m
    case Energetic =>
    case Warm =>
    case Vibrant =>
    case Calm =>
    case Neutral =>
    case Muted =>
    case Minimalist =>
    case Dense =>
    case Balanced =>
    case Professional =>
    case Dynamic =>
    case Creative =>
  }

  /** `typography_inference`. */
  function TypographyInference(ws: real, hsym: real, vsym: real, sat: real): string
  {
    Serialise(StyleNames(TypographyStyles(ws, hsym, vsym, sat)), "sans-serif")
  }

  /**
   * The typography string is "sans-serif" exactly when no typography rule
   * fired, and it is never the "unknown" placeholder.
   */
  lemma SansSerifIffNoStyle(ws: real, hsym: real, vsym: real, sat: real)
    ensures TypographyInference(ws, hsym, vsym, sat) == "sans-serif"
            <==> |TypographyStyles(ws, hsym, vsym, sat)| == 0
    ensures TypographyInference(ws, hsym, vsym, sat) != "unknown"
  {
    SansSerifIffEmpty(TypographyStyles(ws, hsym, vsym, sat));
  }

  lemma SansSerifIffEmpty(styles: seq<Style>)
    ensures Serialise(StyleNames(styles), "sans-serif") == "sans-serif" <==> |styles| == 0
    ensures Serialise(StyleNames(styles), "sans-serif") != "unknown"
  {
    if |styles| > 0 {
      PlaceholdersPlain();
      StyleNamesPlain(styles);
      NamedStylesAreNot(styles, "sans-serif", "sans-serif");
      NamedStylesAreNot(styles, "sans-serif", "unknown");
    }
  }

  lemma PlaceholdersPlain()
    ensures PlainTag("sans-serif") && PlainTag("unknown")
  {
  }

  /** A non-empty list of style names never serialises to a plain word it does not hold. */
  lemma NamedStylesAreNot(styles: seq<Style>, fallback: string, word: string)
    requires |styles| > 0 && PlainTag(word) && word !in StyleNames(styles)
    ensures Serialise(StyleNames(styles), fallback) != word
  {
    StyleNamesPlain(styles);
    SerialisedIsNot(StyleNames(styles), fallback, word, 0);
  }

  /** `mood_emotion`; the list is never empty, so the fallback is never used. */
  function MoodEmotion(mr: real, mg: real, mb: real, sat: real, ws: real, avgSym: real): string
  {
    Serialise(MoodNames(MoodTags(mr, mg, mb, sat, ws, avgSym)), "neutral")
  }

  // ---------------------------------------------------------------------------
  // Simulated aesthetic score
  // ---------------------------------------------------------------------------

  /**
   * `get_aesthetic_score_from_gemini` as the source runs it: no request is
   * made; the score is 5 unless the encoded image text names one of four
   * test pictures, checked in this order.
   */
  function SimulatedAesthetic(encoded: string): (score: int)
    ensures score == 5 || score == 7 || score == 8 || score == 9
    ensures score != 5 ==> exists k :: 0 <= k < |encoded| && encoded[k] == '.'
  {
    if Contains(encoded, "test_calm.png") then NamesHaveDot(encoded, "test_calm.png", 9); 8
    else if Contains(encoded, "test_vibrant.png") then NamesHaveDot(encoded, "test_vibrant.png", 12); 7
    else if Contains(encoded, "test_creative.png") then NamesHaveDot(encoded, "test_creative.png", 13); 7
    else if Contains(encoded, "test_golden.png") then NamesHaveDot(encoded, "test_golden.png", 11); 9
    else 5
  }

  /** A character of the standard base64 alphabet, padding included. */
  predicate Base64Char(c: char) {
    ('A' <= c <= 'Z') || ('a' <= c <= 'z') || ('0' <= c <= '9') || c == '+' || c == '/' || c == '='
  }

  /**
   * The text `base64.b64encode(...).decode()` yields has no '.', so none of
   * the four file names can occur in it and the simulated score is always 5.
   */
  lemma Base64ScoresFive(encoded: string)
    requires forall k :: 0 <= k < |encoded| ==> Base64Char(encoded[k])
    ensures SimulatedAesthetic(encoded) == 5
  {
  }

  /** Text that contains a name with a '.' at position `dot` contains a '.'. */
  lemma NamesHaveDot(s: string, name: string, dot: nat)
    requires dot < |name| && name[dot] == '.'
    requires Contains(s, name)
    ensures exists k :: 0 <= k < |s| && s[k] == '.'
  {
    FoundAt(s, name);
    var i: nat :| OccursAt(s, name, i);
    assert s[i + dot] == s[i..i + |name|][dot];
  }

  /** `sub` occurs in `s` starting at offset `i`. */
  predicate OccursAt(s: string, sub: string, i: nat) {
    i + |sub| <= |s| && s[i..i + |sub|] == sub
  }

  /** `sub in s` means `sub` occurs at some offset. */
  lemma {:induction false} FoundAt(s: string, sub: string)
    requires Contains(s, sub)
    ensures exists i: nat :: OccursAt(s, sub, i)
    decreases |s|
  {
    if StartsWith(s, sub) {
      assert OccursAt(s, sub, 0);
    } else {
      FoundAt(s[1..], sub);
      var i: nat :| OccursAt(s[1..], sub, i);
      assert s[i + 1..i + 1 + |sub|] == s[1..][i..i + |sub|];
      assert OccursAt(s, sub, i + 1);
    }
  }

  // ---------------------------------------------------------------------------
  // The analysis record
  // ---------------------------------------------------------------------------

  /** The fields of one analysis result; `None` is Python's `None`. */
  datatype Analysis = Analysis(
    horizontal: Option<real>,
    vertical: Option<real>,
    whitespace: Option<real>,
    aspectRatio: Option<real>,
    goldenMatch: bool,
    fractal: Option<real>,
    entropy: Option<real>,
    balance: Option<real>,
    typography: string,
    mood: string,
    aesthetic: Option<real>)

  /** The result returned when the picture cannot be opened or decoded. */
  const Defaults: Analysis :=
    Analysis(None, None, None, None, false, None, None, None, "unknown", "neutral", None)

  /** The measurements computed outside this model. */
  datatype Measures = Measures(fractal: real, entropy: real, balance: real, aesthetic: real)

  /**
   * `analyze_image` on an opened picture, or on one that failed to open
   * (`None`) or decode into a rectangular array.
   */
  function Analyze(image: Option<Image>, m: Measures): (a: Analysis)
    ensures (image.None? || !Decoded(image.value)) ==> a == Defaults
    ensures image.Some? && Decoded(image.value) ==>
      && a.horizontal.Some? && 0.0 <= a.horizontal.value <= 1.0
      && a.vertical.Some? && 0.0 <= a.vertical.value <= 1.0
      && a.whitespace.Some? && 0.0 <= a.whitespace.value <= 100.0
      && a.aspectRatio.Some?
      && a.fractal == Some(Round3(m.fractal))
      && a.entropy == Some(Round3(m.entropy))
      && a.balance == Some(Round3(m.balance))
      && a.aesthetic == Some(m.aesthetic)
      && a.typography != "unknown"
  {
    if image.None? || !Decoded(image.value) then Defaults
    else
      var g, px := image.value.gray, image.value.rgb;
      var ws := WhitespacePercentage(g);
      var hsym, vsym := HorizontalSymmetry(g), VerticalSymmetry(g);
      var sat := MeanSaturation(px);
      var typography := TypographyInference(ws, hsym, vsym, sat);
      SansSerifIffNoStyle(ws, hsym, vsym, sat);
      Analysis(
        Some(hsym), Some(vsym), Some(ws),
        Some(AspectRatio(Width(g), |g|)), GoldenAspectMatch(Width(g), |g|),
        Some(Round3(m.fractal)), Some(Round3(m.entropy)), Some(Round3(m.balance)),
        typography,
        MoodEmotion(ChannelMean(px, 0), ChannelMean(px, 1), ChannelMean(px, 2), sat,
                    ws, (hsym + vsym) / 2.0),
        Some(m.aesthetic))
  }
}
