/**
 * Colour primitives of core/palette_extractor.py: 8-bit RGB triples, the
 * hex codec, Python's `colorsys` HLS conversions, WCAG 2.0 relative
 * luminance, contrast ratio and the compliance tiers of WCAG 2.0 success
 * criteria 1.4.3 (minimum) and 1.4.6 (enhanced).
 */
module Color {
  import opened Wrappers
  import opened Numeric
  import T = Text

  /** An RGB triple as the engine passes it around (Python ints). */
  datatype Rgb = Rgb(r: int, g: int, b: int)

  /** Every channel is an 8-bit value. */
  predicate Valid(c: Rgb) {
    0 <= c.r <= 255 && 0 <= c.g <= 255 && 0 <= c.b <= 255
  }

  const White := Rgb(255, 255, 255)
  const LightGray := Rgb(204, 204, 204)
  const Black := Rgb(0, 0, 0)

  // ---------------------------------------------------------------- hex codec

  function HexDigit(d: nat): (c: char)
    requires d < 16
  {
    "0123456789abcdef"[d]
  }

  /** The value of a hexadecimal digit of either case, if `c` is one. */
  function HexValue(c: char): (v: Option<nat>)
    ensures v.Some? ==> v.value < 16
  {
    if '0' <= c <= '9' then Some(c as int - '0' as int)
    else if 'a' <= c <= 'f' then Some(c as int - 'a' as int + 10)
    else if 'A' <= c <= 'F' then Some(c as int - 'A' as int + 10)
    else None
  }

  lemma HexDigitValue(d: nat)
    requires d < 16
    ensures HexValue(HexDigit(d)) == Some(d)
  {
  }

  /** Python's `format(n, 'x')` for a natural number. */
  function HexOf(n: nat): (s: string)
    ensures |s| >= 1
  {
    if n < 16 then [HexDigit(n)] else HexOf(n / 16) + [HexDigit(n % 16)]
  }

  /** Python's `format(n, '02x')`: lower-case hex, zero-padded to width two. */
  function Hex02(n: int): (s: string)
  {
    if n < 0 then "-" + HexOf(-n)
    else if n < 16 then ['0', HexDigit(n)]
    else HexOf(n)
  }

  /** `rgb_to_hex`: "#" followed by each channel as `:02x`. */
  function RgbToHex(c: Rgb): (s: string)
    ensures Valid(c) ==> |s| == 7 && s[0] == '#'
    ensures Valid(c) ==> forall i :: 1 <= i < 7 ==> s[i] in "0123456789abcdef"
  {
    if Valid(c) then
      Hex02Byte(c.r);
      Hex02Byte(c.g);
      Hex02Byte(c.b);
      "#" + Hex02(c.r) + Hex02(c.g) + Hex02(c.b)
    else
      "#" + Hex02(c.r) + Hex02(c.g) + Hex02(c.b)
  }

  /** An 8-bit value renders as exactly its two hex digits, high one first. */
  lemma Hex02Byte(n: int)
    requires 0 <= n <= 255
    ensures Hex02(n) == [HexDigit(n / 16), HexDigit(n % 16)]
  {
    if n < 16 {
      assert HexDigit(0) == '0';
    } else {
      assert HexOf(n / 16) == [HexDigit(n / 16)];
    }
  }

  /** `hex_color.lstrip('#')`: every leading '#' goes. */
  function StripHashes(s: string): (r: string)
    ensures |r| <= |s|
    ensures |r| == 0 || r[0] != '#'
  {
    if |s| > 0 && s[0] == '#' then StripHashes(s[1..]) else s
  }

  /** What `lstrip('#')` keeps is a suffix of its argument. */
  lemma {:induction false} StripHashesSuffix(s: string)
    ensures StripHashes(s) == s[|s| - |StripHashes(s)|..]
  {
    if |s| > 0 && s[0] == '#' {
      StripHashesSuffix(s[1..]);
    }
  }

  /** Python's slice `s[i:j]` for 0 <= i <= j, clamped to the string. */
  function Slice(s: string, i: nat, j: nat): (r: string)
    requires i <= j
    ensures |r| <= j - i
  {
    if j <= |s| then s[i..j] else if i <= |s| then s[i..] else ""
  }

  /**
   * `int(t, 16)` on a slice of at most two characters. Python skips
   * whitespace around the number and accepts a leading sign, so what is
   * left must be one hex digit, two hex digits, or a sign and one digit.
   */
  function ParseHexByte(t: string): (v: Option<int>)
    ensures v.Some? ==> -15 <= v.value <= 255
  {
    var u := T.Strip(t);
    if |u| == 1 then
      match HexValue(u[0])
      case Some(d) => Some(d)
      case None => None
    else if |u| == 2 then
      match (HexValue(u[0]), HexValue(u[1]))
      case (Some(hi), Some(lo)) => Some(16 * hi + lo)
      case (None, Some(d)) => if u[0] == '+' then Some(d) else if u[0] == '-' then Some(-(d as int)) else None
      case _ => None
    else None
  }

  /** Text made only of '#' and hexadecimal digits. */
  predicate PlainHex(s: string) {
    forall i :: 0 <= i < |s| ==> s[i] == '#' || HexValue(s[i]).Some?
  }

  /**
   * `hex_to_rgb`: strip leading '#', read the slices [0:2], [2:4], [4:6]
   * base 16. A slice that `int` rejects makes it raise, which is a failure
   * here. A signed slice decodes to a negative channel, so only text made
   * of hex digits is sure to give an 8-bit colour.
   */
  function HexToRgb(s: string): (r: Result<Rgb, string>)
    ensures r.Success? ==> -15 <= r.value.r <= 255 && -15 <= r.value.g <= 255 && -15 <= r.value.b <= 255
    ensures r.Success? && PlainHex(s) ==> Valid(r.value)
    ensures r.Failure? <==> (ParseHexByte(Slice(StripHashes(s), 0, 2)).None?
                             || ParseHexByte(Slice(StripHashes(s), 2, 4)).None?
                             || ParseHexByte(Slice(StripHashes(s), 4, 6)).None?)
    ensures |StripHashes(s)| <= 4 ==> r.Failure?
  {
    var t := StripHashes(s);
    assert |t| <= 4 ==> Slice(t, 4, 6) == "";
    StripHashesSuffix(s);
    assert PlainHex(s) ==> PlainHex(t);
    PlainSlice(t, 0, 2);
    PlainSlice(t, 2, 4);
    PlainSlice(t, 4, 6);
    match (ParseHexByte(Slice(t, 0, 2)), ParseHexByte(Slice(t, 2, 4)), ParseHexByte(Slice(t, 4, 6)))
    case (Some(r), Some(g), Some(b)) => Success(Rgb(r, g, b))
    case _ => Failure("invalid literal for int() with base 16")
  }

  /** A slice `int` cannot read makes the decode fail: "#zz0000" is an error. */
  lemma NonHexFails()
    ensures HexToRgb(['#', 'z', 'z', '0', '0', '0', '0']).Failure?
  {
    var s := ['#', 'z', 'z', '0', '0', '0', '0'];
    var t := StripHashes(s);
    assert t == s[1..] by {
      assert s[1..][0] == 'z';
    }
    assert Slice(t, 0, 2) == ['z', 'z'];
    Unreadable('z', 'z');
  }

  /** Two characters that are neither hex digits, blanks nor signs are no number. */
  lemma Unreadable(a: char, b: char)
    requires HexValue(a).None? && HexValue(b).None?
    requires !T.IsSpace(a) && !T.IsSpace(b) && a != '+' && a != '-'
    ensures ParseHexByte([a, b]).None?
  {
    T.StripStripped([a, b]);
  }

  /** A slice of hex digits has no sign and no blank, so it reads as a non-negative value. */
  lemma PlainSlice(t: string, i: nat, j: nat)
    requires i <= j <= i + 2
    ensures PlainHex(t) && ParseHexByte(Slice(t, i, j)).Some? ==> ParseHexByte(Slice(t, i, j)).value >= 0
  {
    var u := Slice(t, i, j);
    if PlainHex(t) && |u| > 0 {
      forall k | 0 <= k < |u|
        ensures u[k] == '#' || HexValue(u[k]).Some?
      {
        assert i + k < |t| && u[k] == t[i + k];
      }
      assert T.IsStripped(u);
      T.StripStripped(u);
    }
  }

  /** "#" and three pairs decode to what the pairs parse to, when each parses. */
  lemma PairsDecode(p: char, r: char, g: char, b: char)
    requires p != '#'
    requires ParseHexByte([p, r]).Some? && ParseHexByte([p, g]).Some? && ParseHexByte([p, b]).Some?
    ensures HexToRgb(['#', p, r, p, g, p, b])
         == Success(Rgb(ParseHexByte([p, r]).value, ParseHexByte([p, g]).value, ParseHexByte([p, b]).value))
  {
    PairsAfterHash(p, r, g, b);
    DecodesTo(['#', p, r, p, g, p, b], [p, r], [p, g], [p, b]);
  }

  /** Blanks inside a slice are skipped as `int` skips them: "# 1 2 3" decodes to (1, 2, 3). */
  lemma SpacedSlices(r: char, g: char, b: char)
    requires HexValue(r).Some? && HexValue(g).Some? && HexValue(b).Some?
    ensures HexToRgb(['#', ' ', r, ' ', g, ' ', b])
         == Success(Rgb(HexValue(r).value as int, HexValue(g).value as int, HexValue(b).value as int))
  {
    SpacedDigit(r);
    SpacedDigit(g);
    SpacedDigit(b);
    PairsDecode(' ', r, g, b);
  }

  /** A minus sign inside a slice negates it, as `int` reads it: "#-1-1-1" decodes to (-1, -1, -1). */
  lemma SignedSlices()
    ensures HexToRgb(['#', '-', '1', '-', '1', '-', '1']) == Success(Rgb(-1, -1, -1))
  {
    NegatedDigit('1');
    PairsDecode('-', '1', '1', '1');
  }

  /** The slices of "#" followed by three pairs `p r`, `p g`, `p b` are those pairs. */
  lemma PairsAfterHash(p: char, r: char, g: char, b: char)
    requires p != '#'
    ensures var t := StripHashes(['#', p, r, p, g, p, b]);
      Slice(t, 0, 2) == [p, r] && Slice(t, 2, 4) == [p, g] && Slice(t, 4, 6) == [p, b]
  {
    var s := ['#', p, r, p, g, p, b];
    assert StripHashes(s[1..]) == s[1..];
    assert s[1..3] == [p, r] && s[3..5] == [p, g] && s[5..7] == [p, b];
  }

  /** `int(" d", 16)` is the digit's value. */
  lemma SpacedDigit(c: char)
    requires HexValue(c).Some?
    ensures ParseHexByte([' ', c]) == Some(HexValue(c).value as int)
  {
    T.StripLeadingSpace([c]);
    assert " " + [c] == [' ', c];
  }

  /** `int("-d", 16)` is the negated value of the digit. */
  lemma NegatedDigit(c: char)
    requires HexValue(c).Some?
    ensures ParseHexByte(['-', c]) == Some(-(HexValue(c).value as int))
  {
    T.StripStripped(['-', c]);
  }

  /** Decoding an encoded 8-bit colour gives the colour back. */
  lemma HexRoundTrip(c: Rgb)
    requires Valid(c)
    ensures HexToRgb(RgbToHex(c)) == Success(c)
  {
    EncodedSlices(c);
    ByteRoundTrip(c.r);
    ByteRoundTrip(c.g);
    ByteRoundTrip(c.b);
    DecodesTo(RgbToHex(c), Hex02(c.r), Hex02(c.g), Hex02(c.b));
  }

  /** `hex_to_rgb` succeeds with the three values its slices parse to. */
  lemma DecodesTo(s: string, x: string, y: string, z: string)
    requires Slice(StripHashes(s), 0, 2) == x && Slice(StripHashes(s), 2, 4) == y && Slice(StripHashes(s), 4, 6) == z
    requires ParseHexByte(x).Some? && ParseHexByte(y).Some? && ParseHexByte(z).Some?
    ensures HexToRgb(s) == Success(Rgb(ParseHexByte(x).value, ParseHexByte(y).value, ParseHexByte(z).value))
  {
  }

  /** The slices `hex_to_rgb` reads from `rgb_to_hex`'s text are the channels' two digits. */
  lemma EncodedSlices(c: Rgb)
    requires Valid(c)
    ensures Slice(StripHashes(RgbToHex(c)), 0, 2) == Hex02(c.r)
    ensures Slice(StripHashes(RgbToHex(c)), 2, 4) == Hex02(c.g)
    ensures Slice(StripHashes(RgbToHex(c)), 4, 6) == Hex02(c.b)
  {
    var x, y, z := Hex02(c.r), Hex02(c.g), Hex02(c.b);
    Hex02Byte(c.r);
    Hex02Byte(c.g);
    Hex02Byte(c.b);
    var t := x + y + z;
    assert RgbToHex(c) == "#" + t;
    assert ("#" + t)[1..] == t;
    assert StripHashes(t) == t by {
      assert t[0] == HexDigit(c.r / 16);
    }
    assert StripHashes("#" + t) == t;
    assert Slice(t, 0, 2) == x;
    assert Slice(t, 2, 4) == y;
    assert Slice(t, 4, 6) == z;
  }

  lemma ByteRoundTrip(n: int)
    requires 0 <= n <= 255
    ensures ParseHexByte(Hex02(n)) == Some(n)
  {
    Hex02Byte(n);
    HexDigitValue(n / 16);
    HexDigitValue(n % 16);
    assert T.IsStripped(Hex02(n));
    T.StripStripped(Hex02(n));
  }

  // ------------------------------------------------------------ colorsys HLS

  /** A colour with channels as fractions (the arguments and results of `colorsys`). */
  datatype Unit = Unit(r: real, g: real, b: real)

  predicate InUnit(u: Unit) {
    0.0 <= u.r <= 1.0 && 0.0 <= u.g <= 1.0 && 0.0 <= u.b <= 1.0
  }

  /** Hue, lightness and saturation, each a fraction. */
  datatype Hls = Hls(h: real, l: real, s: real)

  /** `(c[0]/255, c[1]/255, c[2]/255)`. */
  function ToUnit(c: Rgb): (u: Unit)
    ensures Valid(c) ==> InUnit(u)
  {
    Unit(c.r as real / 255.0, c.g as real / 255.0, c.b as real / 255.0)
  }

  /** `tuple(int(x * 255) for x in u)`. */
  function FromUnit(u: Unit): (c: Rgb)
    ensures InUnit(u) ==> Valid(c)
  {
    Rgb(Trunc(u.r * 255.0), Trunc(u.g * 255.0), Trunc(u.b * 255.0))
  }

  /** Python's `x % 1.0`. */
  function Frac(x: real): (r: real)
    ensures 0.0 <= r < 1.0
  {
    x - x.Floor as real
  }

  /** `colorsys.rgb_to_hls`, on a colour whose channels are fractions. */
  function RgbToHls(u: Unit): (c: Hls)
    requires InUnit(u)
    ensures 0.0 <= c.h < 1.0 && 0.0 <= c.l <= 1.0 && 0.0 <= c.s <= 1.0
  {
    var maxc := Max(u.r, Max(u.g, u.b));
    var minc := Min(u.r, Min(u.g, u.b));
    var l := (maxc + minc) / 2.0;
    if minc == maxc then Hls(0.0, l, 0.0)
    else
      var rangec := maxc - minc;
      var rc := (maxc - u.r) / rangec;
      var gc := (maxc - u.g) / rangec;
      var bc := (maxc - u.b) / rangec;
      var h := if u.r == maxc then bc - gc
               else if u.g == maxc then 2.0 + rc - bc
               else 4.0 + gc - rc;
      Hls(Frac(h / 6.0), l, Saturation(maxc, minc))
  }

  /** The saturation branch of `rgb_to_hls`: a fraction, with a non-zero divisor either way. */
  function Saturation(maxc: real, minc: real): (s: real)
    requires 0.0 <= minc < maxc <= 1.0
    ensures 0.0 <= s <= 1.0
  {
    if (maxc + minc) / 2.0 <= 0.5 then
      FractionAtMostOne(maxc - minc, maxc + minc);
      (maxc - minc) / (maxc + minc)
    else
      FractionAtMostOne(maxc - minc, 2.0 - maxc - minc);
      (maxc - minc) / (2.0 - maxc - minc)
  }

  lemma FractionAtMostOne(a: real, b: real)
    requires 0.0 <= a <= b && b > 0.0
    ensures 0.0 <= a / b <= 1.0
  {
  }

  /** Helper `_v` of `colorsys.hls_to_rgb`. */
  function HueChannel(m1: real, m2: real, hue: real): (v: real)
    ensures 0.0 <= m1 <= m2 <= 1.0 ==> m1 <= v <= m2
  {
    var t := Frac(hue);
    if t < 1.0 / 6.0 then Lerp(m1, m2, t * 6.0)
    else if t < 0.5 then m2
    else if t < 2.0 / 3.0 then Lerp(m1, m2, (2.0 / 3.0 - t) * 6.0)
    else m1
  }

  /** `m1 + (m2 - m1) * f`, a point between the two levels when f is a fraction. */
  function Lerp(m1: real, m2: real, f: real): (v: real)
    ensures m1 <= m2 && 0.0 <= f <= 1.0 ==> m1 <= v <= m2
  {
    MulFraction2(m2 - m1, f);
    m1 + (m2 - m1) * f
  }

  lemma MulFraction2(x: real, f: real)
    ensures 0.0 <= x && 0.0 <= f <= 1.0 ==> 0.0 <= x * f <= x
  {
    if 0.0 <= x && 0.0 <= f <= 1.0 {
      MulFraction(x, f);
    }
  }

  /** The upper mixing level `m2` of `hls_to_rgb`. */
  function UpperLevel(l: real, s: real): real {
    if l <= 0.5 then l * (1.0 + s) else l + s - l * s
  }

  /** `colorsys.hls_to_rgb`: fractions in, fractions out. */
  function HlsToRgb(c: Hls): (u: Unit)
    requires 0.0 <= c.l <= 1.0 && 0.0 <= c.s <= 1.0
    ensures InUnit(u)
  {
    if c.s == 0.0 then Unit(c.l, c.l, c.l)
    else
      var m2 := UpperLevel(c.l, c.s);
      var m1 := 2.0 * c.l - m2;
      MixBounds(c.l, c.s);
      Unit(HueChannel(m1, m2, c.h + 1.0 / 3.0), HueChannel(m1, m2, c.h), HueChannel(m1, m2, c.h - 1.0 / 3.0))
  }

  /** The two mixing levels of `hls_to_rgb` are ordered fractions. */
  lemma MixBounds(l: real, s: real)
    requires 0.0 <= l <= 1.0 && 0.0 <= s <= 1.0
    ensures 0.0 <= 2.0 * l - UpperLevel(l, s) <= UpperLevel(l, s) <= 1.0
  {
    ProductFacts(l, s);
    MixLinear(l, s, l * s, UpperLevel(l, s));
  }

  /** The facts about the product `l * s` of two fractions that MixBounds needs. */
  lemma ProductFacts(l: real, s: real)
    requires 0.0 <= l <= 1.0 && 0.0 <= s <= 1.0
    ensures 0.0 <= l * s <= l && l * s <= s
    ensures s - l * s <= 1.0 - l
    ensures l * (1.0 + s) == l + l * s
  {
    MulFraction(l, s);
    MulFraction(s, l);
    ScaleLe(s, 1.0, 1.0 - l);
    assert (1.0 - l) * s == s - l * s;
  }

  /** MixBounds with the product `l * s` named `p`, so that only linear facts remain. */
  lemma MixLinear(l: real, s: real, p: real, upper: real)
    requires 0.0 <= l <= 1.0 && 0.0 <= s <= 1.0
    requires 0.0 <= p <= l && p <= s && s - p <= 1.0 - l
    requires upper == if l <= 0.5 then l + p else l + s - p
    ensures 0.0 <= 2.0 * l - upper <= upper <= 1.0
  {
  }

  lemma MulFraction(x: real, f: real)
    requires 0.0 <= x && 0.0 <= f <= 1.0
    ensures 0.0 <= x * f <= x
  {
    ScaleLe(0.0, f, x);
    ScaleLe(f, 1.0, x);
  }

  // ------------------------------------------------------ luminance & contrast

  /**
   * The power law `t ** 2.4` of the WCAG transfer function. It is
   * irrational, so the model takes it as a parameter and only relies on it
   * mapping [0,1] into [0,1].
   */
  type GammaCurve = f: real -> real | forall t :: 0.0 <= t <= 1.0 ==> 0.0 <= f(t) <= 1.0
    witness (t: real) => t

  /** One channel of `get_luminance`, linearised. */
  function Linearize(x: real, gamma: GammaCurve): (y: real)
    ensures 0.0 <= x <= 1.0 ==> 0.0 <= y <= 1.0
  {
    if x <= 0.03928 then x / 12.92 else gamma((x + 0.055) / 1.055)
  }

  /** `get_luminance`: relative luminance of WCAG 2.0. */
  function Luminance(c: Rgb, gamma: GammaCurve): (y: real)
    ensures Valid(c) ==> 0.0 <= y <= 1.0
  {
    var u := ToUnit(c);
    0.2126 * Linearize(u.r, gamma) + 0.7152 * Linearize(u.g, gamma) + 0.0722 * Linearize(u.b, gamma)
  }

  /** `get_contrast_ratio`: (lighter + 0.05) / (darker + 0.05). */
  function ContrastRatio(c1: Rgb, c2: Rgb, gamma: GammaCurve): (ratio: real)
    requires Valid(c1) && Valid(c2)
    ensures 1.0 <= ratio <= 21.0
    ensures Luminance(c1, gamma) == Luminance(c2, gamma) ==> ratio == 1.0
  {
    var l1 := Luminance(c1, gamma);
    var l2 := Luminance(c2, gamma);
    if l2 > l1 then RatioOf(l2, l1) else RatioOf(l1, l2)
  }

  /** The WCAG ratio of a lighter to a darker relative luminance. */
  function RatioOf(hi: real, lo: real): (q: real)
    requires 0.0 <= lo <= hi <= 1.0
    ensures 1.0 <= q <= 21.0
    ensures hi == lo ==> q == 1.0
  {
    RatioBounds(hi + 0.05, lo + 0.05);
    (hi + 0.05) / (lo + 0.05)
  }

  lemma RatioBounds(num: real, den: real)
    requires 0.05 <= den <= num <= 1.05
    ensures 1.0 <= num / den <= 21.0
  {
    DivLe(den, num, den);
    assert den / den == 1.0;
    DivLe(num, 21.0 * den, den);
    assert (21.0 * den) / den == 21.0;
  }

  /** The contrast ratio does not depend on the order of the two colours. */
  lemma ContrastSymmetric(c1: Rgb, c2: Rgb, gamma: GammaCurve)
    requires Valid(c1) && Valid(c2)
    ensures ContrastRatio(c1, c2, gamma) == ContrastRatio(c2, c1, gamma)
  {
  }

  /** `check_wcag_compliance`: the four tiers met by a contrast ratio. */
  datatype Compliance = Compliance(aaNormal: bool, aaLarge: bool, aaaNormal: bool, aaaLarge: bool)

  function CheckCompliance(ratio: real): (c: Compliance)
    ensures c.aaNormal <==> c.aaaLarge
    ensures c.aaaNormal ==> c.aaNormal
    ensures c.aaNormal ==> c.aaLarge
    ensures c.aaNormal <==> ratio >= 4.5
    ensures c.aaLarge <==> ratio >= 3.0
    ensures c.aaaNormal <==> ratio >= 7.0
  {
    Compliance(ratio >= 4.5, ratio >= 3.0, ratio >= 7.0, ratio >= 4.5)
  }
}
