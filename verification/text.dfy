/**
 * The string operations the engine performs on tag lists and names:
 * `str.split(',')`, `str.strip()`, `", ".join(...)`, `str.lower()`,
 * substring tests, first-occurrence de-duplication and `list.remove`.
 */
module Text {

  /**
   * The characters Python's `str.isspace()` accepts, which `str.strip()`
   * removes and `int()` skips around a number.
   */
  predicate IsSpace(c: char) {
    c == ' ' || c == '\t' || c == '\n' || c == '\r' || c == '\U{000B}' || c == '\U{000C}'
    || ('\U{001C}' <= c <= '\U{001F}') || c == '\U{0085}' || c == '\U{00A0}'
    || c == '\U{1680}' || ('\U{2000}' <= c <= '\U{200A}') || c == '\U{2028}' || c == '\U{2029}'
    || c == '\U{202F}' || c == '\U{205F}' || c == '\U{3000}'
  }

  function LStrip(s: string): (r: string)
    ensures |r| <= |s|
    ensures r == s[|s| - |r|..]
    ensures |r| > 0 ==> !IsSpace(r[0])
    ensures forall i :: 0 <= i < |s| - |r| ==> IsSpace(s[i])
  {
    if |s| > 0 && IsSpace(s[0]) then LStrip(s[1..]) else s
  }

  function RStrip(s: string): (r: string)
    ensures |r| <= |s|
    ensures r == s[..|r|]
    ensures |r| > 0 ==> !IsSpace(r[|r| - 1])
    ensures forall i :: |r| <= i < |s| ==> IsSpace(s[i])
  {
    if |s| > 0 && IsSpace(s[|s| - 1]) then RStrip(s[..|s| - 1]) else s
  }

  /**
   * Python's `s.strip()`: the result is a slice of `s` with only whitespace
   * cut away on either side, and neither end of it is whitespace.
   */
  function Strip(s: string): (r: string)
    ensures |r| <= |s|
    ensures |r| > 0 ==> !IsSpace(r[0]) && !IsSpace(r[|r| - 1])
    ensures exists i: nat :: TrimmedAt(s, r, i)
  {
    var l := LStrip(s);
    var r := RStrip(l);
    TrimBoth(s, l, r);
    r
  }

  /** Cutting whitespace off the front and then off the back leaves a trimmed slice. */
  lemma TrimBoth(s: string, l: string, r: string)
    requires |l| <= |s| && l == s[|s| - |l|..]
    requires forall k :: 0 <= k < |s| - |l| ==> IsSpace(s[k])
    requires |r| <= |l| && r == l[..|r|]
    requires forall k :: |r| <= k < |l| ==> IsSpace(l[k])
    ensures TrimmedAt(s, r, |s| - |l|)
  {
    var i := |s| - |l|;
    assert r == s[i..i + |r|];
    forall k | i + |r| <= k < |s|
      ensures IsSpace(s[k])
    {
      assert s[k] == l[k - i];
    }
  }

  /** `r` is `s` from offset `i` on with only whitespace around it. */
  predicate TrimmedAt(s: string, r: string, i: nat) {
    && i + |r| <= |s| && r == s[i..i + |r|]
    && (forall k :: 0 <= k < i ==> IsSpace(s[k]))
    && (forall k :: i + |r| <= k < |s| ==> IsSpace(s[k]))
  }

  /** A string with no whitespace at either end is its own strip. */
  predicate IsStripped(s: string) {
    |s| == 0 || (!IsSpace(s[0]) && !IsSpace(s[|s| - 1]))
  }

  lemma StripStripped(s: string)
    requires IsStripped(s)
    ensures Strip(s) == s
  {
  }

  lemma StripLeadingSpace(s: string)
    requires IsStripped(s)
    ensures Strip(" " + s) == s
  {
    assert (" " + s)[1..] == s;
  }

  /** Python's `s.split(sep)` for a one-character separator. */
  function Split(s: string, sep: char): (parts: seq<string>)
    ensures |parts| >= 1
  {
    if |s| == 0 then [""]
    else
      var rest := Split(s[1..], sep);
      if s[0] == sep then [""] + rest
      else [[s[0]] + rest[0]] + rest[1..]
  }

  /** Python's `sep.join(xs)`. */
  function Join(xs: seq<string>, sep: string): string
  {
    if |xs| == 0 then ""
    else if |xs| == 1 then xs[0]
    else xs[0] + sep + Join(xs[1..], sep)
  }

  predicate HasNo(s: string, c: char) {
    forall i :: 0 <= i < |s| ==> s[i] != c
  }

  /** Splitting at a separator that follows a separator-free prefix peels that prefix off. */
  lemma {:induction false} SplitAfterPrefix(a: string, rest: string, sep: char)
    requires HasNo(a, sep)
    ensures Split(a + [sep] + rest, sep) == [a] + Split(rest, sep)
  {
    if |a| == 0 {
      assert a + [sep] + rest == [sep] + rest;
      assert ([sep] + rest)[1..] == rest;
    } else {
      var s := a + [sep] + rest;
      assert s[1..] == a[1..] + [sep] + rest;
      SplitAfterPrefix(a[1..], rest, sep);
      assert [a[0]] + a[1..] == a;
    }
  }

  /** A separator-free string splits into itself alone. */
  lemma {:induction false} SplitWhole(a: string, sep: char)
    requires HasNo(a, sep)
    ensures Split(a, sep) == [a]
  {
    if |a| > 0 {
      SplitWhole(a[1..], sep);
      assert [a[0]] + a[1..] == a;
    }
  }

  /** Every part after the first carries the leading space of the `", "` separator. */
  function SpacedTail(xs: seq<string>): seq<string>
    requires |xs| >= 1
  {
    [xs[0]] + seq(|xs| - 1, i requires 0 <= i < |xs| - 1 => " " + xs[i + 1])
  }

  lemma {:induction false} SplitJoin(xs: seq<string>)
    requires |xs| >= 1
    requires forall i :: 0 <= i < |xs| ==> HasNo(xs[i], ',')
    ensures Split(Join(xs, ", "), ',') == SpacedTail(xs)
    decreases |xs|
  {
    if |xs| == 1 {
      SplitWhole(xs[0], ',');
    } else {
      var tail := xs[1..];
      var spaced := [" " + tail[0]] + tail[1..];
      assert HasNo(" " + tail[0], ',');
      assert Join(spaced, ", ") == " " + Join(tail, ", ") by {
        if |tail| == 1 {
        } else {
          assert spaced[1..] == tail[1..];
        }
      }
      SplitJoin(spaced);
      assert xs[0] + ", " + Join(tail, ", ") == xs[0] + [','] + Join(spaced, ", ");
      SplitAfterPrefix(xs[0], Join(spaced, ", "), ',');
      assert SpacedTail(spaced) == SpacedTail(tail)[0 := " " + tail[0]];
    }
  }

  function StripAll(xs: seq<string>): (r: seq<string>)
    ensures |r| == |xs|
    ensures forall i :: 0 <= i < |xs| ==> r[i] == Strip(xs[i])
  {
    seq(|xs|, i requires 0 <= i < |xs| => Strip(xs[i]))
  }

  /**
   * `[t.strip() for t in ", ".join(xs).split(',')]` gives back xs when no
   * element holds a comma or starts or ends with whitespace.
   */
  lemma SplitStripInvertsJoin(xs: seq<string>)
    requires |xs| >= 1
    requires forall i :: 0 <= i < |xs| ==> HasNo(xs[i], ',') && IsStripped(xs[i])
    ensures StripAll(Split(Join(xs, ", "), ',')) == xs
  {
    SplitJoin(xs);
    StripSpacedTail(xs);
  }

  lemma StripSpacedTail(xs: seq<string>)
    requires |xs| >= 1
    requires forall i :: 0 <= i < |xs| ==> IsStripped(xs[i])
    ensures StripAll(SpacedTail(xs)) == xs
  {
    var stripped := StripAll(SpacedTail(xs));
    forall i | 0 <= i < |xs|
      ensures stripped[i] == xs[i]
    {
      StripSpacedAt(xs, i);
    }
  }

  /** Each part of a spaced tail strips back to its element. */
  lemma StripSpacedAt(xs: seq<string>, i: nat)
    requires i < |xs| && IsStripped(xs[i])
    ensures Strip(SpacedTail(xs)[i]) == xs[i]
  {
    if i == 0 {
      StripStripped(xs[0]);
    } else {
      assert SpacedTail(xs)[i] == " " + xs[i];
      StripLeadingSpace(xs[i]);
    }
  }

  /** Python's `str.lower()` on ASCII letters. */
  function Lower(s: string): (r: string)
    ensures |r| == |s|
    ensures forall i :: 0 <= i < |s| ==> !('A' <= r[i] <= 'Z')
    ensures forall i :: 0 <= i < |s| && !('A' <= s[i] <= 'Z') ==> r[i] == s[i]
  {
    seq(|s|, i requires 0 <= i < |s| =>
      if 'A' <= s[i] <= 'Z' then (s[i] as int + 32) as char else s[i])
  }

  /** A string without upper-case letters is its own lower-casing. */
  lemma LowerOfLower(s: string)
    requires forall i :: 0 <= i < |s| ==> !('A' <= s[i] <= 'Z')
    ensures Lower(s) == s
  {
  }

  /** `pre` is a prefix of `s`. */
  predicate StartsWith(s: string, pre: string) {
    |pre| <= |s| && s[..|pre|] == pre
  }

  /** Python's `sub in s`. */
  function Contains(s: string, sub: string): bool
    decreases |s|
  {
    StartsWith(s, sub) || (|s| > 0 && Contains(s[1..], sub))
  }

  /** The list with repeats dropped, keeping first occurrences: the contents of `set(xs)`. */
  function Dedup(xs: seq<string>): (r: seq<string>)
    ensures forall x :: x in r <==> x in xs
    ensures forall i, j :: 0 <= i < j < |r| ==> r[i] != r[j]
    ensures |r| <= |xs|
    ensures |xs| > 0 ==> |r| > 0
  {
    if |xs| == 0 then []
    else
      var rest := Dedup(xs[..|xs| - 1]);
      if xs[|xs| - 1] in rest then
        assert forall x :: x in xs <==> x in xs[..|xs| - 1] || x == xs[|xs| - 1];
        rest
      else
        assert forall x :: x in xs <==> x in xs[..|xs| - 1] || x == xs[|xs| - 1];
        rest + [xs[|xs| - 1]]
  }

  /** A list repeating one string dedups to that string alone. */
  lemma {:induction false} DedupConstant(xs: seq<string>, w: string)
    requires |xs| >= 1 && forall i :: 0 <= i < |xs| ==> xs[i] == w
    ensures Dedup(xs) == [w]
  {
    if |xs| > 1 {
      DedupConstant(xs[..|xs| - 1], w);
    }
  }

  /** Python's `xs.remove(x)` on a list holding x: only the first occurrence goes. */
  function RemoveFirst<T(==)>(xs: seq<T>, x: T): (r: seq<T>)
    requires x in xs
    ensures |r| == |xs| - 1
    ensures multiset(r) == multiset(xs) - multiset{x}
  {
    if xs[0] == x then
      assert xs == [xs[0]] + xs[1..];
      xs[1..]
    else
      assert xs == [xs[0]] + xs[1..];
      [xs[0]] + RemoveFirst(xs[1..], x)
  }

  /** Decimal rendering of an integer, as an f-string prints it. */
  function IntToString(n: int): (s: string)
    ensures |s| >= 1
  {
    if n < 0 then "-" + NatToString(-n) else NatToString(n)
  }

  function NatToString(n: nat): (s: string)
    ensures |s| >= 1
    ensures forall i :: 0 <= i < |s| ==> '0' <= s[i] <= '9'
  {
    if n < 10 then [Digit(n)] else NatToString(n / 10) + [Digit(n % 10)]
  }

  function Digit(d: nat): (c: char)
    requires d < 10
    ensures '0' <= c <= '9'
  {
    "0123456789"[d]
  }
}
