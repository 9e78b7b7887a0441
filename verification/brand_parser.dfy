/**
 * core/brand_guideline_parser.py: a brand-guideline file is read as JSON and
 * filtered key by key. Three colour keys, two font keys and the layout
 * preference are kept when their value has the expected shape; every other
 * key, designPrinciples included, is dropped. A missing file, a file that is
 * not valid JSON, and any error while filtering give an empty dictionary.
 */
module BrandParser {
  import opened Wrappers
  import opened Json
  import F = Features

  /** What reading the file produced; the file system and the decoder are not modelled. */
  datatype Source = Missing | Undecodable | Decoded(doc: Value)

  const ColourKeys: seq<string> := ["primaryColor", "secondaryColor", "accentColor"]
  const FontKeys: seq<string> := ["headingFont", "bodyFont"]
  const PreferenceKey: string := "layoutPreference"

  /** The keys in the order they are checked. */
  const CheckedKeys: seq<string> := ColourKeys + FontKeys + [PreferenceKey]

  /** `#RGB` or `#RRGGBB` by shape only: the characters after `#` are not checked. */
  predicate ValidColour(v: Value) {
    v.Str? && (|v.s| == 4 || |v.s| == 7) && v.s[0] == '#'
  }

  predicate ValidFont(v: Value) {
    v.Str? && |v.s| > 0
  }

  predicate ValidPreference(v: Value) {
    v.Str? && v.s in F.LayoutPreferences
  }

  /** The check applied to the value under a key; keys outside the six fail. */
  predicate Valid(k: string, v: Value) {
    if k in ColourKeys then ValidColour(v)
    else if k in FontKeys then ValidFont(v)
    else if k == PreferenceKey then ValidPreference(v)
    else false
  }

  /** Copy each listed key whose value passes its check, in list order. */
  function KeepValid(acc: Dict, g: Dict, keys: seq<string>): Dict
    decreases |keys|
  {
    if |keys| == 0 then acc
    else
      var k := keys[0];
      var next := if k in g && Valid(k, g[k]) then acc[k := g[k]] else acc;
      KeepValid(next, g, keys[1..])
  }

  /**
   * Every key of the result came from the accumulator or is a listed key
   * whose value passed; the value is the one it came with.
   */
  lemma {:induction false} KeepValidSpec(acc: Dict, g: Dict, keys: seq<string>, k: string)
    requires forall j :: j in acc ==> j in g && acc[j] == g[j]
    ensures k in KeepValid(acc, g, keys) <==> k in acc || (k in keys && k in g && Valid(k, g[k]))
    ensures k in KeepValid(acc, g, keys) ==> k in g && KeepValid(acc, g, keys)[k] == g[k]
    decreases |keys|
  {
    if |keys| > 0 {
      var j := keys[0];
      var next := if j in g && Valid(j, g[j]) then acc[j := g[j]] else acc;
      assert k in keys <==> k == j || k in keys[1..] by {
        assert keys == [j] + keys[1..];
      }
      KeepValidSpec(next, g, keys[1..], k);
    }
  }

  /** The filtering body applied to a decoded object. */
  function Validate(g: Dict): Dict
  {
    KeepValid(map[], g, CheckedKeys)
  }

  /**
   * `parse_brand_guidelines`. A decoded value that is not an object also
   * yields `{}`: a list or a string makes the first lookup raise when it
   * holds a checked key and fails every membership test otherwise, and any
   * other value makes `in` raise; every such error is caught.
   */
  function Parse(src: Source): (d: Dict)
    ensures !(src.Decoded? && src.doc.Object?) ==> d == map[]
  {
    match src
    case Decoded(Object(g)) => Validate(g)
    case _ => map[]
  }

  /**
   * A key survives exactly when it is one of the six checked keys, the file
   * holds it and its value passes that key's check; a surviving value is
   * copied unchanged. One key's fate never depends on another's.
   */
  lemma ParseKeys(src: Source, k: string)
    ensures k in Parse(src) <==>
      src.Decoded? && src.doc.Object? && k in CheckedKeys
      && k in src.doc.fields && Valid(k, src.doc.fields[k])
    ensures k in Parse(src) ==> Parse(src)[k] == src.doc.fields[k]
  {
    if src.Decoded? && src.doc.Object? {
      KeepValidSpec(map[], src.doc.fields, CheckedKeys, k);
    }
  }

  /** Only the six checked keys can come out; designPrinciples never does. */
  lemma OnlyCheckedKeys(src: Source)
    ensures forall k :: k in Parse(src) ==> k in CheckedKeys
    ensures "designPrinciples" !in Parse(src)
  {
    forall k | k in Parse(src) ensures k in CheckedKeys {
      ParseKeys(src, k);
    }
    ParseKeys(src, "designPrinciples");
  }

  /**
   * Guidelines from a file carry no principles, so the generators see an
   * empty principle set whenever the parsed dictionary is non-empty.
   */
  lemma ParsedHaveNoPrinciples(src: Source)
    ensures F.DesignPrinciples(Parse(src)) == Some({})
  {
    OnlyCheckedKeys(src);
  }

  /** Parsing already-parsed guidelines changes nothing. */
  lemma ParseIdempotent(src: Source)
    ensures Parse(Decoded(Object(Parse(src)))) == Parse(src)
  {
    var d := Parse(src);
    var e := Parse(Decoded(Object(d)));
    forall k ensures k in e <==> k in d {
      ParseKeys(src, k);
      ParseKeys(Decoded(Object(d)), k);
    }
    forall k | k in e ensures e[k] == d[k] {
      ParseKeys(Decoded(Object(d)), k);
    }
  }

  /**
   * The file with a wrong-shaped colour, an empty font and an unknown
   * preference: every field is dropped.
   */
  lemma InvalidFieldsDropped()
    ensures Parse(Decoded(Object(map["primaryColor" := Str("not_a_hex"),
                                     "headingFont" := Str(""),
                                     "layoutPreference" := Str("unknown_style")]))) == map[]
  {
    var g := map["primaryColor" := Str("not_a_hex"), "headingFont" := Str(""),
                 "layoutPreference" := Str("unknown_style")];
    var d := Parse(Decoded(Object(g)));
    assert !ValidColour(Str("not_a_hex")) by {
      assert |"not_a_hex"| == 9;
    }
    assert "unknown_style" !in F.LayoutPreferences;
    forall k | k in d ensures false {
      ParseKeys(Decoded(Object(g)), k);
    }
  }

  /** `#RGB` and `#RRGGBB` pass whatever follows the `#`; other lengths fail. */
  lemma ColourShapes()
    ensures ValidColour(Str("#1A73E8")) && ValidColour(Str("#abc")) && ValidColour(Str("#zzz"))
    ensures !ValidColour(Str("#abcd")) && !ValidColour(Str("1A73E8#"))
  {
    assert |"#abcd"| == 5;
    assert "1A73E8#"[0] == '1';
  }
}
