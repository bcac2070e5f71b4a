/**
 * `buildUrl` of src/utils/api.ts: the base URL, the path, and the query that
 * `url.searchParams.append` produces, serialised by the application/x-www-form-urlencoded
 * serializer of section 5.2 of the WHATWG URL Standard (UTF-8, space as `+`, every byte
 * outside ASCII alphanumerics and `*-._` as `%XX`). The parser of section 5.1 is modelled
 * too, so that the query can be shown to carry exactly the parameters that were appended.
 */
module ApiQuery {
  import opened Wrappers
  import opened Text
  import opened Js

  const BaseUrl: string := "https://api.github.com"

  /** `string | number | boolean | undefined`, and `null`, which the loop also skips. */
  datatype ParamValue = PStr(s: string) | PNum(n: int) | PBool(b: bool) | PUndefined | PNull

  predicate Present(v: ParamValue) {
    !v.PUndefined? && !v.PNull?
  }

  /** `String(value)` for a present parameter. */
  function ParamText(v: ParamValue): string
    requires Present(v)
  {
    match v
    case PStr(s) => s
    case PNum(n) => IntToString(n)
    case PBool(b) => if b then "true" else "false"
  }

  // ---- UTF-8 and the form-urlencoded byte serializer ----

  newtype byte = x: int | 0 <= x < 256

  /** The UTF-8 encoding of one scalar value. */
  function Utf8(c: char): (bs: seq<byte>)
    ensures 1 <= |bs| <= 4
    ensures |bs| == 1 <==> (c as int) < 0x80
    ensures |bs| == 1 ==> bs[0] as int == c as int
    ensures |bs| > 1 ==> bs[0] >= 0xC0 && forall i :: 1 <= i < |bs| ==> 0x80 <= bs[i] < 0xC0
  {
    var n := c as int;
    if n < 0x80 then [n as byte]
    else if n < 0x800 then [(0xC0 + n / 64) as byte, (0x80 + n % 64) as byte]
    else if n < 0x10000 then [(0xE0 + n / 4096) as byte, (0x80 + n / 64 % 64) as byte, (0x80 + n % 64) as byte]
    else [(0xF0 + n / 262144) as byte, (0x80 + n / 4096 % 64) as byte, (0x80 + n / 64 % 64) as byte, (0x80 + n % 64) as byte]
  }

  function Utf8Encode(s: string): (bs: seq<byte>)
    ensures |bs| >= |s|
  {
    if s == [] then [] else Utf8(s[0]) + Utf8Encode(s[1..])
  }

  /** Bytes left as they are: ASCII alphanumerics and `*`, `-`, `.`, `_`. */
  predicate FormSafe(b: byte) {
    b < 0x80 && (IsAlnum((b as int) as char) || (b as int) as char in "*-._")
  }

  function HexUpper(d: nat): (c: char)
    requires d < 16
    ensures IsRadixDigit(c, 16) && RadixDigitValue(c) == d
  {
    if d < 10 then ('0' as int + d) as char else ('A' as int + d - 10) as char
  }

  /** Characters the serializer can produce. */
  predicate FormOutputChar(c: char) {
    IsAlnum(c) || c in "*-._+%"
  }

  function EncodeByte(b: byte): (t: string)
    ensures forall i :: 0 <= i < |t| ==> FormOutputChar(t[i])
  {
    if b == 0x20 then "+"
    else if FormSafe(b) then [(b as int) as char]
    else ['%', HexUpper(b as int / 16), HexUpper(b as int % 16)]
  }

  function EncodeBytes(bs: seq<byte>): (t: string)
    ensures forall i :: 0 <= i < |t| ==> FormOutputChar(t[i])
  {
    if bs == [] then ""
    else
      var head := EncodeByte(bs[0]);
      var tail := EncodeBytes(bs[1..]);
      assert forall i :: |head| <= i < |head + tail| ==> (head + tail)[i] == tail[i - |head|];
      head + tail
  }

  /** The form-urlencoded serialisation of one name or value. */
  function FormEncode(s: string): string {
    EncodeBytes(Utf8Encode(s))
  }

  /** Section 5.1's byte decoding of one name or value: `+` is a space, `%XX` a byte, anything else its UTF-8 bytes. */
  function FormDecode(t: string): seq<byte>
    decreases |t|
  {
    if t == [] then []
    else if t[0] == '+' then [0x20 as byte] + FormDecode(t[1..])
    else if t[0] == '%' && |t| >= 3 && IsRadixDigit(t[1], 16) && IsRadixDigit(t[2], 16) then
      [(RadixDigitValue(t[1]) * 16 + RadixDigitValue(t[2])) as byte] + FormDecode(t[3..])
    else Utf8(t[0]) + FormDecode(t[1..])
  }

  lemma DecodeEncodedByte(b: byte, rest: string)
    ensures FormDecode(EncodeByte(b) + rest) == [b] + FormDecode(rest)
  {
    var t := EncodeByte(b) + rest;
    if b == 0x20 {
      assert t[1..] == rest;
    } else if FormSafe(b) {
      assert t[1..] == rest;
      assert t[0] != '+' && t[0] != '%';
    } else {
      assert t[3..] == rest;
      assert (b as int / 16) * 16 + b as int % 16 == b as int;
    }
  }

  /** Decoding inverts the serializer on every byte sequence. */
  lemma {:induction false} DecodeEncodeBytes(bs: seq<byte>)
    ensures FormDecode(EncodeBytes(bs)) == bs
    decreases |bs|
  {
    if bs != [] {
      DecodeEncodedByte(bs[0], EncodeBytes(bs[1..]));
      DecodeEncodeBytes(bs[1..]);
      assert [bs[0]] + bs[1..] == bs;
    }
  }

  /** A name or value decodes back to its UTF-8 bytes. */
  lemma FormRoundTrip(s: string)
    ensures FormDecode(FormEncode(s)) == Utf8Encode(s)
  {
    DecodeEncodeBytes(Utf8Encode(s));
  }

  /** Characters a form-encoded value keeps as they are (a space becomes `+`). */
  predicate PlainChar(c: char) {
    c == ' ' || IsAlnum(c) || c in "*-._"
  }

  function SpaceAsPlus(s: string): string {
    if s == [] then "" else [if s[0] == ' ' then '+' else s[0]] + SpaceAsPlus(s[1..])
  }

  /** Plain text is serialised as itself, except that each space is a `+`. */
  lemma {:induction false} FormEncodePlain(s: string)
    requires forall i :: 0 <= i < |s| ==> PlainChar(s[i])
    ensures FormEncode(s) == SpaceAsPlus(s)
    decreases |s|
  {
    if s != [] {
      var b := Utf8(s[0]);
      assert |b| == 1 && b[0] as int == s[0] as int;
      assert Utf8Encode(s) == [b[0]] + Utf8Encode(s[1..]);
      assert Utf8Encode(s)[1..] == Utf8Encode(s[1..]);
      FormEncodePlain(s[1..]);
    }
  }

  // ---- the query string ----

  /** `name=value` with both halves serialised. */
  function EncodePair(p: (string, string)): string {
    FormEncode(p.0) + "=" + FormEncode(p.1)
  }

  function EncodePairs(pairs: seq<(string, string)>): (segs: seq<string>)
    ensures |segs| == |pairs|
  {
    if pairs == [] then [] else [EncodePair(pairs[0])] + EncodePairs(pairs[1..])
  }

  /** The serializer of section 5.2: pairs joined with `&`. */
  function Serialize(pairs: seq<(string, string)>): string {
    Join(EncodePairs(pairs), "&")
  }

  /** One `name=value` sequence split at its first `=` (a missing `=` gives an empty value). */
  function ParsePair(seg: string): (seq<byte>, seq<byte>) {
    match IndexOf(seg, "=")
    case None => (FormDecode(seg), [])
    case Some(i) => (FormDecode(seg[..i]), FormDecode(seg[i + 1..]))
  }

  /** Empty sequences between `&`s are skipped. */
  function ParseSegments(segs: seq<string>): seq<(seq<byte>, seq<byte>)> {
    if segs == [] then []
    else (if segs[0] == "" then [] else [ParsePair(segs[0])]) + ParseSegments(segs[1..])
  }

  /** The parser of section 5.1, yielding names and values as bytes. */
  function ParseQuery(q: string): seq<(seq<byte>, seq<byte>)> {
    ParseSegments(Split(q, '&'))
  }

  function Utf8Pairs(pairs: seq<(string, string)>): seq<(seq<byte>, seq<byte>)> {
    if pairs == [] then [] else [(Utf8Encode(pairs[0].0), Utf8Encode(pairs[0].1))] + Utf8Pairs(pairs[1..])
  }

  lemma FirstEqualsSign(a: string, b: string)
    requires '=' !in a
    ensures IndexOf(a + "=" + b, "=") == Some(|a|)
  {
    var t := a + "=" + b;
    assert t[|a|..|a| + 1] == "=";
    assert OccursAt(t, "=", |a|);
    forall j: nat | j < |a| ensures !OccursAt(t, "=", j) {
      assert t[j..j + 1][0] == a[j];
    }
  }

  lemma ParseEncodedPair(p: (string, string))
    ensures ParsePair(EncodePair(p)) == (Utf8Encode(p.0), Utf8Encode(p.1))
  {
    var a := FormEncode(p.0);
    var b := FormEncode(p.1);
    assert forall i :: 0 <= i < |a| ==> FormOutputChar(a[i]);
    FirstEqualsSign(a, b);
    var t := a + "=" + b;
    assert t[..|a|] == a && t[|a| + 1..] == b;
    FormRoundTrip(p.0);
    FormRoundTrip(p.1);
  }

  lemma {:induction false} ParseEncodedPairs(pairs: seq<(string, string)>)
    ensures ParseSegments(EncodePairs(pairs)) == Utf8Pairs(pairs)
    decreases |pairs|
  {
    if pairs != [] {
      var segs := EncodePairs(pairs);
      assert segs[0] == EncodePair(pairs[0]) && segs[1..] == EncodePairs(pairs[1..]);
      assert |segs[0]| > 0;
      ParseEncodedPair(pairs[0]);
      ParseEncodedPairs(pairs[1..]);
    }
  }

  lemma {:induction false} EncodedPairsHaveNoAmpersand(pairs: seq<(string, string)>)
    ensures forall s :: s in EncodePairs(pairs) ==> '&' !in s
    decreases |pairs|
  {
    if pairs != [] {
      var a := FormEncode(pairs[0].0);
      var b := FormEncode(pairs[0].1);
      assert forall i :: 0 <= i < |a| ==> FormOutputChar(a[i]);
      assert forall i :: 0 <= i < |b| ==> FormOutputChar(b[i]);
      var e := a + "=" + b;
      assert forall i :: 0 <= i < |e| ==> e[i] != '&' by {
        forall i | 0 <= i < |e| ensures e[i] != '&' {
          if i < |a| { assert e[i] == a[i]; }
          else if i > |a| { assert e[i] == b[i - |a| - 1]; }
        }
      }
      EncodedPairsHaveNoAmpersand(pairs[1..]);
    }
  }

  /** Parsing the serialised query gives back every pair, in order, as UTF-8 bytes. */
  lemma QueryRoundTrip(pairs: seq<(string, string)>)
    ensures ParseQuery(Serialize(pairs)) == Utf8Pairs(pairs)
  {
    if pairs == [] {
      assert Split("", '&') == [""];
    } else {
      EncodedPairsHaveNoAmpersand(pairs);
      SplitJoin(EncodePairs(pairs), '&');
      ParseEncodedPairs(pairs);
    }
  }

  // ---- buildUrl ----

  /** The `[key, String(value)]` pairs that the `forEach` appends, in entry order. */
  function QueryPairs(params: seq<(string, ParamValue)>): (pairs: seq<(string, string)>)
    ensures |pairs| <= |params|
  {
    if params == [] then []
    else
      var last := params[|params| - 1];
      QueryPairs(params[..|params| - 1]) + (if Present(last.1) then [(last.0, ParamText(last.1))] else [])
  }

  /** The URL `buildUrl(path, params)` returns, for a path that needs no normalisation. */
  function Url(path: string, params: seq<(string, ParamValue)>): string {
    var pairs := QueryPairs(params);
    BaseUrl + path + (if pairs == [] then "" else "?" + Serialize(pairs))
  }

  /** `buildUrl`: the loop over `Object.entries(params)`. */
  method BuildUrl(path: string, params: seq<(string, ParamValue)>) returns (url: string)
    ensures url == Url(path, params)
  {
    var pairs: seq<(string, string)> := [];
    var i := 0;
    while i < |params|
      invariant 0 <= i <= |params|
      invariant pairs == QueryPairs(params[..i])
    {
      var (key, value) := params[i];
      assert params[..i + 1][..i] == params[..i];
      if Present(value) {
        pairs := pairs + [(key, ParamText(value))];
      }
      i := i + 1;
    }
    assert params[..i] == params;
    url := BaseUrl + path;
    if pairs != [] {
      url := url + "?" + Serialize(pairs);
    }
  }

  // ---- what the query carries ----

  /** Entries are processed in order: the pairs of a concatenation are the concatenated pairs. */
  lemma {:induction false} QueryPairsAppend(a: seq<(string, ParamValue)>, b: seq<(string, ParamValue)>)
    ensures QueryPairs(a + b) == QueryPairs(a) + QueryPairs(b)
    decreases |b|
  {
    if b != [] {
      var b' := b[..|b| - 1];
      assert (a + b)[..|a + b| - 1] == a + b';
      QueryPairsAppend(a, b');
    } else {
      assert a + b == a;
    }
  }

  /** A pair is in the query exactly when some entry with a present value produced it. */
  lemma {:induction false} QueryPairsMembers(params: seq<(string, ParamValue)>, p: (string, string))
    ensures p in QueryPairs(params) <==>
      exists i :: 0 <= i < |params| && Present(params[i].1) && p == (params[i].0, ParamText(params[i].1))
    decreases |params|
  {
    if params != [] {
      var init := params[..|params| - 1];
      QueryPairsMembers(init, p);
      assert forall i :: 0 <= i < |init| ==> init[i] == params[i];
      if exists i :: 0 <= i < |params| && Present(params[i].1) && p == (params[i].0, ParamText(params[i].1)) {
        var i :| 0 <= i < |params| && Present(params[i].1) && p == (params[i].0, ParamText(params[i].1));
        if i < |init| {
          assert init[i] == params[i];
        }
      }
    }
  }

  /** A key whose every entry is `undefined` or `null` never reaches the query. */
  lemma OmittedKeyAbsent(params: seq<(string, ParamValue)>, key: string)
    requires forall i :: 0 <= i < |params| && params[i].0 == key ==> !Present(params[i].1)
    ensures forall p :: p in QueryPairs(params) ==> p.0 != key
  {
    forall p | p in QueryPairs(params) ensures p.0 != key {
      QueryPairsMembers(params, p);
    }
  }

  /** When every value is `undefined` or `null` there is no query at all. */
  lemma {:induction false} AllOmitted(params: seq<(string, ParamValue)>)
    requires forall i :: 0 <= i < |params| ==> !Present(params[i].1)
    ensures QueryPairs(params) == []
    decreases |params|
  {
    if params != [] {
      AllOmitted(params[..|params| - 1]);
    }
  }

  /** The URL is the base, the path, and a query that parses back to the present entries. */
  lemma UrlShape(path: string, params: seq<(string, ParamValue)>)
    ensures QueryPairs(params) == [] ==> Url(path, params) == BaseUrl + path
    ensures QueryPairs(params) != [] ==>
      Url(path, params) == BaseUrl + path + "?" + Serialize(QueryPairs(params)) &&
      ParseQuery(Serialize(QueryPairs(params))) == Utf8Pairs(QueryPairs(params))
  {
    QueryRoundTrip(QueryPairs(params));
  }

  /** Booleans are written `true` / `false`, integers in base 10. */
  lemma ParamTextExamples()
    ensures ParamText(PBool(true)) == "true" && ParamText(PBool(false)) == "false"
    ensures ParamText(PNum(50)) == "50" && ParamText(PNum(-3)) == "-3"
  {
    assert NatToString(50) == NatToString(5) + [DigitChar(0)];
  }

  /** A space is written `+`. */
  lemma SpaceExample()
    ensures FormEncode("foo bar") == "foo+bar"
  {
    PlainFooBar();
    FormEncodePlain("foo bar");
    assert SpaceAsPlus("foo bar") == "foo+bar";
  }

  lemma PlainFooBar()
    ensures forall i :: 0 <= i < |"foo bar"| ==> PlainChar("foo bar"[i])
  {
  }

  /** `undefined` parameters leave no trace, and the rest keep their order. */
  lemma UrlExample()
    ensures Url("/test", [("filter", PStr("all")), ("empty", PUndefined)]) == BaseUrl + "/test" + "?" + "filter=all"
  {
    UrlExamplePairs();
    PairExample();
    assert EncodePairs([("filter", "all")]) == [EncodePair(("filter", "all"))];
  }

  lemma PairExample()
    ensures EncodePair(("filter", "all")) == "filter=all"
  {
    FormEncodePlain("filter");
    FormEncodePlain("all");
    assert SpaceAsPlus("filter") == "filter";
    assert SpaceAsPlus("all") == "all";
  }

  lemma UrlExamplePairs()
    ensures QueryPairs([("filter", PStr("all")), ("empty", PUndefined)]) == [("filter", "all")]
  {
    var params := [("filter", PStr("all")), ("empty", PUndefined)];
    assert params[..1] == [("filter", PStr("all"))];
  }
}
