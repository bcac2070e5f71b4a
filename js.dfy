/**
 * The parts of JavaScript's value semantics that the core's behaviour depends on:
 * JSON values as `JSON.parse` produces them (integers only), truthiness, property
 * access, `String(value)` / template-literal conversion, `x || d` defaulting, and
 * `parseInt` without a radix. Thrown values and the host's locale- and engine-dependent
 * texts are parameters of the model.
 */
module Js {
  import opened Wrappers
  import opened Text

  /** A value produced by `JSON.parse` (numbers are integers in this model). */
  datatype Json =
    | JNull
    | JBool(b: bool)
    | JNum(n: int)
    | JStr(s: string)
    | JArray(items: seq<Json>)
    | JObject(members: seq<(string, Json)>)

  /** What a `catch` clause receives. Everything the API layer throws is an `Error`. */
  datatype Thrown = ErrorObject(message: string) | ThrownString(s: string) | ThrownOther

  /**
   * Texts that depend on the host's locale, clock or engine, left abstract:
   * `new Date(x).toLocaleString()` of a JSON value, `new Date(ms).toLocaleTimeString()`
   * (`None` is NaN), `JSON.stringify`, the message of a TypeError (reading a property of
   * `undefined` or `null`, calling a method a value does not have), and the message of the
   * SyntaxError raised by `response.json()` on a body that is not JSON.
   */
  datatype Host = Host(
    dateText: Option<Json> -> string,
    timeText: Option<int> -> string,
    jsonText: Json -> string,
    typeErrorText: string,
    badJsonText: string)

  /** Truthiness of a possibly-undefined value (`None` is `undefined`). */
  predicate Truthy(v: Option<Json>) {
    match v
    case None => false
    case Some(JNull) => false
    case Some(JBool(b)) => b
    case Some(JNum(n)) => n != 0
    case Some(JStr(s)) => s != ""
    case Some(_) => true
  }

  /** `obj[key]` on a value that is not `null`; the last duplicate key wins, as in `JSON.parse`. */
  function Property(obj: Json, key: string): (r: Option<Json>)
    requires !obj.JNull?
    ensures r.Some? ==> obj.JObject? && exists i :: 0 <= i < |obj.members| && obj.members[i] == (key, r.value)
    ensures obj.JObject? && (exists i :: 0 <= i < |obj.members| && obj.members[i].0 == key) ==> r.Some?
    decreases if obj.JObject? then |obj.members| else 0
  {
    match obj
    case JObject(ms) =>
      if ms == [] then None
      else if ms[|ms| - 1].0 == key then Some(ms[|ms| - 1].1)
      else
        var r := Property(JObject(ms[..|ms| - 1]), key);
        assert forall i :: 0 <= i < |ms| - 1 ==> ms[..|ms| - 1][i] == ms[i];
        r
    case _ => None
  }

  function DigitChar(d: nat): char
    requires d < 10
  {
    ('0' as int + d) as char
  }

  /** Base-10 text of a natural number, without leading zeros. */
  function NatToString(n: nat): (s: string)
    ensures |s| >= 1 && forall i :: 0 <= i < |s| ==> IsDigit(s[i])
    ensures s[0] == '0' ==> n == 0
    decreases n
  {
    if n < 10 then [DigitChar(n)] else NatToString(n / 10) + [DigitChar(n % 10)]
  }

  /** `String(n)` for an integer `n` (below 10^21 in magnitude, where no exponent appears). */
  function IntToString(n: int): (s: string)
    ensures n >= 0 ==> s == NatToString(n)
    ensures n < 0 ==> s == "-" + NatToString(-n)
  {
    if n < 0 then "-" + NatToString(-n) else NatToString(n)
  }

  /** `String(v)` and `${v}` for a JSON value. */
  function ValueText(v: Json): string
    decreases v
  {
    match v
    case JNull => "null"
    case JBool(b) => if b then "true" else "false"
    case JNum(n) => IntToString(n)
    case JStr(s) => s
    case JArray(items) =>
      // Array.prototype.toString joins the elements, rendering null as the empty string
      Join(seq(|items|, i requires 0 <= i < |items| => if items[i].JNull? then "" else ValueText(items[i])), ",")
    case JObject(_) => "[object Object]"
  }

  /** `${v}` for a possibly-undefined value. */
  function Template(v: Option<Json>): string {
    match v
    case None => "undefined"
    case Some(j) => ValueText(j)
  }

  /** `v || d` for an optional number: `undefined` and `0` are falsy. */
  function NumberOr(v: Option<int>, d: int): (r: int)
    ensures r == d <==> v.None? || v.value == 0 || v.value == d
    ensures r != d ==> v == Some(r)
  {
    if v.Some? && v.value != 0 then v.value else d
  }

  // ---- parseInt ----

  /** WhiteSpace and LineTerminator code points that `parseInt` skips. */
  predicate IsJsWhitespace(c: char) {
    c == '\t' || c == '\n' || c == '\U{000B}' || c == '\U{000C}' || c == '\r' || c == ' '
    || c == '\U{00A0}' || c == '\U{1680}' || ('\U{2000}' <= c <= '\U{200A}')
    || c == '\U{2028}' || c == '\U{2029}' || c == '\U{202F}' || c == '\U{205F}' || c == '\U{3000}'
    || c == '\U{FEFF}'
  }

  function TrimStart(s: string): (t: string)
    ensures |t| <= |s| && t == s[|s| - |t|..]
    ensures t != [] ==> !IsJsWhitespace(t[0])
    decreases |s|
  {
    if s != [] && IsJsWhitespace(s[0]) then TrimStart(s[1..]) else s
  }

  predicate IsRadixDigit(c: char, radix: nat) {
    if radix == 16 then IsDigit(c) || 'a' <= c <= 'f' || 'A' <= c <= 'F' else IsDigit(c)
  }

  function RadixDigitValue(c: char): nat {
    if IsDigit(c) then c as int - '0' as int
    else if 'a' <= c <= 'f' then c as int - 'a' as int + 10
    else if 'A' <= c <= 'F' then c as int - 'A' as int + 10
    else 0
  }

  /** The longest prefix of `s` made of digits of `radix`. */
  function DigitPrefix(s: string, radix: nat): (d: string)
    ensures |d| <= |s| && d == s[..|d|]
    ensures forall i :: 0 <= i < |d| ==> IsRadixDigit(d[i], radix)
    ensures |d| < |s| ==> !IsRadixDigit(s[|d|], radix)
    decreases |s|
  {
    if s != [] && IsRadixDigit(s[0], radix) then [s[0]] + DigitPrefix(s[1..], radix) else []
  }

  /** The number that a digit string denotes in `radix`, most significant digit first. */
  function DigitsValue(d: string, radix: nat): nat
    decreases |d|
  {
    if d == [] then 0 else DigitsValue(d[..|d| - 1], radix) * radix + RadixDigitValue(d[|d| - 1])
  }

  /** `parseInt(s)` without a radix argument; `None` is NaN. */
  function ParseInt(s: string): Option<int> {
    var t := TrimStart(s);
    var negative := t != [] && t[0] == '-';
    var u := if t != [] && (t[0] == '-' || t[0] == '+') then t[1..] else t;
    match ParseMagnitude(u)
    case None => None
    case Some(m) => var v: int := m; Some(if negative then -v else v)
  }

  /** The digits after the sign: hexadecimal after `0x` or `0X`, decimal otherwise. */
  function ParseMagnitude(u: string): Option<nat> {
    var hex := |u| >= 2 && u[0] == '0' && (u[1] == 'x' || u[1] == 'X');
    var radix := if hex then 16 else 10;
    var z := DigitPrefix(if hex then u[2..] else u, radix);
    if z == [] then None else Some(DigitsValue(z, radix))
  }

  lemma {:induction false} DigitsValueOfNatToString(n: nat)
    ensures DigitsValue(NatToString(n), 10) == n
    decreases n
  {
    var s := NatToString(n);
    if n >= 10 {
      DigitsValueOfNatToString(n / 10);
      assert s[..|s| - 1] == NatToString(n / 10);
    }
  }

  lemma {:induction false} DigitPrefixOfDigits(s: string)
    requires forall i :: 0 <= i < |s| ==> IsDigit(s[i])
    ensures DigitPrefix(s, 10) == s
    decreases |s|
  {
    if s != [] {
      DigitPrefixOfDigits(s[1..]);
      assert [s[0]] + s[1..] == s;
    }
  }

  /** `parseInt` reads back the text that `String` writes for a natural number. */
  lemma ParseIntOfNatToString(n: nat)
    ensures ParseInt(NatToString(n)) == Some(n)
  {
    var s := NatToString(n);
    assert |s| >= 2 ==> s[0] != '0';
    ParseIntOfDigits(s);
    DigitsValueOfNatToString(n);
  }

  /** A decimal digit string without a `0x` head is read in base 10, all of it. */
  lemma ParseIntOfDigits(s: string)
    requires |s| >= 1 && forall i :: 0 <= i < |s| ==> IsDigit(s[i])
    requires |s| >= 2 ==> s[0] != '0'
    ensures ParseInt(s) == Some(DigitsValue(s, 10))
  {
    NoLeadingSpace(s);
    DecimalMagnitude(s);
    assert s[0] != '-' && s[0] != '+';
  }

  lemma NoLeadingSpace(s: string)
    requires |s| >= 1 && IsDigit(s[0])
    ensures TrimStart(s) == s
  {
    assert !IsJsWhitespace(s[0]);
  }

  lemma DecimalMagnitude(s: string)
    requires |s| >= 1 && forall i :: 0 <= i < |s| ==> IsDigit(s[i])
    requires |s| >= 2 ==> s[0] != '0'
    ensures ParseMagnitude(s) == Some(DigitsValue(s, 10))
  {
    DigitPrefixOfDigits(s);
  }
}
