/**
 * The shared input validators (src/utils/schemas.ts). Each zod chain is a value of the
 * `Schema` datatype below; `SafeParse` runs it the way zod does (type check first, then
 * every check, refinements after a non-aborted inner parse, `optional` and `default`
 * handling `undefined`), and object shapes are maps from field names to schemas, so that
 * zod's `{ ...a, ...b }` composition is map union. The regular expressions are written as
 * structural matchers; lemmas characterise each in plain terms.
 */
module Schemas {
  import opened Wrappers
  import opened Text
  import opened Js

  // ---- character classes and the regular expressions ----

  datatype CharClass = Digit | Alnum | OwnerChar | RepoChar

  /** `\d`, `[a-zA-Z0-9]`, `[a-zA-Z0-9-]` and `[a-zA-Z0-9._-]`. */
  predicate InClass(c: char, k: CharClass) {
    match k
    case Digit => IsDigit(c)
    case Alnum => IsAlnum(c)
    case OwnerChar => IsAlnum(c) || c == '-'
    case RepoChar => IsAlnum(c) || c == '.' || c == '_' || c == '-'
  }

  predicate AllIn(s: string, k: CharClass) {
    forall i :: 0 <= i < |s| ==> InClass(s[i], k)
  }

  /** `^[k]+$`: one character of the class, then either the end or another match. */
  predicate MatchesPlus(s: string, k: CharClass)
    decreases |s|
  {
    |s| >= 1 && InClass(s[0], k) && (|s| == 1 || MatchesPlus(s[1..], k))
  }

  /** `[a-zA-Z0-9-]*[a-zA-Z0-9]$`: the star takes nothing and one alphanumeric ends the input, or the star takes one more. */
  predicate MatchesOwnerTail(s: string)
    decreases |s|
  {
    |s| >= 1 && ((|s| == 1 && IsAlnum(s[0])) || (InClass(s[0], OwnerChar) && MatchesOwnerTail(s[1..])))
  }

  /** `^[a-zA-Z0-9]([a-zA-Z0-9-]*[a-zA-Z0-9])?$`. */
  predicate MatchesOwnerRegex(s: string) {
    |s| >= 1 && IsAlnum(s[0]) && (|s| == 1 || MatchesOwnerTail(s[1..]))
  }

  /** Position-by-position match against a template in which `#` stands for `\d`. */
  predicate MatchesTemplate(s: string, template: string)
    decreases |s|
  {
    |s| == |template| &&
    (|s| == 0 || ((if template[0] == '#' then IsDigit(s[0]) else s[0] == template[0]) && MatchesTemplate(s[1..], template[1..])))
  }

  /** `\d{4}-\d{2}-\d{2}T\d{2}:\d{2}:\d{2}`. */
  const TimestampHead: string := "####-##-##T##:##:##"

  /** `(Z|[+-]\d{2}:\d{2})$`. */
  predicate MatchesZone(z: string) {
    z == "Z" || (|z| == 6 && (z[0] == '+' || z[0] == '-') && MatchesTemplate(z[1..], "##:##"))
  }

  /** `\d+` followed by the zone: one digit, then either the zone or more digits. */
  predicate MatchesDigitsThenZone(t: string)
    decreases |t|
  {
    |t| >= 2 && IsDigit(t[0]) && (MatchesZone(t[1..]) || MatchesDigitsThenZone(t[1..]))
  }

  /** `(\.\d+)?(Z|[+-]\d{2}:\d{2})$`. */
  predicate MatchesFractionThenZone(t: string) {
    MatchesZone(t) || (|t| >= 1 && t[0] == '.' && MatchesDigitsThenZone(t[1..]))
  }

  /** `^\d{4}-\d{2}-\d{2}T\d{2}:\d{2}:\d{2}(\.\d+)?(Z|[+-]\d{2}:\d{2})$`. */
  predicate MatchesTimestampRegex(s: string) {
    |s| >= 19 && MatchesTemplate(s[..19], TimestampHead) && MatchesFractionThenZone(s[19..])
  }

  datatype Pattern = OwnerPattern | RepoPattern | ThreadIdPattern | TimestampPattern

  predicate PatternTest(p: Pattern, s: string) {
    match p
    case OwnerPattern => MatchesOwnerRegex(s)
    case RepoPattern => MatchesPlus(s, RepoChar)
    case ThreadIdPattern => MatchesPlus(s, Digit)
    case TimestampPattern => MatchesTimestampRegex(s)
  }

  // ---- decodeURIComponent ----

  /**
   * `decodeURIComponent(s)`; `None` is the URIError it throws on a malformed escape.
   * Escapes of bytes from 0x80 on (UTF-8 sequences) are treated as malformed.
   */
  function DecodeUriComponent(s: string): Option<string>
    decreases |s|
  {
    if s == [] then Some("")
    else
      var (c, n) :=
        if s[0] != '%' then (Some(s[0]), 1)
        else if |s| >= 3 && IsRadixDigit(s[1], 16) && IsRadixDigit(s[2], 16)
                && RadixDigitValue(s[1]) * 16 + RadixDigitValue(s[2]) < 0x80
        then (Some((RadixDigitValue(s[1]) * 16 + RadixDigitValue(s[2])) as char), 3)
        else (None, 1);
      match (c, DecodeUriComponent(s[n..]))
      case (Some(ch), Some(rest)) => Some([ch] + rest)
      case _ => None
  }

  /** Without a `%` there is nothing to decode. */
  lemma {:induction false} DecodeWithoutPercent(s: string)
    requires '%' !in s
    ensures DecodeUriComponent(s) == Some(s)
    decreases |s|
  {
    if s != [] {
      assert '%' !in s[1..];
      DecodeWithoutPercent(s[1..]);
      assert [s[0]] + s[1..] == s;
    }
  }

  // ---- zod schemas ----

  datatype StringCheck =
    | MinLength(n: nat, message: string)
    | MaxLength(n: nat, message: string)
    | Matches(pattern: Pattern, message: string)

  datatype NumberCheck =
    | IsInteger(message: string)
    | AtLeast(bound: int, message: string)
    | AtMost(bound: int, message: string)

  /** The `.refine` of the repository name: decode, then look for traversal. */
  datatype Refinement = NoPathTraversal(message: string)

  datatype Schema =
    | ZBoolean
    | ZNumber(numberChecks: seq<NumberCheck>)
    | ZString(stringChecks: seq<StringCheck>)
    | ZRefine(inner: Schema, refinement: Refinement)
    | ZEnum(options: seq<string>)
    | ZOptional(inner: Schema)
    | ZDefault(inner: Schema, default: Json)

  datatype Issue = InvalidType(expected: string) | InvalidEnumValue(options: seq<string>) | CheckFailed(message: string)

  /** The parsed value (`None` is `undefined`) or the issues found. */
  datatype ParseResult = Success(data: Option<Json>) | Failure(issues: seq<Issue>)

  predicate StringCheckHolds(c: StringCheck, s: string) {
    match c
    case MinLength(n, _) => |s| >= n
    case MaxLength(n, _) => |s| <= n
    case Matches(p, _) => PatternTest(p, s)
  }

  predicate NumberCheckHolds(c: NumberCheck, x: int) {
    match c
    case IsInteger(_) => true
    case AtLeast(b, _) => x >= b
    case AtMost(b, _) => x <= b
  }

  /** Every string check runs; each one that fails adds its message. */
  function StringIssues(checks: seq<StringCheck>, s: string): (r: seq<Issue>)
    ensures r == [] <==> forall i :: 0 <= i < |checks| ==> StringCheckHolds(checks[i], s)
    ensures |r| <= |checks|
  {
    if checks == [] then []
    else
      (if StringCheckHolds(checks[0], s) then [] else [CheckFailed(checks[0].message)])
      + StringIssues(checks[1..], s)
  }

  function NumberIssues(checks: seq<NumberCheck>, x: int): (r: seq<Issue>)
    ensures r == [] <==> forall i :: 0 <= i < |checks| ==> NumberCheckHolds(checks[i], x)
  {
    if checks == [] then []
    else
      (if NumberCheckHolds(checks[0], x) then [] else [CheckFailed(checks[0].message)])
      + NumberIssues(checks[1..], x)
  }

  predicate RefinementHolds(r: Refinement, s: string) {
    match DecodeUriComponent(s)
    case None => false
    case Some(d) =>
      !Includes(d, "..") && !Includes(d, "\0") && !Includes(d, "/") && !Includes(d, "\\") && !StartsWith(d, ".")
  }

  function Checked(issues: seq<Issue>, v: Option<Json>): ParseResult {
    if issues == [] then Success(v) else Failure(issues)
  }

  /** zod's `safeParse` of a possibly-undefined value. */
  function SafeParse(schema: Schema, v: Option<Json>): (r: ParseResult)
    ensures r.Failure? ==> r.issues != []
    decreases schema
  {
    match schema
    case ZBoolean =>
      if v.Some? && v.value.JBool? then Success(v) else Failure([InvalidType("boolean")])
    case ZNumber(checks) =>
      if v.Some? && v.value.JNum? then Checked(NumberIssues(checks, v.value.n), v) else Failure([InvalidType("number")])
    case ZString(checks) =>
      if v.Some? && v.value.JStr? then Checked(StringIssues(checks, v.value.s), v) else Failure([InvalidType("string")])
    case ZRefine(inner, refinement) =>
      var p := SafeParse(inner, v);
      if p.Failure? && p.issues[0].InvalidType? then p
      else if v.Some? && v.value.JStr? && RefinementHolds(refinement, v.value.s) then p
      else Failure((if p.Failure? then p.issues else []) + [CheckFailed(refinement.message)])
    case ZEnum(options) =>
      if !(v.Some? && v.value.JStr?) then Failure([InvalidType("string")])
      else if v.value.s in options then Success(v)
      else Failure([InvalidEnumValue(options)])
    case ZOptional(inner) =>
      if v.None? then Success(None) else SafeParse(inner, v)
    case ZDefault(inner, d) =>
      SafeParse(inner, if v.None? then Some(d) else v)
  }

  predicate Accepts(schema: Schema, v: Option<Json>) {
    SafeParse(schema, v).Success?
  }

  // ---- object shapes ----

  /** The fields of a `z.object`, by name. */
  type Shape = map<string, Schema>

  /** The raw arguments of a tool call, as a JSON object. */
  type Record = map<string, Json>

  function FieldOf(raw: Record, key: string): Option<Json> {
    if key in raw then Some(raw[key]) else None
  }

  predicate ObjectAccepts(shape: Shape, raw: Record) {
    forall k :: k in shape ==> Accepts(shape[k], FieldOf(raw, k))
  }

  /** The parsed object (unknown keys stripped, undefined results omitted) or the issues of every failing field. */
  datatype ObjectResult = Parsed(fields: Record) | Rejected(fieldIssues: map<string, seq<Issue>>)

  function ObjectParse(shape: Shape, raw: Record): (r: ObjectResult)
    ensures r.Parsed? <==> ObjectAccepts(shape, raw)
    ensures r.Parsed? ==> forall k :: k in r.fields <==> k in shape && SafeParse(shape[k], FieldOf(raw, k)).data.Some?
    ensures r.Parsed? ==> forall k :: k in r.fields ==> Some(r.fields[k]) == SafeParse(shape[k], FieldOf(raw, k)).data
    ensures r.Rejected? ==> r.fieldIssues != map[]
    ensures r.Rejected? ==> forall k :: k in r.fieldIssues <==> k in shape && !Accepts(shape[k], FieldOf(raw, k))
    ensures r.Rejected? ==> forall k :: k in r.fieldIssues ==> r.fieldIssues[k] != []
  {
    if ObjectAccepts(shape, raw) then
      Parsed(map k | k in shape && SafeParse(shape[k], FieldOf(raw, k)).data.Some? :: SafeParse(shape[k], FieldOf(raw, k)).data.value)
    else
      var bad := map k | k in shape && !Accepts(shape[k], FieldOf(raw, k)) :: SafeParse(shape[k], FieldOf(raw, k)).issues;
      var k0 :| k0 in shape && !Accepts(shape[k0], FieldOf(raw, k0));
      assert k0 in bad;
      Rejected(bad)
  }

  // ---- the schemas of src/utils/schemas.ts ----

  const PageSchema: Schema := ZOptional(ZNumber([
    IsInteger("Page must be a whole number"),
    AtLeast(1, "Page must be at least 1"),
    AtMost(100, "GitHub API limits pagination to 100 pages")]))

  const PerPageSchema: Schema := ZOptional(ZNumber([
    IsInteger("Items per page must be a whole number"),
    AtLeast(1, "Must request at least 1 item per page"),
    AtMost(100, "GitHub API maximum is 100 items per page")]))

  const PaginationShape: Shape := map["page" := PageSchema, "per_page" := PerPageSchema]

  const OwnerSchema: Schema := ZString([
    MinLength(1, "Owner cannot be empty"),
    MaxLength(39, "GitHub username maximum length is 39 characters"),
    Matches(OwnerPattern, "Owner must start and end with alphanumeric characters, may contain hyphens")])

  const RepoSchema: Schema := ZRefine(
    ZString([
      MinLength(1, "Repository name cannot be empty"),
      MaxLength(100, "Repository name maximum length is 100 characters"),
      Matches(RepoPattern, "Repository name can only contain alphanumeric characters, dots, underscores, and hyphens")]),
    NoPathTraversal("Repository name contains invalid characters or path traversal attempts"))

  const RepoIdentifierShape: Shape := map["owner" := OwnerSchema, "repo" := RepoSchema]

  const ThreadIdSchema: Schema := ZString([
    MinLength(1, "Thread ID cannot be empty"),
    MaxLength(20, "Thread ID too long"),
    Matches(ThreadIdPattern, "Thread ID must be numeric")])

  const TimestampSchema: Schema := ZString([
    MaxLength(64, "Timestamp exceeds maximum length"),
    Matches(TimestampPattern, "Must be a valid ISO 8601 timestamp (e.g., 2024-01-15T10:30:00Z)")])

  const NotificationFilterShape: Shape :=
    map["all" := ZOptional(ZBoolean),
        "participating" := ZOptional(ZBoolean),
        "since" := ZOptional(TimestampSchema),
        "before" := ZOptional(TimestampSchema)]
    + PaginationShape

  // ---- what each validator accepts, in plain terms ----

  predicate ValidPageNumber(n: int) { 1 <= n <= 100 }

  predicate ValidOwner(s: string) {
    1 <= |s| <= 39 && AllIn(s, OwnerChar) && IsAlnum(s[0]) && IsAlnum(s[|s| - 1])
  }

  predicate ValidRepo(s: string) {
    1 <= |s| <= 100 && AllIn(s, RepoChar) && !Includes(s, "..") && s[0] != '.'
  }

  predicate ValidThreadId(s: string) {
    1 <= |s| <= 20 && AllIn(s, Digit)
  }

  /** An optional fraction `.d+`, possibly empty. */
  predicate IsFraction(f: string) {
    f == "" || (|f| >= 2 && f[0] == '.' && AllIn(f[1..], Digit))
  }

  /** The width of the zone that ends `s`: `Z` is one character, `+hh:mm` / `-hh:mm` six. */
  function ZoneWidth(s: string): nat {
    if |s| >= 1 && s[|s| - 1] == 'Z' then 1 else 6
  }

  /** The timestamp profile as a concatenation: date-time head, optional fraction, zone. */
  predicate TimestampForm(s: string) {
    var w := ZoneWidth(s);
    |s| >= 19 + w && MatchesTemplate(s[..19], TimestampHead) &&
    IsFraction(s[19..|s| - w]) && MatchesZone(s[|s| - w..])
  }

  predicate ValidTimestamp(s: string) {
    |s| <= 64 && TimestampForm(s)
  }

  /** A path segment that URL resolution keeps as it is and that cannot start another segment. */
  predicate SegmentSafe(s: string) {
    s != "" && s != "." && s != ".." && forall i :: 0 <= i < |s| ==> s[i] !in "/\\%?#"
  }

  // ---- regular-expression lemmas ----

  lemma {:induction false} PlusMeansAll(s: string, k: CharClass)
    ensures MatchesPlus(s, k) <==> |s| >= 1 && AllIn(s, k)
    decreases |s|
  {
    if |s| > 1 {
      PlusMeansAll(s[1..], k);
      assert forall i :: 1 <= i < |s| ==> s[i] == s[1..][i - 1];
    }
  }

  lemma {:induction false} OwnerTailMeans(s: string)
    ensures MatchesOwnerTail(s) <==> |s| >= 1 && AllIn(s, OwnerChar) && IsAlnum(s[|s| - 1])
    decreases |s|
  {
    if |s| > 1 {
      OwnerTailMeans(s[1..]);
      assert forall i :: 1 <= i < |s| ==> s[i] == s[1..][i - 1];
    }
  }

  /** The owner pattern: owner characters only, alphanumeric at both ends. */
  lemma OwnerRegexMeans(s: string)
    ensures MatchesOwnerRegex(s) <==> |s| >= 1 && AllIn(s, OwnerChar) && IsAlnum(s[0]) && IsAlnum(s[|s| - 1])
  {
    if |s| > 1 {
      OwnerTailMeans(s[1..]);
      assert forall i :: 1 <= i < |s| ==> s[i] == s[1..][i - 1];
    }
  }

  /** The character at each position of a template match. */
  lemma {:induction false} TemplateAt(s: string, template: string, i: nat)
    requires MatchesTemplate(s, template) && i < |s|
    ensures |template| == |s|
    ensures if template[i] == '#' then IsDigit(s[i]) else s[i] == template[i]
    decreases i
  {
    if i > 0 {
      TemplateAt(s[1..], template[1..], i - 1);
    }
  }

  /** A zone's last character tells its width. */
  lemma ZoneWidthOf(z: string)
    requires MatchesZone(z)
    ensures |z| == ZoneWidth(z)
  {
    if z != "Z" {
      TemplateAt(z[1..], "##:##", 4);
    }
  }

  lemma AllInCons(t: string, n: nat, k: CharClass)
    requires 1 <= n <= |t|
    ensures AllIn(t[..n], k) <==> InClass(t[0], k) && AllIn(t[1..][..n - 1], k)
  {
    var a := t[..n];
    var b := t[1..][..n - 1];
    assert forall i :: 1 <= i < n ==> a[i] == b[i - 1];
  }

  /** A run of at least one digit, then the zone. */
  predicate DigitsZoneForm(t: string) {
    var w := ZoneWidth(t);
    |t| > w && AllIn(t[..|t| - w], Digit) && MatchesZone(t[|t| - w..])
  }

  /** An optional fraction, then the zone. */
  predicate FractionZoneForm(t: string) {
    var w := ZoneWidth(t);
    |t| >= w && IsFraction(t[..|t| - w]) && MatchesZone(t[|t| - w..])
  }

  lemma {:induction false} DigitsThenZoneMeans(t: string)
    ensures MatchesDigitsThenZone(t) <==> DigitsZoneForm(t)
    decreases |t|
  {
    if |t| >= 2 {
      var w := ZoneWidth(t);
      var u := t[1..];
      assert ZoneWidth(u) == w;
      DigitsThenZoneMeans(u);
      if MatchesDigitsThenZone(t) {
        if MatchesZone(u) {
          ZoneWidthOf(u);
          assert t[|t| - w..] == u;
          AllInCons(t, 1, Digit);
        } else {
          assert u[|u| - w..] == t[|t| - w..];
          AllInCons(t, |t| - w, Digit);
        }
      }
      if DigitsZoneForm(t) {
        AllInCons(t, |t| - w, Digit);
        assert u[|u| - w..] == t[|t| - w..];
        if |t| - w == 1 {
          assert t[|t| - w..] == u;
        }
      }
    }
  }

  lemma FractionThenZoneMeans(t: string)
    ensures MatchesFractionThenZone(t) <==> FractionZoneForm(t)
  {
    var w := ZoneWidth(t);
    if MatchesZone(t) {
      ZoneWidthOf(t);
      assert t[|t| - w..] == t;
    }
    if |t| >= 2 {
      var u := t[1..];
      assert ZoneWidth(u) == w;
      DigitsThenZoneMeans(u);
      if |t| > w {
        assert u[|u| - w..] == t[|t| - w..];
        assert t[..|t| - w][1..] == u[..|u| - w];
      }
    }
    if FractionZoneForm(t) && |t| == w {
      assert t[|t| - w..] == t;
    }
  }

  lemma TimestampRegexMeans(s: string)
    ensures MatchesTimestampRegex(s) <==> TimestampForm(s)
  {
    if |s| >= 19 {
      var t := s[19..];
      var w := ZoneWidth(s);
      assert ZoneWidth(t) == w || |t| == 0;
      FractionThenZoneMeans(t);
      if |t| >= w {
        assert t[..|t| - w] == s[19..|s| - w];
        assert t[|t| - w..] == s[|s| - w..];
      }
    }
  }

  // ---- what each schema accepts ----

  /** `page` and `per_page`: absent, or an integer in [1, 100]. */
  lemma PaginationAccepts(v: Option<Json>)
    ensures Accepts(PageSchema, v) <==> v.None? || (v.value.JNum? && ValidPageNumber(v.value.n))
    ensures Accepts(PerPageSchema, v) <==> v.None? || (v.value.JNum? && ValidPageNumber(v.value.n))
  {
    if v.Some? && v.value.JNum? {
      RangeChecks(PageSchema.inner.numberChecks, v.value.n);
      RangeChecks(PerPageSchema.inner.numberChecks, v.value.n);
    }
  }

  /** An integer check followed by the bounds 1 and 100. */
  lemma RangeChecks(checks: seq<NumberCheck>, x: int)
    requires |checks| == 3 && checks[0].IsInteger? && checks[1].AtLeast? && checks[1].bound == 1
    requires checks[2].AtMost? && checks[2].bound == 100
    ensures NumberIssues(checks, x) == [] <==> ValidPageNumber(x)
  {
    assert NumberCheckHolds(checks[0], x);
    if ValidPageNumber(x) {
      assert forall i :: 0 <= i < |checks| ==> NumberCheckHolds(checks[i], x) by {
        assert NumberCheckHolds(checks[1], x) && NumberCheckHolds(checks[2], x);
      }
    } else {
      assert !NumberCheckHolds(checks[1], x) || !NumberCheckHolds(checks[2], x);
    }
  }

  lemma OwnerAccepts(s: string)
    ensures Accepts(OwnerSchema, Some(JStr(s))) <==> ValidOwner(s)
  {
    OwnerRegexMeans(s);
    var checks := OwnerSchema.stringChecks;
    assert |checks| == 3;
    assert StringCheckHolds(checks[0], s) <==> |s| >= 1;
    assert StringCheckHolds(checks[1], s) <==> |s| <= 39;
    assert StringCheckHolds(checks[2], s) <==> MatchesOwnerRegex(s);
  }

  /** The repository refinement adds only "no `..`, no leading `.`" to the character class. */
  lemma RepoRefinementOnRepoChars(s: string)
    requires |s| >= 1 && AllIn(s, RepoChar)
    ensures RefinementHolds(NoPathTraversal(""), s) <==> !Includes(s, "..") && s[0] != '.'
  {
    assert forall i :: 0 <= i < |s| ==> s[i] != '%' && s[i] != '\0' && s[i] != '/' && s[i] != '\\' by {
      forall i | 0 <= i < |s| ensures s[i] != '%' && s[i] != '\0' && s[i] != '/' && s[i] != '\\' {
        assert InClass(s[i], RepoChar);
      }
    }
    DecodeWithoutPercent(s);
    NoCharNoOccurrence(s, '\0');
    NoCharNoOccurrence(s, '/');
    NoCharNoOccurrence(s, '\\');
  }

  lemma NoCharNoOccurrence(s: string, c: char)
    requires forall i :: 0 <= i < |s| ==> s[i] != c
    ensures !Includes(s, [c])
  {
    forall i: nat ensures !OccursAt(s, [c], i) {
      if i + 1 <= |s| {
        assert s[i..i + 1] == [s[i]];
      }
    }
  }

  lemma RepoAccepts(s: string)
    ensures Accepts(RepoSchema, Some(JStr(s))) <==> ValidRepo(s)
  {
    var checks := RepoSchema.inner.stringChecks;
    PlusMeansAll(s, RepoChar);
    assert StringCheckHolds(checks[2], s) <==> MatchesPlus(s, RepoChar);
    if |s| >= 1 && AllIn(s, RepoChar) {
      RepoRefinementOnRepoChars(s);
    }
  }

  lemma ThreadIdAccepts(s: string)
    ensures Accepts(ThreadIdSchema, Some(JStr(s))) <==> ValidThreadId(s)
  {
    PlusMeansAll(s, Digit);
    var checks := ThreadIdSchema.stringChecks;
    assert |checks| == 3;
    assert StringCheckHolds(checks[0], s) <==> |s| >= 1;
    assert StringCheckHolds(checks[1], s) <==> |s| <= 20;
    assert StringCheckHolds(checks[2], s) <==> MatchesPlus(s, Digit);
  }

  lemma TimestampAccepts(s: string)
    ensures Accepts(TimestampSchema, Some(JStr(s))) <==> ValidTimestamp(s)
  {
    TimestampRegexMeans(s);
    var checks := TimestampSchema.stringChecks;
    assert StringCheckHolds(checks[1], s) <==> MatchesTimestampRegex(s);
  }

  /** Every accepted timestamp has between 20 and 64 characters. */
  lemma TimestampLength(s: string)
    requires ValidTimestamp(s)
    ensures 20 <= |s| <= 64
  {
  }

  /** Identifier strings are typed: a number or a missing value is never an owner, repo or thread id. */
  lemma IdentifiersAreStrings(v: Option<Json>)
    requires !(v.Some? && v.value.JStr?)
    ensures !Accepts(OwnerSchema, v) && !Accepts(RepoSchema, v) && !Accepts(ThreadIdSchema, v)
  {
  }

  // ---- composition ----

  /** `z.object({ ...a, ...b })` with disjoint field names accepts exactly what both accept. */
  lemma SpreadAccepts(a: Shape, b: Shape, raw: Record)
    requires a.Keys !! b.Keys
    ensures ObjectAccepts(a + b, raw) <==> ObjectAccepts(a, raw) && ObjectAccepts(b, raw)
  {
    if ObjectAccepts(a + b, raw) {
      forall k | k in a ensures Accepts(a[k], FieldOf(raw, k)) {
        assert k !in b;
        assert (a + b)[k] == a[k];
      }
    }
  }

  predicate OptionalBool(v: Option<Json>) { v.None? || v.value.JBool? }

  predicate OptionalTimestamp(v: Option<Json>) { v.None? || (v.value.JStr? && ValidTimestamp(v.value.s)) }

  predicate OptionalPage(v: Option<Json>) { v.None? || (v.value.JNum? && ValidPageNumber(v.value.n)) }

  lemma TimestampFieldAccepts(v: Option<Json>)
    ensures Accepts(ZOptional(TimestampSchema), v) <==> OptionalTimestamp(v)
  {
    if v.Some? && v.value.JStr? {
      TimestampAccepts(v.value.s);
    }
  }

  /** The notification filter accepts a record exactly when each of its fields is acceptable on its own. */
  lemma FilterAccepts(raw: Record)
    ensures ObjectAccepts(NotificationFilterShape, raw) <==>
      OptionalBool(FieldOf(raw, "all")) && OptionalBool(FieldOf(raw, "participating")) &&
      OptionalTimestamp(FieldOf(raw, "since")) && OptionalTimestamp(FieldOf(raw, "before")) &&
      OptionalPage(FieldOf(raw, "page")) && OptionalPage(FieldOf(raw, "per_page"))
  {
    FilterFields(raw);
    PaginationAccepts(FieldOf(raw, "page"));
    PaginationAccepts(FieldOf(raw, "per_page"));
    TimestampFieldAccepts(FieldOf(raw, "since"));
    TimestampFieldAccepts(FieldOf(raw, "before"));
  }

  /** The filter's six fields, each with its own schema. */
  lemma FilterFields(raw: Record)
    ensures ObjectAccepts(NotificationFilterShape, raw) <==>
      Accepts(ZOptional(ZBoolean), FieldOf(raw, "all")) && Accepts(ZOptional(ZBoolean), FieldOf(raw, "participating")) &&
      Accepts(ZOptional(TimestampSchema), FieldOf(raw, "since")) && Accepts(ZOptional(TimestampSchema), FieldOf(raw, "before")) &&
      Accepts(PageSchema, FieldOf(raw, "page")) && Accepts(PerPageSchema, FieldOf(raw, "per_page"))
  {
    var shape := NotificationFilterShape;
    assert shape.Keys == {"all", "participating", "since", "before", "page", "per_page"};
    assert shape["page"] == PageSchema && shape["per_page"] == PerPageSchema;
  }

  /** The repository identifier accepts a record exactly when owner and repo are valid strings. */
  lemma RepoIdentifierAccepts(raw: Record)
    ensures ObjectAccepts(RepoIdentifierShape, raw) <==>
      ("owner" in raw && raw["owner"].JStr? && ValidOwner(raw["owner"].s)) &&
      ("repo" in raw && raw["repo"].JStr? && ValidRepo(raw["repo"].s))
  {
    if "owner" in raw && raw["owner"].JStr? { OwnerAccepts(raw["owner"].s); }
    if "repo" in raw && raw["repo"].JStr? { RepoAccepts(raw["repo"].s); }
    assert RepoIdentifierShape.Keys == {"owner", "repo"};
  }

  // ---- segment safety ----

  lemma ValidOwnerIsSegmentSafe(s: string)
    requires ValidOwner(s)
    ensures SegmentSafe(s)
  {
    assert InClass(s[0], OwnerChar);
  }

  lemma ValidRepoIsSegmentSafe(s: string)
    requires ValidRepo(s)
    ensures SegmentSafe(s)
  {
    assert InClass(s[0], RepoChar);
  }

  lemma ValidThreadIdIsSegmentSafe(s: string)
    requires ValidThreadId(s)
    ensures SegmentSafe(s)
  {
    assert InClass(s[0], Digit);
  }

  // ---- the documented examples (each predicate is tied to its schema by the lemmas above) ----

  lemma OwnerExamples()
    ensures ValidOwner("nodejs") && ValidOwner("my-org")
    ensures !ValidOwner("") && !ValidOwner("../etc") && !ValidOwner(".hidden") && !ValidOwner("%2e%2e%2fetc")
  {
  }

  /** A pattern whose first character does not occur in `s` does not occur in `s`. */
  lemma FirstCharAbsent(s: string, pat: string)
    requires |pat| > 0 && pat[0] !in s
    ensures !Includes(s, pat)
  {
    IncludesAfterPrefix(s, "", pat);
    assert s + "" == s;
  }

  lemma RepoExamples()
    ensures ValidRepo("node") && ValidRepo("my-repo") && ValidRepo("passwd")
  {
    PlainRepoName("node");
    PlainRepoName("my-repo");
    PlainRepoName("passwd");
  }

  /** A name of letters, digits and hyphens within the length bound is a repository name. */
  lemma PlainRepoName(s: string)
    requires 1 <= |s| <= 100 && forall i :: 0 <= i < |s| ==> IsAlnum(s[i]) || s[i] == '-'
    ensures ValidRepo(s)
  {
    assert '.' !in s;
    FirstCharAbsent(s, "..");
  }

  /** The refinement is what rejects names that the character class lets through. */
  lemma RepoRefinementExamples()
    ensures AllIn("a..b", RepoChar) && !ValidRepo("a..b")
    ensures AllIn(".github", RepoChar) && !ValidRepo(".github")
  {
    assert OccursAt("a..b", "..", 1);
  }

  lemma ThreadIdExamples()
    ensures ValidThreadId("1234567890")
    ensures !ValidThreadId("abc123") && !ValidThreadId("") && !ValidThreadId("123456789012345678901")
  {
    assert !InClass("abc123"[0], Digit);
  }

  /** Date-only and free-form dates are too short to hold the date-time head and a zone. */
  lemma TimestampExamples()
    ensures !ValidTimestamp("2024-13-45") && !ValidTimestamp("Jan 15, 2024")
  {
  }

  /** Pages 1 and 100 pass; -1, 101 and 150 do not. */
  lemma PaginationExamples()
    ensures Accepts(PageSchema, Some(JNum(1))) && Accepts(PerPageSchema, Some(JNum(100)))
    ensures !Accepts(PageSchema, Some(JNum(-1))) && !Accepts(PageSchema, Some(JNum(101))) &&
      !Accepts(PerPageSchema, Some(JNum(150)))
  {
    PaginationAccepts(Some(JNum(1)));
    PaginationAccepts(Some(JNum(100)));
    PaginationAccepts(Some(JNum(-1)));
    PaginationAccepts(Some(JNum(101)));
    PaginationAccepts(Some(JNum(150)));
  }

  /** A record with no field at all is a valid filter. */
  lemma EmptyFilterAccepted()
    ensures ObjectAccepts(NotificationFilterShape, map[])
  {
    FilterAccepts(map[]);
  }
}
