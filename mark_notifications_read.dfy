/**
 * The mark-notifications-read tool (src/tools/mark-notifications-read.ts): a PUT of
 * `/notifications` with the optional cut-off time and the `read` flag (which the schema
 * defaults to `true`), answered with GitHub's own message when it sends one and with a
 * fixed text otherwise.
 */
module MarkNotificationsRead {
  import opened Wrappers
  import opened Text
  import opened Js
  import opened ApiQuery
  import opened Api
  import opened Formatters
  import opened Schemas
  import opened Tool

  /** `z.boolean().optional().default(true)`. */
  const ReadSchema: Schema := ZDefault(ZOptional(ZBoolean), JBool(true))

  /** `z.object({ last_read_at: timestampSchema.optional(), read: ... })`. */
  const MarkReadShape: Shape := map["last_read_at" := ZOptional(TimestampSchema), "read" := ReadSchema]

  /** The schema accepts an optional timestamp and an optional boolean, and nothing else matters. */
  lemma MarkReadAccepts(raw: Record)
    ensures ObjectAccepts(MarkReadShape, raw) <==>
      OptionalTimestamp(FieldOf(raw, "last_read_at")) && OptionalBool(FieldOf(raw, "read"))
  {
    assert MarkReadShape.Keys == {"last_read_at", "read"};
    assert ObjectAccepts(MarkReadShape, raw) <==>
      Accepts(ZOptional(TimestampSchema), FieldOf(raw, "last_read_at")) && Accepts(ReadSchema, FieldOf(raw, "read"));
    TimestampFieldAccepts(FieldOf(raw, "last_read_at"));
  }

  /** An accepted record always parses to a boolean `read`: the one given, or `true`. */
  lemma ReadDefault(raw: Record)
    requires ObjectAccepts(MarkReadShape, raw)
    ensures var p := ObjectParse(MarkReadShape, raw);
      p.Parsed? && "read" in p.fields &&
      p.fields["read"] == (if "read" in raw then raw["read"] else JBool(true)) &&
      ("last_read_at" in p.fields <==> "last_read_at" in raw)
  {
    assert "read" in MarkReadShape && "last_read_at" in MarkReadShape;
    assert SafeParse(ReadSchema, FieldOf(raw, "read")).data ==
      Some(if "read" in raw then raw["read"] else JBool(true));
    MarkReadAccepts(raw);
  }

  /** The parsed arguments; `None` is an omitted `last_read_at`. */
  datatype MarkReadArgs = MarkReadArgs(lastReadAt: Option<string>, read: bool)

  const NotificationsPath := "/notifications"

  /** `JSON.stringify` of `{ last_read_at, read }`, which drops an undefined `last_read_at`. */
  function MarkReadBody(args: MarkReadArgs): Json {
    JObject((if args.lastReadAt.Some? then [("last_read_at", JStr(args.lastReadAt.value))] else []) +
            [("read", JBool(args.read))])
  }

  function MarkReadRequest(cfg: Config, args: MarkReadArgs): Request {
    GithubPut(cfg, NotificationsPath, Some(MarkReadBody(args)), NoOptions)
  }

  const Lead := "Successfully marked notifications as "

  function Word(read: bool): string { if read then "read" else "unread" }

  function Marked(args: MarkReadArgs): string { Lead + (Word(args.read) + ".") }

  /** The sentence about the cut-off time, present exactly when `last_read_at` is a non-empty text. */
  function CutOff(args: MarkReadArgs, host: Host): string {
    if args.lastReadAt.Some? && args.lastReadAt.value != "" then
      " Notifications updated on or before " + (host.dateText(Some(JStr(args.lastReadAt.value))) + " were affected.")
    else ""
  }

  function DefaultText(args: MarkReadArgs, host: Host): string { Marked(args) + CutOff(args, host) }

  const Failure := "Failed to mark notifications as read"

  function MarkReadResponse(args: MarkReadArgs, outcome: Outcome, host: Host): ToolResponse {
    match outcome
    case Threw(e) => ErrorResponse(Failure, e)
    case Resolved(v) =>
      if v.JNull? then ErrorResponse(Failure, TypeError(host))
      else if Truthy(Property(v, "message")) then SuccessResponse(Template(Property(v, "message")))
      else SuccessResponse(DefaultText(args, host))
  }

  /**
   * `markNotificationsReadHandler`, its call classified as corrected: a PUT of `/notifications`;
   * a truthy `message` in the answer is passed on, otherwise the fixed text; every error is
   * reported under the fixed prefix.
   */
  function MarkNotificationsReadHandler(cfg: Config, args: MarkReadArgs, r: Response, host: Host): (ex: Exchange)
    ensures ex.request.verb == PUT && ex.request.body == Some(MarkReadBody(args))
    ensures ex.request.url == Url(NotificationsPath, [])
    ensures OutcomeOf(r, host).Resolved? && !OutcomeOf(r, host).value.JNull? ==>
      var v := OutcomeOf(r, host).value;
      ex.response == SuccessResponse(if Truthy(Property(v, "message")) then Template(Property(v, "message")) else DefaultText(args, host))
    ensures ReportedUnder(ex.response, Failure)
  {
    Exchange(MarkReadRequest(cfg, args), MarkReadResponse(args, OutcomeOf(r, host), host))
  }

  /** The same, its call classified as written. */
  function MarkReadAsWritten(cfg: Config, args: MarkReadArgs, r: Response, host: Host): Exchange {
    Exchange(MarkReadRequest(cfg, args), MarkReadResponse(args, OutcomeAsWritten(r, host), host))
  }

  /** The request is a PUT of `/notifications` whose body names the cut-off time exactly when one was given, and always the flag. */
  lemma MarkReadRequestShape(cfg: Config, args: MarkReadArgs, r: Response, host: Host)
    ensures var req := MarkNotificationsReadHandler(cfg, args, r, host).request;
      req.verb == PUT && req.url == BaseUrl + NotificationsPath &&
      req.body.Some? && req.body.value.JObject? &&
      var ms := req.body.value.members;
      ms[|ms| - 1] == ("read", JBool(args.read)) &&
      (args.lastReadAt.Some? <==> |ms| == 2) &&
      (args.lastReadAt.Some? ==> ms[0] == ("last_read_at", JStr(args.lastReadAt.value)))
  {
    UrlShape(NotificationsPath, []);
  }

  /** The fixed text starts with "read." exactly when `read` is set, and with "unread." exactly when it is cleared. */
  lemma DefaultWording(args: MarkReadArgs, host: Host)
    ensures StartsWith(DefaultText(args, host), Lead + "read.") <==> args.read
    ensures StartsWith(DefaultText(args, host), Lead + "unread.") <==> !args.read
  {
    var cut := CutOff(args, host);
    var rest := (Word(args.read) + ".") + cut;
    assert DefaultText(args, host) == Lead + rest;
    StartsWithCommon(Lead, rest, "read.");
    StartsWithCommon(Lead, rest, "unread.");
    if args.read {
      FirstWord("read.", cut, "unread.");
    } else {
      FirstWord("unread.", cut, "read.");
    }
  }

  lemma FirstWord(word: string, cut: string, other: string)
    requires |word| > 0 && |other| > 0 && word[0] != other[0]
    ensures StartsWith(word + cut, word) && !StartsWith(word + cut, other)
  {
    assert (word + cut)[..|word|] == word;
    assert (word + cut)[0] == word[0];
  }

  /** The fixed text ends with the date sentence exactly for a given, non-empty time. */
  lemma CutOffWording(args: MarkReadArgs, host: Host)
    ensures args.lastReadAt.None? ==> DefaultText(args, host) == Marked(args)
    ensures args.lastReadAt.Some? && args.lastReadAt.value != "" ==>
      Includes(DefaultText(args, host), host.dateText(Some(JStr(args.lastReadAt.value))) + " were affected.")
  {
    if args.lastReadAt.Some? && args.lastReadAt.value != "" {
      var sentence := host.dateText(Some(JStr(args.lastReadAt.value))) + " were affected.";
      assert OccursAt(sentence, sentence, 0);
      IncludesInSuffix(" Notifications updated on or before ", sentence, sentence);
      IncludesInSuffix(Marked(args), CutOff(args, host), sentence);
    }
  }

  /** Any successful answer carrying a non-empty `message` text is passed on as it is. */
  lemma AsyncMessage(cfg: Config, args: MarkReadArgs, r: Response, host: Host, m: string)
    requires IsOk(r.status) && !NullBodyStatus(r.status) && r.body.Some? && !r.body.value.JNull?
    requires Property(r.body.value, "message") == Some(JStr(m)) && m != ""
    ensures MarkNotificationsReadHandler(cfg, args, r, host).response == SuccessResponse(m)
  {
  }

  /** GitHub's 202 answer, whose `message` says the marking goes on in the background. */
  lemma AsyncExample(cfg: Config, args: MarkReadArgs, r: Response, host: Host, m: string)
    requires r.status == 202 && r.body == Some(JObject([("message", JStr(m))])) && m != ""
    ensures MarkNotificationsReadHandler(cfg, args, r, host).response == SuccessResponse(m)
  {
    assert Property(r.body.value, "message") == Some(JStr(m));
    AsyncMessage(cfg, args, r, host, m);
  }

  /** Without a truthy `message` the fixed text is the answer. */
  lemma FixedTextWithoutMessage(cfg: Config, args: MarkReadArgs, r: Response, host: Host)
    requires IsOk(r.status) && !NullBodyStatus(r.status) && r.body.Some? && !r.body.value.JNull?
    requires !Truthy(Property(r.body.value, "message"))
    ensures MarkNotificationsReadHandler(cfg, args, r, host).response == SuccessResponse(DefaultText(args, host))
  {
  }

  /** GitHub's 205 answer carries no body: corrected it is the fixed success text, as written it is a failure. */
  lemma ResetContent(cfg: Config, args: MarkReadArgs, host: Host)
    ensures var r := Response(205, Some("4999"), None, None);
      MarkNotificationsReadHandler(cfg, args, r, host).response == SuccessResponse(DefaultText(args, host)) &&
      MarkReadAsWritten(cfg, args, r, host).response == ErrorResponse(Failure, ErrorObject(host.badJsonText))
  {
    var r := Response(205, Some("4999"), None, None);
    ResetContentRejected();
    assert Property(JObject([]), "message").None?;
  }

  /** Every failure is reported under the fixed prefix, whatever `read` was. */
  lemma FailurePrefix(cfg: Config, args: MarkReadArgs, r: Response, host: Host)
    requires !IsOk(r.status)
    ensures var resp := MarkNotificationsReadHandler(cfg, args, r, host).response;
      resp == ErrorResponse(Failure, ErrorObject(ErrorMessage(ClassifyError(r), host))) &&
      StartsWith(resp.content[0], Failure + ": ")
  {
  }

  /** A `null` answer cannot be asked for its `message`: the TypeError is reported under the fixed prefix. */
  lemma NullAnswer(cfg: Config, args: MarkReadArgs, r: Response, host: Host)
    requires IsOk(r.status) && !NullBodyStatus(r.status) && r.body == Some(JNull)
    ensures MarkNotificationsReadHandler(cfg, args, r, host).response == ErrorResponse(Failure, TypeError(host))
  {
  }
}
