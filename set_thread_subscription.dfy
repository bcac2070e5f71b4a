/**
 * The set-thread-subscription tool (src/tools/set-thread-subscription.ts): a PUT of the
 * `ignored` flag, which the schema defaults to `false`, and a success text whose verb says
 * which way the flag was set.
 */
module SetThreadSubscription {
  import opened Wrappers
  import opened Text
  import opened Js
  import opened ApiQuery
  import opened Api
  import opened Formatters
  import opened Schemas
  import opened Tool

  /** `z.boolean().optional().default(false)`. */
  const IgnoredSchema: Schema := ZDefault(ZOptional(ZBoolean), JBool(false))

  /** `z.object({ thread_id: threadIdSchema, ignored: ... })`. */
  const SetThreadShape: Shape := map["thread_id" := ThreadIdSchema, "ignored" := IgnoredSchema]

  /** The schema accepts a validated thread id with, optionally, a boolean `ignored`. */
  lemma SetThreadAccepts(raw: Record)
    ensures ObjectAccepts(SetThreadShape, raw) <==>
      "thread_id" in raw && raw["thread_id"].JStr? && ValidThreadId(raw["thread_id"].s) &&
      OptionalBool(FieldOf(raw, "ignored"))
  {
    assert SetThreadShape.Keys == {"thread_id", "ignored"};
    assert ObjectAccepts(SetThreadShape, raw) <==>
      Accepts(ThreadIdSchema, FieldOf(raw, "thread_id")) && Accepts(IgnoredSchema, FieldOf(raw, "ignored"));
    if "thread_id" in raw && raw["thread_id"].JStr? {
      ThreadIdAccepts(raw["thread_id"].s);
    } else {
      IdentifiersAreStrings(FieldOf(raw, "thread_id"));
    }
  }

  /** An accepted record always parses to a boolean `ignored`: the one given, or `false`. */
  lemma IgnoredDefault(raw: Record)
    requires ObjectAccepts(SetThreadShape, raw)
    ensures var p := ObjectParse(SetThreadShape, raw);
      p.Parsed? && "ignored" in p.fields &&
      p.fields["ignored"] == (if "ignored" in raw then raw["ignored"] else JBool(false))
  {
    var p := ObjectParse(SetThreadShape, raw);
    assert "ignored" in SetThreadShape;
    assert SafeParse(IgnoredSchema, FieldOf(raw, "ignored")).data ==
      Some(if "ignored" in raw then raw["ignored"] else JBool(false));
  }

  /** The parsed arguments. */
  datatype SetArgs = SetArgs(id: string, ignored: bool)

  function SetThreadRequest(cfg: Config, args: SetArgs): Request {
    GithubPut(cfg, ThreadPath(args.id), Some(JObject([("ignored", JBool(args.ignored))])), NoOptions)
  }

  const Lead := "Successfully updated subscription by "

  function Status(ignored: bool): string { if ignored then "ignoring" else "subscribing to" }

  function SuccessText(args: SetArgs, formatted: string): string {
    Lead + (Status(args.ignored) + (" thread " + args.id + ":\n\n" + formatted))
  }

  function Failure(args: SetArgs): string { "Failed to update subscription for thread " + args.id }

  function SetThreadResponse(args: SetArgs, outcome: Outcome, host: Host): ToolResponse {
    match outcome
    case Threw(e) => ErrorResponse(Failure(args), e)
    case Resolved(v) =>
      match FormatSubscription(v, host)
      case None => ErrorResponse(Failure(args), TypeError(host))
      case Some(text) => SuccessResponse(SuccessText(args, text))
  }

  /**
   * `setThreadSubscriptionHandler`: a PUT of exactly `{ignored}`; a readable answer is the
   * success text, and a failure or a `null` answer is reported under the thread's prefix.
   */
  function SetThreadSubscriptionHandler(cfg: Config, args: SetArgs, outcome: Outcome, host: Host): (ex: Exchange)
    ensures ex.request.verb == PUT && ex.request.url == Url(ThreadPath(args.id), [])
    ensures ex.request.body == Some(JObject([("ignored", JBool(args.ignored))]))
    ensures outcome.Resolved? && FormatSubscription(outcome.value, host).Some? ==>
      ex.response == SuccessResponse(SuccessText(args, FormatSubscription(outcome.value, host).value))
    ensures outcome.Threw? ==> ex.response == ErrorResponse(Failure(args), outcome.error)
    ensures ReportedUnder(ex.response, Failure(args))
  {
    Exchange(SetThreadRequest(cfg, args), SetThreadResponse(args, outcome, host))
  }

  /** The request is a PUT to the thread's subscription carrying exactly the `ignored` flag. */
  lemma SetThreadRequestShape(cfg: Config, args: SetArgs, outcome: Outcome, host: Host)
    ensures var r := SetThreadSubscriptionHandler(cfg, args, outcome, host).request;
      r.verb == PUT && r.url == BaseUrl + ThreadPath(args.id) &&
      r.body == Some(JObject([("ignored", JBool(args.ignored))]))
  {
    UrlShape(ThreadPath(args.id), []);
  }

  /** The success text says "ignoring" exactly when the flag was set, and "subscribing to" exactly when it was cleared. */
  lemma Wording(args: SetArgs, formatted: string)
    ensures StartsWith(SuccessText(args, formatted), Lead + "ignoring") <==> args.ignored
    ensures StartsWith(SuccessText(args, formatted), Lead + "subscribing to") <==> !args.ignored
  {
    var tail := " thread " + args.id + ":\n\n" + formatted;
    StartsWithCommon(Lead, Status(args.ignored) + tail, "ignoring");
    StartsWithCommon(Lead, Status(args.ignored) + tail, "subscribing to");
    if args.ignored {
      StartsWithConcat("ignoring", tail, "ignoring");
      DifferentFirst("ignoring", tail, "subscribing to");
    } else {
      StartsWithConcat("subscribing to", tail, "subscribing to");
      DifferentFirst("subscribing to", tail, "ignoring");
    }
  }

  /** A readable subscription is a success whose verb follows the flag; every failure is an error naming the thread. */
  lemma Answers(cfg: Config, args: SetArgs, v: Json, e: Thrown, host: Host)
    requires !v.JNull?
    ensures var resp := SetThreadSubscriptionHandler(cfg, args, Resolved(v), host).response;
      !IsErrorResponse(resp) && |resp.content| == 1 &&
      (StartsWith(resp.content[0], Lead + "ignoring") <==> args.ignored)
    ensures SetThreadSubscriptionHandler(cfg, args, Threw(e), host).response == ErrorResponse(Failure(args), e)
    ensures SetThreadSubscriptionHandler(cfg, args, Resolved(JNull), host).response == ErrorResponse(Failure(args), TypeError(host))
  {
    Wording(args, FormatSubscription(v, host).value);
  }
}
