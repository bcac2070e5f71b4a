/**
 * The get-thread-subscription tool (src/tools/get-thread-subscription.ts): a GET of the
 * thread's subscription, rendered by `formatSubscription`, and a `catch` that answers
 * "not subscribed" for an error it takes for a 404.
 */
module GetThreadSubscription {
  import opened Wrappers
  import opened Text
  import opened Js
  import opened ApiQuery
  import opened Api
  import opened Formatters
  import opened Schemas
  import opened Tool

  /** `z.object({ thread_id: threadIdSchema })`. */
  const GetThreadShape: Shape := map["thread_id" := ThreadIdSchema]

  /** The schema accepts exactly a record whose `thread_id` is a validated thread id. */
  lemma GetThreadAccepts(raw: Record)
    ensures ObjectAccepts(GetThreadShape, raw) <==>
      "thread_id" in raw && raw["thread_id"].JStr? && ValidThreadId(raw["thread_id"].s)
  {
    assert GetThreadShape.Keys == {"thread_id"};
    assert ObjectAccepts(GetThreadShape, raw) <==> Accepts(ThreadIdSchema, FieldOf(raw, "thread_id"));
    if "thread_id" in raw && raw["thread_id"].JStr? {
      ThreadIdAccepts(raw["thread_id"].s);
    } else {
      IdentifiersAreStrings(FieldOf(raw, "thread_id"));
    }
  }

  function GetThreadRequest(cfg: Config, id: string): Request {
    GithubGet(cfg, ThreadPath(id), NoOptions)
  }

  function Header(id: string): string { "Subscription status for thread " + id + ":\n\n" }

  function NotSubscribedText(id: string): string { "You are not subscribed to thread " + id + "." }

  function Failure(id: string): string { "Failed to fetch subscription for thread " + id }

  /** The `catch` block under the given test for a missing subscription. */
  function Catch(id: string, e: Thrown, test: NotFoundTest): ToolResponse {
    if Benign(test, e) then SuccessResponse(NotSubscribedText(id)) else ErrorResponse(Failure(id), e)
  }

  /** The handler's answer; a record `formatSubscription` cannot read throws its TypeError into the `catch`. */
  function GetThreadResponse(id: string, outcome: Outcome, host: Host, test: NotFoundTest): ToolResponse {
    match outcome
    case Threw(e) => Catch(id, e, test)
    case Resolved(v) =>
      match FormatSubscription(v, host)
      case None => Catch(id, TypeError(host), test)
      case Some(text) => SuccessResponse(Header(id) + text)
  }

  /** `getThreadSubscriptionHandler` as written: only "404" in the text means "not subscribed". */
  function GetThreadAsWritten(cfg: Config, id: string, outcome: Outcome, host: Host): Exchange {
    Exchange(GetThreadRequest(cfg, id), GetThreadResponse(id, outcome, host, Substring404))
  }

  /**
   * `getThreadSubscriptionHandler` with the test corrected to recognise the classifier's 404:
   * a readable subscription is shown under the thread's header, a failure the test calls
   * benign is "not subscribed", and every error is reported under the thread's prefix.
   */
  function GetThreadSubscriptionHandler(cfg: Config, id: string, outcome: Outcome, host: Host): (ex: Exchange)
    ensures ex.request.verb == GET && ex.request.body.None? && ex.request.url == Url(ThreadPath(id), [])
    ensures outcome.Resolved? && FormatSubscription(outcome.value, host).Some? ==>
      ex.response == SuccessResponse(Header(id) + FormatSubscription(outcome.value, host).value)
    ensures outcome.Threw? && Benign(ClassifierWording, outcome.error) ==> ex.response == SuccessResponse(NotSubscribedText(id))
    ensures outcome.Threw? && !Benign(ClassifierWording, outcome.error) ==> ex.response == ErrorResponse(Failure(id), outcome.error)
    ensures ReportedUnder(ex.response, Failure(id))
  {
    Exchange(GetThreadRequest(cfg, id), GetThreadResponse(id, outcome, host, ClassifierWording))
  }

  /** The request is a body-less GET of the thread's subscription, whose path keeps a validated id in one segment. */
  lemma GetThreadRequestShape(cfg: Config, id: string, outcome: Outcome, host: Host)
    ensures var r := GetThreadSubscriptionHandler(cfg, id, outcome, host).request;
      r.verb == GET && r.body.None? && r.url == BaseUrl + ThreadPath(id)
    ensures ValidThreadId(id) ==>
      Split(ThreadPath(id), '/') == ["", "notifications", "threads", id, "subscription"]
  {
    UrlShape(ThreadPath(id), []);
    if ValidThreadId(id) {
      ValidatedThreadPath(id);
    }
  }

  /** A readable subscription is shown under a header naming the thread. */
  lemma SubscriptionShown(cfg: Config, id: string, v: Json, host: Host)
    requires !v.JNull?
    ensures var resp := GetThreadSubscriptionHandler(cfg, id, Resolved(v), host).response;
      resp == SuccessResponse(Header(id) + FormatSubscription(v, host).value) &&
      StartsWith(resp.content[0], "Subscription status for thread " + id + ":\n\n")
  {
    var text := FormatSubscription(v, host).value;
    StartsWithConcat(Header(id), text, Header(id));
  }

  /** Under either test, an error whose text contains "404" means "not subscribed". */
  lemma Mentions404(cfg: Config, id: string, e: Thrown, host: Host)
    requires ErrorIncludes(e, "404")
    ensures GetThreadAsWritten(cfg, id, Threw(e), host).response == SuccessResponse(NotSubscribedText(id))
    ensures GetThreadSubscriptionHandler(cfg, id, Threw(e), host).response == SuccessResponse(NotSubscribedText(id))
  {
  }

  /** Under either test, a failure that names no missing resource is an error under the thread's prefix. */
  lemma OtherFailure(cfg: Config, id: string, e: Thrown, host: Host)
    requires !Benign(ClassifierWording, e)
    ensures GetThreadAsWritten(cfg, id, Threw(e), host).response == ErrorResponse(Failure(id), e)
    ensures var resp := GetThreadSubscriptionHandler(cfg, id, Threw(e), host).response;
      resp == ErrorResponse(Failure(id), e) &&
      StartsWith(resp.content[0], "Failed to fetch subscription for thread " + id + ": ")
  {
  }

  /** As written, a 404 is "not subscribed" only when GitHub's message happens to contain "404". */
  lemma NotFoundAsWritten(cfg: Config, id: string, r: Response, host: Host)
    requires r.status == 404 && r.body != Some(JNull)
    ensures GetThreadAsWritten(cfg, id, OutcomeOf(r, host), host).response ==
      if Includes(UpstreamText(r), "404") then SuccessResponse(NotSubscribedText(id))
      else ErrorResponse(Failure(id), OutcomeOf(r, host).error)
  {
    NotFoundMentions404(r, host);
  }

  /** For GitHub's usual "Not Found" the code as written shows a failure instead of "not subscribed". */
  lemma MissingSubscriptionAsWritten(cfg: Config, id: string, host: Host)
    ensures GetThreadAsWritten(cfg, id, OutcomeOf(MissingSubscription, host), host).response ==
      ErrorResponse(Failure(id), ErrorObject("Resource not found: " + "Not Found"))
    ensures GetThreadSubscriptionHandler(cfg, id, OutcomeOf(MissingSubscription, host), host).response ==
      SuccessResponse(NotSubscribedText(id))
  {
    MissingSubscriptionMissed(host);
  }

  /** Corrected, every 404 (with a body that is not `null`) is answered "not subscribed". */
  lemma NotFoundIsNotSubscribed(cfg: Config, id: string, r: Response, host: Host)
    requires r.status == 404 && r.body != Some(JNull)
    ensures GetThreadSubscriptionHandler(cfg, id, OutcomeOf(r, host), host).response ==
      SuccessResponse("You are not subscribed to thread " + id + ".")
  {
    NotFoundMentions404(r, host);
  }

  /** A `null` subscription is read as a TypeError, an error under the thread's prefix unless its text mentions a 404. */
  lemma NullSubscription(cfg: Config, id: string, host: Host)
    requires !Benign(ClassifierWording, TypeError(host))
    ensures GetThreadSubscriptionHandler(cfg, id, Resolved(JNull), host).response ==
      ErrorResponse(Failure(id), TypeError(host))
  {
  }
}
