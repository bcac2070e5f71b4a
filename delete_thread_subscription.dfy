/**
 * The delete-thread-subscription tool (src/tools/delete-thread-subscription.ts): a DELETE
 * of the thread's subscription, a fixed success text whatever the call resolves with, and
 * the same "404" test as get-thread-subscription in its `catch`.
 */
module DeleteThreadSubscription {
  import opened Wrappers
  import opened Text
  import opened Js
  import opened ApiQuery
  import opened Api
  import opened Formatters
  import opened Schemas
  import opened Tool

  /** `z.object({ thread_id: threadIdSchema })`. */
  const DeleteThreadShape: Shape := map["thread_id" := ThreadIdSchema]

  /** The schema accepts exactly a record whose `thread_id` is a validated thread id. */
  lemma DeleteThreadAccepts(raw: Record)
    ensures ObjectAccepts(DeleteThreadShape, raw) <==>
      "thread_id" in raw && raw["thread_id"].JStr? && ValidThreadId(raw["thread_id"].s)
  {
    assert DeleteThreadShape.Keys == {"thread_id"};
    assert ObjectAccepts(DeleteThreadShape, raw) <==> Accepts(ThreadIdSchema, FieldOf(raw, "thread_id"));
    if "thread_id" in raw && raw["thread_id"].JStr? {
      ThreadIdAccepts(raw["thread_id"].s);
    } else {
      IdentifiersAreStrings(FieldOf(raw, "thread_id"));
    }
  }

  function DeleteThreadRequest(cfg: Config, id: string): Request {
    GithubDelete(cfg, ThreadPath(id), NoOptions)
  }

  function UnsubscribedText(id: string): string { "Successfully unsubscribed from thread " + id + "." }

  function NotSubscribedText(id: string): string { "You were not subscribed to thread " + id + "." }

  function Failure(id: string): string { "Failed to unsubscribe from thread " + id }

  function DeleteThreadResponse(id: string, outcome: Outcome, test: NotFoundTest): ToolResponse {
    match outcome
    case Resolved(_) => SuccessResponse(UnsubscribedText(id))
    case Threw(e) =>
      if Benign(test, e) then SuccessResponse(NotSubscribedText(id)) else ErrorResponse(Failure(id), e)
  }

  /** `deleteThreadSubscriptionHandler` as written: only "404" in the text means "not subscribed". */
  function DeleteThreadAsWritten(cfg: Config, id: string, outcome: Outcome): Exchange {
    Exchange(DeleteThreadRequest(cfg, id), DeleteThreadResponse(id, outcome, Substring404))
  }

  /**
   * `deleteThreadSubscriptionHandler` with the test corrected to recognise the classifier's
   * 404: any answer is "unsubscribed", a failure the test calls benign is "not subscribed",
   * and every other failure is reported under the thread's prefix.
   */
  function DeleteThreadSubscriptionHandler(cfg: Config, id: string, outcome: Outcome): (ex: Exchange)
    ensures ex.request.verb == DELETE && ex.request.body.None? && ex.request.url == Url(ThreadPath(id), [])
    ensures outcome.Resolved? ==> ex.response == SuccessResponse(UnsubscribedText(id))
    ensures outcome.Threw? && Benign(ClassifierWording, outcome.error) ==> ex.response == SuccessResponse(NotSubscribedText(id))
    ensures outcome.Threw? && !Benign(ClassifierWording, outcome.error) ==> ex.response == ErrorResponse(Failure(id), outcome.error)
  {
    Exchange(DeleteThreadRequest(cfg, id), DeleteThreadResponse(id, outcome, ClassifierWording))
  }

  /** The request is a body-less DELETE of the thread's subscription. */
  lemma DeleteThreadRequestShape(cfg: Config, id: string, outcome: Outcome)
    ensures var r := DeleteThreadSubscriptionHandler(cfg, id, outcome).request;
      r.verb == DELETE && r.body.None? && r.url == BaseUrl + ThreadPath(id)
    ensures ValidThreadId(id) ==>
      Split(ThreadPath(id), '/') == ["", "notifications", "threads", id, "subscription"]
  {
    UrlShape(ThreadPath(id), []);
    if ValidThreadId(id) {
      ValidatedThreadPath(id);
    }
  }

  /** GitHub's 204 answer, or any other success, is reported as unsubscribed. */
  lemma Unsubscribed(cfg: Config, id: string, r: Response, host: Host)
    requires IsOk(r.status) && (NullBodyStatus(r.status) || r.body.Some?)
    ensures DeleteThreadSubscriptionHandler(cfg, id, OutcomeOf(r, host)).response ==
      SuccessResponse("Successfully unsubscribed from thread " + id + ".")
  {
  }

  /** Under either test, a failure that names no missing resource is an error under the thread's prefix. */
  lemma OtherFailure(cfg: Config, id: string, e: Thrown)
    requires !Benign(ClassifierWording, e)
    ensures DeleteThreadAsWritten(cfg, id, Threw(e)).response == ErrorResponse(Failure(id), e)
    ensures var resp := DeleteThreadSubscriptionHandler(cfg, id, Threw(e)).response;
      resp == ErrorResponse(Failure(id), e) &&
      StartsWith(resp.content[0], "Failed to unsubscribe from thread " + id + ": ")
  {
  }

  /** As written, a 404 is "not subscribed" only when GitHub's message happens to contain "404". */
  lemma NotFoundAsWritten(cfg: Config, id: string, r: Response, host: Host)
    requires r.status == 404 && r.body != Some(JNull)
    ensures DeleteThreadAsWritten(cfg, id, OutcomeOf(r, host)).response ==
      if Includes(UpstreamText(r), "404") then SuccessResponse(NotSubscribedText(id))
      else ErrorResponse(Failure(id), OutcomeOf(r, host).error)
  {
    NotFoundMentions404(r, host);
  }

  /** For GitHub's usual "Not Found" the code as written shows a failure instead of "not subscribed". */
  lemma MissingSubscriptionAsWritten(cfg: Config, id: string, host: Host)
    ensures DeleteThreadAsWritten(cfg, id, OutcomeOf(MissingSubscription, host)).response ==
      ErrorResponse(Failure(id), ErrorObject("Resource not found: " + "Not Found"))
    ensures DeleteThreadSubscriptionHandler(cfg, id, OutcomeOf(MissingSubscription, host)).response ==
      SuccessResponse(NotSubscribedText(id))
  {
    MissingSubscriptionMissed(host);
  }

  /** Corrected, every 404 (with a body that is not `null`) is answered "were not subscribed". */
  lemma NotFoundIsNotSubscribed(cfg: Config, id: string, r: Response, host: Host)
    requires r.status == 404 && r.body != Some(JNull)
    ensures DeleteThreadSubscriptionHandler(cfg, id, OutcomeOf(r, host)).response ==
      SuccessResponse("You were not subscribed to thread " + id + ".")
  {
    NotFoundMentions404(r, host);
  }
}
