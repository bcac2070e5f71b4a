/**
 * What the tool handlers share: the outcome of their single API call, the request and
 * response they produce, the thread and repository paths they build, and the body of the
 * two notification-listing handlers, which differ only in their texts.
 */
module Tool {
  import opened Wrappers
  import opened Text
  import opened Js
  import opened ApiQuery
  import opened Api
  import opened Formatters
  import opened Schemas

  /**
   * How the `await` of a handler's API call ends: with the value it resolves with, or with
   * what it throws (a classified failure, the SyntaxError of an unreadable body, or anything
   * `fetch` itself raises).
   */
  datatype Outcome = Resolved(value: Json) | Threw(error: Thrown)

  /** The outcome of a call whose response reached `handleResponse`. */
  function OutcomeOf(r: Response, host: Host): (o: Outcome)
    ensures o.Resolved? <==> IsOk(r.status) && (NullBodyStatus(r.status) || r.body.Some?)
    ensures o.Resolved? && NullBodyStatus(r.status) ==> o.value == JObject([])
    ensures o.Resolved? && !NullBodyStatus(r.status) ==> Some(o.value) == r.body
    ensures o.Threw? && !IsOk(r.status) ==> o.error == ErrorObject(ErrorMessage(ClassifyError(r), host))
    ensures o.Threw? && IsOk(r.status) ==> o.error == ErrorObject(host.badJsonText)
  {
    var res := Classify(r);
    if res.Succeeded? then Resolved(res.value) else Threw(Rejection(res, host))
  }

  /** The same, through the classifier as written (only 204 is answered without reading the body). */
  function OutcomeAsWritten(r: Response, host: Host): (o: Outcome)
    ensures r.status != 205 ==> o == OutcomeOf(r, host)
  {
    var res := ClassifyAsWritten(r);
    if res.Succeeded? then Resolved(res.value) else Threw(Rejection(res, host))
  }

  /** What a handler does: the request it sends and the response it returns. */
  datatype Exchange = Exchange(request: Request, response: ToolResponse)

  /** `error instanceof Error && error.message.includes(pat)`. */
  predicate ErrorIncludes(e: Thrown, pat: string) {
    e.ErrorObject? && Includes(e.message, pat)
  }

  /** The TypeError that reading a property of `null` or `undefined` raises. */
  function TypeError(host: Host): Thrown {
    ErrorObject(host.typeErrorText)
  }

  /** The text of the error a 404 is thrown as contains "Resource not found". */
  lemma NotFoundOutcome(r: Response, host: Host)
    requires r.status == 404 && r.body != Some(JNull)
    ensures OutcomeOf(r, host) == Threw(ErrorObject("Resource not found: " + UpstreamText(r)))
    ensures ErrorIncludes(OutcomeOf(r, host).error, "Resource not found")
  {
    NotFoundMessage(r, host);
    var m := "Resource not found: " + UpstreamText(r);
    assert m[..18] == "Resource not found";
    assert OccursAt(m, "Resource not found", 0);
  }

  /**
   * How the `catch` of a thread-subscription handler recognises a missing subscription: as
   * written, by "404" in the error text; corrected, also by the classifier's own wording for
   * a 404, which never contains the status number.
   */
  datatype NotFoundTest = Substring404 | ClassifierWording

  predicate Benign(test: NotFoundTest, e: Thrown) {
    match test
    case Substring404 => ErrorIncludes(e, "404")
    case ClassifierWording => ErrorIncludes(e, "404") || ErrorIncludes(e, "Resource not found")
  }

  /** The error a 404 is thrown as mentions "404" only when the upstream message itself does. */
  lemma NotFoundMentions404(r: Response, host: Host)
    requires r.status == 404 && r.body != Some(JNull)
    ensures Benign(Substring404, OutcomeOf(r, host).error) <==> Includes(UpstreamText(r), "404")
    ensures Benign(ClassifierWording, OutcomeOf(r, host).error)
  {
    NotFoundOutcome(r, host);
    NoFourInLead();
    IncludesAfterPrefix("Resource not found: ", UpstreamText(r), "404");
  }

  lemma NoFourInLead()
    ensures '4' !in "Resource not found: "
  {
  }

  /** GitHub's own answer to a missing subscription: a 404 whose message is "Not Found". */
  const MissingSubscription := Response(404, Some("4999"), None, Some(JObject([("message", JStr("Not Found"))])))

  /** That answer is not recognised by the test as written, and is by the corrected one. */
  lemma MissingSubscriptionMissed(host: Host)
    ensures OutcomeOf(MissingSubscription, host) == Threw(ErrorObject("Resource not found: " + "Not Found"))
    ensures !Benign(Substring404, OutcomeOf(MissingSubscription, host).error)
    ensures Benign(ClassifierWording, OutcomeOf(MissingSubscription, host).error)
  {
    NotFoundMentions404(MissingSubscription, host);
    NotFoundText();
  }

  lemma NotFoundText()
    ensures UpstreamText(MissingSubscription) == "Not Found"
    ensures !Includes("Not Found", "404")
  {
    IncludesAfterPrefix("Not Found", "", "404");
    assert "Not Found" + "" == "Not Found";
  }

  // ---- paths ----

  /** The absolute path of the given segments: each one after a `/`. */
  function Absolute(segments: seq<string>): string {
    if segments == [] then "" else "/" + segments[0] + Absolute(segments[1..])
  }

  /** `/notifications/threads/${id}/subscription`. */
  function ThreadPath(id: string): string {
    Absolute(["notifications", "threads", id, "subscription"])
  }

  /** `/repos/${owner}/${repo}/${leaf}`. */
  function RepoPath(owner: string, repo: string, leaf: string): string {
    Absolute(["repos", owner, repo, leaf])
  }

  /** An absolute path of separator-free segments splits back into them, after an empty first part. */
  lemma SplitAbsolute(segments: seq<string>)
    requires segments != [] && forall i :: 0 <= i < |segments| ==> '/' !in segments[i]
    ensures Split(Absolute(segments), '/') == [""] + segments
  {
    assert Absolute(segments) == "" + "/" + (segments[0] + Absolute(segments[1..]));
    SplitAfterFirst("", '/', segments[0] + Absolute(segments[1..]));
    SplitSegments(segments);
  }

  lemma {:induction false} SplitSegments(segments: seq<string>)
    requires segments != [] && forall i :: 0 <= i < |segments| ==> '/' !in segments[i]
    ensures Split(segments[0] + Absolute(segments[1..]), '/') == segments
    decreases |segments|
  {
    var tail := segments[1..];
    if tail == [] {
      assert segments[0] + Absolute(tail) == segments[0];
      SplitWithoutSeparator(segments[0], '/');
    } else {
      assert segments[0] + Absolute(tail) == segments[0] + "/" + (tail[0] + Absolute(tail[1..]));
      SplitAfterFirst(segments[0], '/', tail[0] + Absolute(tail[1..]));
      SplitSegments(tail);
      assert segments == [segments[0]] + tail;
    }
  }

  /** With a validated owner and repository the path has exactly the four intended segments. */
  lemma ValidatedRepoPath(owner: string, repo: string, leaf: string)
    requires ValidOwner(owner) && ValidRepo(repo) && '/' !in leaf
    ensures Split(RepoPath(owner, repo, leaf), '/') == ["", "repos", owner, repo, leaf]
  {
    ValidOwnerIsSegmentSafe(owner);
    ValidRepoIsSegmentSafe(repo);
    SplitAbsolute(["repos", owner, repo, leaf]);
  }

  /** A validated thread id cannot leave its path segment. */
  lemma ValidatedThreadPath(id: string)
    requires ValidThreadId(id)
    ensures Split(ThreadPath(id), '/') == ["", "notifications", "threads", id, "subscription"]
  {
    ValidThreadIdIsSegmentSafe(id);
    SplitAbsolute(["notifications", "threads", id, "subscription"]);
  }

  // ---- the notification filter as the list handlers receive it ----

  /** The parsed filter arguments; `None` is an omitted field. */
  datatype Filter = Filter(
    all: Option<bool>, participating: Option<bool>, since: Option<string>, before: Option<string>,
    page: Option<int>, perPage: Option<int>)

  function BoolParam(v: Option<bool>): ParamValue {
    if v.Some? then PBool(v.value) else PUndefined
  }

  function StringParam(v: Option<string>): ParamValue {
    if v.Some? then PStr(v.value) else PUndefined
  }

  /** The `params` object of both list handlers, in its written order. */
  function FilterParams(f: Filter, page: int, perPage: int): seq<(string, ParamValue)> {
    [("all", BoolParam(f.all)), ("participating", BoolParam(f.participating)),
     ("since", StringParam(f.since)), ("before", StringParam(f.before)),
     ("page", PNum(page)), ("per_page", PNum(perPage))]
  }

  /**
   * The query of a list request: page and per_page always, each other filter exactly when it
   * was given, with its value as text.
   */
  lemma FilterQuery(f: Filter, page: int, perPage: int)
    ensures var q := QueryPairs(FilterParams(f, page, perPage));
      ("page", IntToString(page)) in q && ("per_page", IntToString(perPage)) in q &&
      (forall t :: ("all", t) in q <==> f.all.Some? && t == (if f.all.value then "true" else "false")) &&
      (forall t :: ("participating", t) in q <==> f.participating.Some? && t == (if f.participating.value then "true" else "false")) &&
      (forall t :: ("since", t) in q <==> f.since == Some(t)) &&
      (forall t :: ("before", t) in q <==> f.before == Some(t))
  {
    PagingQuery(f, page, perPage);
    BoolFilterQuery(f, page, perPage);
    var ps := FilterParams(f, page, perPage);
    var q := QueryPairs(ps);
    forall t ensures ("since", t) in q <==> f.since == Some(t) {
      QueryPairsMembers(ps, ("since", t));
      assert ps[2] == ("since", StringParam(f.since));
    }
    forall t ensures ("before", t) in q <==> f.before == Some(t) {
      QueryPairsMembers(ps, ("before", t));
      assert ps[3] == ("before", StringParam(f.before));
    }
  }

  lemma PagingQuery(f: Filter, page: int, perPage: int)
    ensures var q := QueryPairs(FilterParams(f, page, perPage));
      ("page", IntToString(page)) in q && ("per_page", IntToString(perPage)) in q
  {
    var ps := FilterParams(f, page, perPage);
    QueryPairsMembers(ps, ("page", IntToString(page)));
    assert ps[4] == ("page", PNum(page));
    QueryPairsMembers(ps, ("per_page", IntToString(perPage)));
    assert ps[5] == ("per_page", PNum(perPage));
  }

  lemma BoolFilterQuery(f: Filter, page: int, perPage: int)
    ensures var q := QueryPairs(FilterParams(f, page, perPage));
      (forall t :: ("all", t) in q <==> f.all.Some? && t == (if f.all.value then "true" else "false")) &&
      (forall t :: ("participating", t) in q <==> f.participating.Some? && t == (if f.participating.value then "true" else "false"))
  {
    var ps := FilterParams(f, page, perPage);
    var q := QueryPairs(ps);
    forall t ensures ("all", t) in q <==> f.all.Some? && t == (if f.all.value then "true" else "false") {
      QueryPairsMembers(ps, ("all", t));
      assert ps[0] == ("all", BoolParam(f.all));
    }
    forall t ensures ("participating", t) in q <==> f.participating.Some? && t == (if f.participating.value then "true" else "false") {
      QueryPairsMembers(ps, ("participating", t));
      assert ps[1] == ("participating", BoolParam(f.participating));
    }
  }

  // ---- the body shared by the two list handlers ----

  /**
   * How `value.length === 0` and `value.map(...)` fare on the resolved value: an array gives
   * its items; an empty string or an object whose `length` is 0 is "empty" but has no `map`;
   * anything else (including `null`, whose `length` cannot be read) makes the handler throw
   * a TypeError.
   */
  datatype Listing = Items(items: seq<Json>) | EmptyNonArray | NotAList

  function ListingOf(v: Json): Listing {
    match v
    case JArray(items) => Items(items)
    case JStr(s) => if s == "" then EmptyNonArray else NotAList
    case JObject(_) => if Property(v, "length") == Some(JNum(0)) then EmptyNonArray else NotAList
    case _ => NotAList
  }

  /** All the values, when none is missing. */
  function Collect<T>(os: seq<Option<T>>): (r: Option<seq<T>>)
    ensures r.Some? <==> forall i :: 0 <= i < |os| ==> os[i].Some?
    ensures r.Some? ==> |r.value| == |os| && forall i :: 0 <= i < |os| ==> Some(r.value[i]) == os[i]
    decreases |os|
  {
    if os == [] then Some([])
    else
      var rest := Collect(os[1..]);
      assert forall i :: 1 <= i < |os| ==> os[1..][i - 1] == os[i];
      if os[0].None? || rest.None? then None else Some([os[0].value] + rest.value)
  }

  /** `items.map(formatNotification)`, or `None` when formatting one of them throws. */
  function FormatEach(items: seq<Json>, host: Host): (r: Option<seq<string>>)
    ensures r.Some? <==> forall i :: 0 <= i < |items| ==> FormatNotification(items[i], host).Some?
    ensures r.Some? ==> |r.value| == |items|
    ensures r.Some? ==> forall i :: 0 <= i < |items| ==> Some(r.value[i]) == FormatNotification(items[i], host)
  {
    var rendered := seq(|items|, i requires 0 <= i < |items| => FormatNotification(items[i], host));
    assert forall i :: 0 <= i < |items| ==> rendered[i] == FormatNotification(items[i], host);
    Collect(rendered)
  }

  /** `b` occurs in `a + (b + c)`. */
  lemma IncludesMiddle(a: string, b: string, c: string)
    ensures Includes(a + (b + c), b)
  {
    assert (b + c)[..|b|] == b;
    assert OccursAt(b + c, b, 0);
    IncludesInSuffix(a, b + c, b);
  }

  const HintLead := "\n\nMore notifications may be available. You can view the next page by specifying '"

  /** The next-page hint, naming the page after `page`, when a full page came back. */
  function PageHint(count: nat, page: int, perPage: int): (hint: string)
    ensures hint != "" <==> count == perPage
    ensures count == perPage ==> Includes(hint, "page: " + IntToString(page + 1) + "'")
  {
    if count == perPage then
      var named := "page: " + IntToString(page + 1) + "'";
      IncludesMiddle(HintLead, named, " in the request.");
      HintLead + (named + " in the request.")
    else ""
  }

  /** The first line of a listing and the blank line after it. */
  function Heading(count: nat, scope: string): string {
    IntToString(count) + " notifications found" + scope + ":\n\n"
  }

  /** The success text for a non-empty page: the heading, the renderings and the hint. */
  function ListText(count: nat, scope: string, texts: seq<string>, page: int, perPage: int): string {
    Heading(count, scope) + Join(texts, "\n\n") + PageHint(count, page, perPage)
  }

  /** The text opens with the count and ends with the hint, which names `page + 1` exactly on a full page. */
  lemma ListTextShape(count: nat, scope: string, texts: seq<string>, page: int, perPage: int)
    ensures var text := ListText(count, scope, texts, page, perPage);
      StartsWith(text, Heading(count, scope)) &&
      (count == perPage ==> Includes(text, "page: " + IntToString(page + 1) + "'"))
  {
    ListTextHeading(Heading(count, scope), Join(texts, "\n\n"), PageHint(count, page, perPage));
    if count == perPage {
      IncludesInSuffix(Heading(count, scope) + Join(texts, "\n\n"), PageHint(count, page, perPage),
                       "page: " + IntToString(page + 1) + "'");
    }
  }

  lemma ListTextHeading(head: string, body: string, hint: string)
    ensures StartsWith(head + body + hint, head)
  {
    assert head + body + hint == head + (body + hint);
    StartsWithConcat(head, body + hint, head);
  }

  /** What the handler answers once it holds the items of a non-empty array. */
  function ItemsResponse(items: seq<Json>, host: Host, page: int, perPage: int, scope: string, failure: string): (resp: ToolResponse)
    requires items != []
    ensures IsErrorResponse(resp) <==> exists i :: 0 <= i < |items| && FormatNotification(items[i], host).None?
    ensures IsErrorResponse(resp) ==> resp == ErrorResponse(failure, TypeError(host))
    ensures !IsErrorResponse(resp) ==> resp == SuccessResponse(ListText(|items|, scope, FormatEach(items, host).value, page, perPage))
  {
    match FormatEach(items, host)
    case None => ErrorResponse(failure, TypeError(host))
    case Some(texts) => SuccessResponse(ListText(|items|, scope, texts, page, perPage))
  }

  /**
   * The try block of a list handler after its defaults are set. `emptyText` is the answer to
   * an empty result, `scope` follows "notifications found", and `failure` prefixes every
   * error.
   */
  function ListResponse(outcome: Outcome, host: Host, page: int, perPage: int,
                        emptyText: string, scope: string, failure: string): (resp: ToolResponse)
    ensures outcome.Threw? ==> resp == ErrorResponse(failure, outcome.error)
    ensures outcome == Resolved(JArray([])) ==> resp == SuccessResponse(emptyText)
    ensures outcome.Resolved? && outcome.value.JArray? && outcome.value.items != [] ==>
      resp == ItemsResponse(outcome.value.items, host, page, perPage, scope, failure)
    ensures outcome.Resolved? && ListingOf(outcome.value).NotAList? ==> resp == ErrorResponse(failure, TypeError(host))
    ensures ReportedUnder(resp, failure)
  {
    match outcome
    case Threw(e) => ErrorResponse(failure, e)
    case Resolved(v) =>
      match ListingOf(v)
      case EmptyNonArray => SuccessResponse(emptyText)
      case NotAList => ErrorResponse(failure, TypeError(host))
      case Items(items) =>
        if items == [] then SuccessResponse(emptyText) else ItemsResponse(items, host, page, perPage, scope, failure)
  }

  /** A non-empty page of formattable records is a success that opens with the count and, when full, names the next page. */
  lemma FormattedPage(items: seq<Json>, host: Host, page: int, perPage: int,
                      emptyText: string, scope: string, failure: string)
    requires items != [] && forall i :: 0 <= i < |items| ==> FormatNotification(items[i], host).Some?
    ensures var resp := ListResponse(Resolved(JArray(items)), host, page, perPage, emptyText, scope, failure);
      !IsErrorResponse(resp) && |resp.content| == 1 &&
      StartsWith(resp.content[0], Heading(|items|, scope)) &&
      (|items| == perPage ==> Includes(resp.content[0], "page: " + IntToString(page + 1) + "'"))
  {
    ListTextShape(|items|, scope, FormatEach(items, host).value, page, perPage);
  }
}
