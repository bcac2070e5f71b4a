/**
 * The list-notifications tool (src/tools/list-notifications.ts): its input schema, the
 * `||` defaults for the page and the page size, the GET request it sends and the answer
 * it builds from the outcome.
 */
module ListNotifications {
  import opened Wrappers
  import opened Text
  import opened Js
  import opened ApiQuery
  import opened Api
  import opened Formatters
  import opened Schemas
  import opened Tool

  /** The tool's own schema: plain optional types, with no bound and no timestamp format. */
  const ListNotificationsShape: Shape :=
    map["all" := ZOptional(ZBoolean),
        "participating" := ZOptional(ZBoolean),
        "since" := ZOptional(ZString([])),
        "before" := ZOptional(ZString([])),
        "page" := ZOptional(ZNumber([])),
        "per_page" := ZOptional(ZNumber([]))]

  predicate OptionalString(v: Option<Json>) { v.None? || v.value.JStr? }

  predicate OptionalNumber(v: Option<Json>) { v.None? || v.value.JNum? }

  /** The schema checks types only: any string is a `since`, any integer a `page`. */
  lemma ListNotificationsAccepts(raw: Record)
    ensures ObjectAccepts(ListNotificationsShape, raw) <==>
      OptionalBool(FieldOf(raw, "all")) && OptionalBool(FieldOf(raw, "participating")) &&
      OptionalString(FieldOf(raw, "since")) && OptionalString(FieldOf(raw, "before")) &&
      OptionalNumber(FieldOf(raw, "page")) && OptionalNumber(FieldOf(raw, "per_page"))
  {
    assert ListNotificationsShape.Keys == {"all", "participating", "since", "before", "page", "per_page"};
  }

  /** Page 0, a page size of 1000 and a `since` that is no timestamp all pass this tool's schema, unlike the shared filter. */
  lemma UnboundedArguments()
    ensures var raw := map["page" := JNum(0), "per_page" := JNum(1000), "since" := JStr("yesterday")];
      ObjectAccepts(ListNotificationsShape, raw) && !ObjectAccepts(NotificationFilterShape, raw)
  {
    var raw := map["page" := JNum(0), "per_page" := JNum(1000), "since" := JStr("yesterday")];
    ListNotificationsAccepts(raw);
    FilterAccepts(raw);
    assert !OptionalPage(FieldOf(raw, "page"));
  }

  const DefaultPerPage := 50

  /** `args.per_page || 50` and `args.page || 1`. */
  function PerPage(args: Filter): int { NumberOr(args.perPage, DefaultPerPage) }

  function Page(args: Filter): int { NumberOr(args.page, 1) }

  const NotificationsPath := "/notifications"

  function ListRequest(cfg: Config, args: Filter): Request {
    GithubGet(cfg, NotificationsPath, Options(FilterParams(args, Page(args), PerPage(args)), []))
  }

  const EmptyText := "No notifications found with the given criteria."

  const Failure := "Failed to fetch notifications"

  function ListResponseOf(args: Filter, outcome: Outcome, host: Host): ToolResponse {
    ListResponse(outcome, host, Page(args), PerPage(args), EmptyText, "", Failure)
  }

  /**
   * `listNotificationsHandler`: a body-less GET of the filtered listing; an empty array is
   * the fixed text, and every error is reported under the fixed prefix.
   */
  function ListNotificationsHandler(cfg: Config, args: Filter, outcome: Outcome, host: Host): (ex: Exchange)
    ensures ex.request.verb == GET && ex.request.body.None?
    ensures ex.request.url == Url(NotificationsPath, FilterParams(args, Page(args), PerPage(args)))
    ensures outcome.Threw? ==> ex.response == ErrorResponse(Failure, outcome.error)
    ensures outcome == Resolved(JArray([])) ==> ex.response == SuccessResponse(EmptyText)
    ensures ReportedUnder(ex.response, Failure)
  {
    Exchange(ListRequest(cfg, args), ListResponseOf(args, outcome, host))
  }

  /** A missing or zero size means 50 and a missing or zero page means 1; any other value is sent as given. */
  lemma Defaults(args: Filter)
    ensures PerPage(args) == (if args.perPage.None? || args.perPage == Some(0) then 50 else args.perPage.value)
    ensures Page(args) == (if args.page.None? || args.page == Some(0) then 1 else args.page.value)
  {
  }

  /**
   * The request is a body-less GET of `/notifications` whose query always names the page and
   * the page size with their defaults applied, and names each other filter exactly when given.
   */
  lemma ListRequestShape(cfg: Config, args: Filter)
    ensures var r := ListRequest(cfg, args);
      r.verb == GET && r.body.None? &&
      r.url == Url(NotificationsPath, FilterParams(args, Page(args), PerPage(args)))
    ensures var q := QueryPairs(FilterParams(args, Page(args), PerPage(args)));
      ("page", IntToString(Page(args))) in q && ("per_page", IntToString(PerPage(args))) in q &&
      (forall t :: ("since", t) in q <==> args.since == Some(t)) &&
      (forall t :: ("before", t) in q <==> args.before == Some(t)) &&
      (forall t :: ("all", t) in q <==> args.all.Some? && t == (if args.all.value then "true" else "false")) &&
      (forall t :: ("participating", t) in q <==>
        args.participating.Some? && t == (if args.participating.value then "true" else "false"))
  {
    FilterQuery(args, Page(args), PerPage(args));
  }

  /** With no arguments the query is exactly `page=1&per_page=50`. */
  lemma DefaultQuery()
    ensures QueryPairs(FilterParams(Filter(None, None, None, None, None, None), 1, 50)) ==
      [("page", "1"), ("per_page", "50")]
  {
    var ps := FilterParams(Filter(None, None, None, None, None, None), 1, 50);
    var unset := ps[..4];
    AllOmitted(unset);
    assert ps == unset + [ps[4]] + [ps[5]];
    QueryPairsAppend(unset + [ps[4]], [ps[5]]);
    QueryPairsAppend(unset, [ps[4]]);
    assert IntToString(1) == "1";
    assert NatToString(50) == NatToString(5) + [DigitChar(0)];
    assert IntToString(50) == "50";
    assert QueryPairs(unset + [ps[4]]) == [("page", "1")];
  }

  /** An empty array is answered with the fixed message; every failure under the fixed prefix. */
  lemma EmptyAndFailure(cfg: Config, args: Filter, host: Host, e: Thrown)
    ensures ListNotificationsHandler(cfg, args, Resolved(JArray([])), host).response ==
      SuccessResponse(EmptyText)
    ensures ListNotificationsHandler(cfg, args, Threw(e), host).response ==
      ErrorResponse(Failure, e)
  {
  }

  /**
   * For a non-empty page of formattable records, the answer counts them, and ends with a hint
   * naming the next page exactly when the count equals the page size in effect.
   */
  lemma NextPageHint(cfg: Config, args: Filter, items: seq<Json>, host: Host)
    requires items != [] && forall i :: 0 <= i < |items| ==> FormatNotification(items[i], host).Some?
    ensures var resp := ListNotificationsHandler(cfg, args, Resolved(JArray(items)), host).response;
      !IsErrorResponse(resp) && |resp.content| == 1 &&
      StartsWith(resp.content[0], Heading(|items|, "")) &&
      (PageHint(|items|, Page(args), PerPage(args)) != "" <==> |items| == PerPage(args)) &&
      (|items| == PerPage(args) ==> Includes(resp.content[0], "page: " + IntToString(Page(args) + 1) + "'"))
  {
    FormattedPage(items, host, Page(args), PerPage(args), EmptyText, "", Failure);
  }

  /** A record that cannot be formatted turns the whole answer into the TypeError's error response. */
  lemma UnformattableRecord(cfg: Config, args: Filter, items: seq<Json>, host: Host, i: nat)
    requires i < |items| && FormatNotification(items[i], host).None?
    ensures ListNotificationsHandler(cfg, args, Resolved(JArray(items)), host).response ==
      ErrorResponse(Failure, TypeError(host))
  {
    assert items != [];
  }

  /** A rejected token reaches the user as the classifier's own text under the tool's prefix. */
  lemma UnauthorizedAnswer(cfg: Config, args: Filter, r: Response, host: Host)
    requires r.status == 401
    ensures ListNotificationsHandler(cfg, args, OutcomeOf(r, host), host).response.content ==
      [Failure + ": " + "Authentication failed. Please check your GitHub token."]
  {
  }
}
