/**
 * The list-repo-notifications tool (src/tools/list-repo-notifications.ts): the shared
 * repository identifier and notification filter spread into one schema, a page size that
 * defaults to 30, and the same listing logic as list-notifications under texts that name
 * the repository.
 */
module ListRepoNotifications {
  import opened Wrappers
  import opened Text
  import opened Js
  import opened ApiQuery
  import opened Api
  import opened Formatters
  import opened Schemas
  import opened Tool

  /** `z.object({ ...repoIdentifierSchema, ...notificationFilterSchema })`. */
  const ListRepoShape: Shape := RepoIdentifierShape + NotificationFilterShape

  /** The spread schema accepts a record exactly when both of its parts do. */
  lemma ListRepoAccepts(raw: Record)
    ensures ObjectAccepts(ListRepoShape, raw) <==>
      ObjectAccepts(RepoIdentifierShape, raw) && ObjectAccepts(NotificationFilterShape, raw)
  {
    assert RepoIdentifierShape.Keys == {"owner", "repo"};
    assert NotificationFilterShape.Keys == {"all", "participating", "since", "before", "page", "per_page"};
    SpreadAccepts(RepoIdentifierShape, NotificationFilterShape, raw);
  }

  /** In plain terms: a valid owner and repository, and every filter field acceptable on its own. */
  lemma ListRepoAcceptsFields(raw: Record)
    ensures ObjectAccepts(ListRepoShape, raw) <==>
      ("owner" in raw && raw["owner"].JStr? && ValidOwner(raw["owner"].s)) &&
      ("repo" in raw && raw["repo"].JStr? && ValidRepo(raw["repo"].s)) &&
      OptionalBool(FieldOf(raw, "all")) && OptionalBool(FieldOf(raw, "participating")) &&
      OptionalTimestamp(FieldOf(raw, "since")) && OptionalTimestamp(FieldOf(raw, "before")) &&
      OptionalPage(FieldOf(raw, "page")) && OptionalPage(FieldOf(raw, "per_page"))
  {
    ListRepoAccepts(raw);
    RepoIdentifierAccepts(raw);
    FilterAccepts(raw);
  }

  /** The parsed arguments: the repository and the filter. */
  datatype RepoListArgs = RepoListArgs(owner: string, repo: string, filter: Filter)

  const DefaultPerPage := 30

  /** `args.per_page || 30` and `args.page || 1`. */
  function PerPage(args: RepoListArgs): int { NumberOr(args.filter.perPage, DefaultPerPage) }

  function Page(args: RepoListArgs): int { NumberOr(args.filter.page, 1) }

  function Path(args: RepoListArgs): string { RepoPath(args.owner, args.repo, "notifications") }

  function ListRepoRequest(cfg: Config, args: RepoListArgs): Request {
    GithubGet(cfg, Path(args), Options(FilterParams(args.filter, Page(args), PerPage(args)), []))
  }

  function EmptyText(args: RepoListArgs): string {
    "No notifications found for repository " + args.owner + "/" + args.repo + " with the given criteria."
  }

  function Failure(args: RepoListArgs): string {
    "Failed to fetch notifications for repository " + args.owner + "/" + args.repo
  }

  function Scope(args: RepoListArgs): string { " for repository " + args.owner + "/" + args.repo }

  function ListRepoResponse(args: RepoListArgs, outcome: Outcome, host: Host): ToolResponse {
    ListResponse(outcome, host, Page(args), PerPage(args), EmptyText(args), Scope(args), Failure(args))
  }

  /**
   * `listRepoNotificationsHandler`: a body-less GET of the repository's filtered listing; an
   * empty array names the repository, and every error is reported under its prefix.
   */
  function ListRepoNotificationsHandler(cfg: Config, args: RepoListArgs, outcome: Outcome, host: Host): (ex: Exchange)
    ensures ex.request.verb == GET && ex.request.body.None?
    ensures ex.request.url == Url(Path(args), FilterParams(args.filter, Page(args), PerPage(args)))
    ensures outcome.Threw? ==> ex.response == ErrorResponse(Failure(args), outcome.error)
    ensures outcome == Resolved(JArray([])) ==> ex.response == SuccessResponse(EmptyText(args))
    ensures ReportedUnder(ex.response, Failure(args))
  {
    Exchange(ListRepoRequest(cfg, args), ListRepoResponse(args, outcome, host))
  }

  /** A missing or zero size means 30 here, and a missing or zero page means 1. */
  lemma Defaults(args: RepoListArgs)
    ensures PerPage(args) == (if args.filter.perPage.None? || args.filter.perPage == Some(0) then 30 else args.filter.perPage.value)
    ensures Page(args) == (if args.filter.page.None? || args.filter.page == Some(0) then 1 else args.filter.page.value)
  {
  }

  /**
   * The request is a body-less GET of the repository's notifications, the same query as the
   * account-wide listing, and for validated arguments a path of exactly four segments.
   */
  lemma ListRepoRequestShape(cfg: Config, args: RepoListArgs)
    ensures var r := ListRepoRequest(cfg, args);
      r.verb == GET && r.body.None? &&
      r.url == Url(Path(args), FilterParams(args.filter, Page(args), PerPage(args)))
    ensures ValidOwner(args.owner) && ValidRepo(args.repo) ==>
      Split(Path(args), '/') == ["", "repos", args.owner, args.repo, "notifications"]
  {
    if ValidOwner(args.owner) && ValidRepo(args.repo) {
      ValidatedRepoPath(args.owner, args.repo, "notifications");
    }
  }

  /** An empty array names the repository; every failure is reported under the repository's prefix. */
  lemma EmptyAndFailure(cfg: Config, args: RepoListArgs, host: Host, e: Thrown)
    ensures ListRepoNotificationsHandler(cfg, args, Resolved(JArray([])), host).response ==
      SuccessResponse("No notifications found for repository " + args.owner + "/" + args.repo + " with the given criteria.")
    ensures var resp := ListRepoNotificationsHandler(cfg, args, Threw(e), host).response;
      resp == ErrorResponse(Failure(args), e) &&
      StartsWith(resp.content[0], "Failed to fetch notifications for repository " + args.owner + "/" + args.repo + ": ")
  {
  }

  /** A full page of formattable records ends with the hint naming the next page; a shorter one has none. */
  lemma NextPageHint(cfg: Config, args: RepoListArgs, items: seq<Json>, host: Host)
    requires items != [] && forall i :: 0 <= i < |items| ==> FormatNotification(items[i], host).Some?
    ensures var resp := ListRepoNotificationsHandler(cfg, args, Resolved(JArray(items)), host).response;
      !IsErrorResponse(resp) && |resp.content| == 1 &&
      StartsWith(resp.content[0], Heading(|items|, " for repository " + args.owner + "/" + args.repo)) &&
      (PageHint(|items|, Page(args), PerPage(args)) != "" <==> |items| == PerPage(args)) &&
      (|items| == PerPage(args) ==> Includes(resp.content[0], "page: " + IntToString(Page(args) + 1) + "'"))
  {
    FormattedPage(items, host, Page(args), PerPage(args), EmptyText(args), Scope(args), Failure(args));
  }
}
