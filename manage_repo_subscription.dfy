/**
 * The manage-repo-subscription tool (src/tools/manage-repo-subscription.ts): an action
 * chosen from four names picks the HTTP method and body for the repository's
 * subscription; `get` reports the current settings, and reads a failure whose text
 * contains "Resource not found" as "default settings".
 */
module ManageRepoSubscription {
  import opened Wrappers
  import opened Text
  import opened Js
  import opened ApiQuery
  import opened Api
  import opened Formatters
  import opened Schemas
  import opened Tool

  datatype Action = AllActivity | Default | Ignore | Get

  const ActionNames: seq<string> := ["all_activity", "default", "ignore", "get"]

  /** The enum literal of each action. */
  function ActionName(a: Action): string {
    match a
    case AllActivity => "all_activity"
    case Default => "default"
    case Ignore => "ignore"
    case Get => "get"
  }

  /** The action an accepted name denotes: the one whose literal it is. */
  function ActionOf(name: string): (a: Option<Action>)
    ensures a.Some? <==> name in ActionNames
    ensures a.Some? ==> ActionName(a.value) == name
  {
    if name == "all_activity" then Some(AllActivity)
    else if name == "default" then Some(Default)
    else if name == "ignore" then Some(Ignore)
    else if name == "get" then Some(Get)
    else None
  }

  /** Every action is denoted by its own literal, and the four literals are the enum's. */
  lemma ActionNameRoundTrip(a: Action)
    ensures ActionOf(ActionName(a)) == Some(a)
    ensures ActionName(a) in ActionNames
  {
  }

  /** `z.object({ ...repoIdentifierSchema, action: z.enum([...]) })`. */
  const ManageShape: Shape := RepoIdentifierShape + map["action" := ZEnum(ActionNames)]

  /** The schema accepts a valid owner and repository together with one of the four action names. */
  lemma ManageAccepts(raw: Record)
    ensures ObjectAccepts(ManageShape, raw) <==>
      ObjectAccepts(RepoIdentifierShape, raw) &&
      "action" in raw && raw["action"].JStr? && ActionOf(raw["action"].s).Some?
  {
    var actionShape: Shape := map["action" := ZEnum(ActionNames)];
    assert RepoIdentifierShape.Keys == {"owner", "repo"};
    SpreadAccepts(RepoIdentifierShape, actionShape, raw);
    ActionFieldAccepts(raw);
  }

  lemma ActionFieldAccepts(raw: Record)
    ensures ObjectAccepts(map["action" := ZEnum(ActionNames)], raw) <==>
      "action" in raw && raw["action"].JStr? && ActionOf(raw["action"].s).Some?
  {
    var actionShape: Shape := map["action" := ZEnum(ActionNames)];
    assert ObjectAccepts(actionShape, raw) <==> Accepts(ZEnum(ActionNames), FieldOf(raw, "action"));
  }

  /** The parsed arguments. */
  datatype ManageArgs = ManageArgs(owner: string, repo: string, action: Action)

  function SubscriptionBody(subscribed: bool, ignored: bool): Json {
    JObject([("subscribed", JBool(subscribed)), ("ignored", JBool(ignored))])
  }

  function ManageRequest(cfg: Config, args: ManageArgs): Request {
    var path := RepoPath(args.owner, args.repo, "subscription");
    match args.action
    case Get => GithubGet(cfg, path, NoOptions)
    case AllActivity => GithubPut(cfg, path, Some(SubscriptionBody(true, false)), NoOptions)
    case Default => GithubDelete(cfg, path, NoOptions)
    case Ignore => GithubPut(cfg, path, Some(SubscriptionBody(false, true)), NoOptions)
  }

  const SubscriptionLead := "\U{2022} API Subscription: "

  const Watching := "Watching all activity"

  const NotificationsLead := "\U{2022} Notifications: "

  /** The five lines of the `get` report. */
  function StatusLines(owner: string, repo: string, subscribed: bool, ignored: bool, created: string): seq<string> {
    ["Subscription status for " + owner + "/" + repo + ":",
     SubscriptionLead + (if subscribed then Watching else "Not watching"),
     NotificationsLead + (if ignored then "Ignored" else "Active"),
     "\U{2022} Created at: " + created,
     "\U{2022} Web Interface: https://github.com/" + owner + "/" + repo]
  }

  function StatusText(owner: string, repo: string, subscribed: bool, ignored: bool, created: string): string {
    Join(StatusLines(owner, repo, subscribed, ignored, created), "\n")
  }

  /** The answer to a `get` whose failure names a missing resource. */
  function DefaultSettingsText(owner: string, repo: string): string {
    "Subscription status for " + owner + "/" + repo + ":\n" +
    "\U{2022} Default settings (participating and @mentions only)\n" +
    "\U{2022} or Custom through the GitHub web interface at:\n" +
    "  https://github.com/" + owner + "/" + repo
  }

  function Failure(args: ManageArgs): string {
    "Failed to manage repository subscription for " + args.owner + "/" + args.repo
  }

  /** The inner `catch` of `get`, followed by the outer one for what it re-throws. */
  function GetCatch(args: ManageArgs, e: Thrown): ToolResponse {
    if ErrorIncludes(e, "Resource not found") then SuccessResponse(DefaultSettingsText(args.owner, args.repo))
    else ErrorResponse(Failure(args), e)
  }

  function ActionText(args: ManageArgs): string {
    match args.action
    case AllActivity => "Successfully set " + args.owner + "/" + args.repo + " to watch all activity"
    case Default => "Successfully set " + args.owner + "/" + args.repo + " to default settings (participating and @mentions only)"
    case Ignore => "Successfully set " + args.owner + "/" + args.repo + " to ignore all notifications"
    case Get => ""
  }

  function ManageResponse(args: ManageArgs, outcome: Outcome, host: Host): ToolResponse {
    match args.action
    case Get =>
      (match outcome
       case Threw(e) => GetCatch(args, e)
       case Resolved(v) =>
         if v.JNull? then GetCatch(args, TypeError(host))
         else SuccessResponse(StatusText(args.owner, args.repo, Truthy(Property(v, "subscribed")),
                                         Truthy(Property(v, "ignored")), host.dateText(Property(v, "created_at")))))
    case _ =>
      (match outcome
       case Threw(e) => ErrorResponse(Failure(args), e)
       case Resolved(_) => SuccessResponse(ActionText(args)))
  }

  /**
   * `manageRepoSubscriptionHandler`: the action picks the method; a changing action that
   * goes through reports its fixed text; a failure of `get` that names a missing resource
   * is the default-settings text; every other failure is reported under the prefix.
   */
  function ManageRepoSubscriptionHandler(cfg: Config, args: ManageArgs, outcome: Outcome, host: Host): (ex: Exchange)
    ensures ex.request.verb == PUT <==> args.action in {AllActivity, Ignore}
    ensures ex.request.verb == DELETE <==> args.action == Default
    ensures ex.request.verb == GET <==> args.action == Get
    ensures args.action != Get && outcome.Resolved? ==> ex.response == SuccessResponse(ActionText(args))
    ensures args.action == Get && outcome.Threw? && ErrorIncludes(outcome.error, "Resource not found") ==>
      ex.response == SuccessResponse(DefaultSettingsText(args.owner, args.repo))
    ensures outcome.Threw? && (args.action != Get || !ErrorIncludes(outcome.error, "Resource not found")) ==>
      ex.response == ErrorResponse(Failure(args), outcome.error)
    ensures ReportedUnder(ex.response, Failure(args))
  {
    Exchange(ManageRequest(cfg, args), ManageResponse(args, outcome, host))
  }

  /**
   * Each action's request on `/repos/{owner}/{repo}/subscription`: watching and ignoring
   * are PUTs of the two flags, the default settings are a DELETE, and `get` is a GET.
   */
  lemma ActionRequests(cfg: Config, args: ManageArgs)
    ensures var r := ManageRequest(cfg, args);
      r.url == BaseUrl + RepoPath(args.owner, args.repo, "subscription") &&
      (r.verb == PUT <==> args.action in {AllActivity, Ignore}) &&
      (r.verb == DELETE <==> args.action == Default) &&
      (r.verb == GET <==> args.action == Get) &&
      (args.action == AllActivity ==> r.body == Some(JObject([("subscribed", JBool(true)), ("ignored", JBool(false))]))) &&
      (args.action == Ignore ==> r.body == Some(JObject([("subscribed", JBool(false)), ("ignored", JBool(true))]))) &&
      (args.action in {Default, Get} ==> r.body.None?)
  {
    UrlShape(RepoPath(args.owner, args.repo, "subscription"), []);
  }

  /** What each accepted name asks of the API. */
  lemma NamedRequests(cfg: Config, owner: string, repo: string, name: string)
    requires ActionOf(name).Some?
    ensures var r := ManageRequest(cfg, ManageArgs(owner, repo, ActionOf(name).value));
      (name == "all_activity" ==> r.verb == PUT && r.body == Some(JObject([("subscribed", JBool(true)), ("ignored", JBool(false))]))) &&
      (name == "ignore" ==> r.verb == PUT && r.body == Some(JObject([("subscribed", JBool(false)), ("ignored", JBool(true))]))) &&
      (name == "default" ==> r.verb == DELETE && r.body.None?) &&
      (name == "get" ==> r.verb == GET && r.body.None?)
  {
    ActionRequests(cfg, ManageArgs(owner, repo, ActionOf(name).value));
  }

  /** No line of the report holds a line break when the owner, repository and date hold none. */
  lemma StatusLinesSingle(owner: string, repo: string, subscribed: bool, ignored: bool, created: string)
    requires '\n' !in owner && '\n' !in repo && '\n' !in created
    ensures forall p | p in StatusLines(owner, repo, subscribed, ignored, created) :: '\n' !in p
  {
    LeadPiecesSingle();
    TailPiecesSingle();
    var lines := StatusLines(owner, repo, subscribed, ignored, created);
    forall i | 0 <= i < 5 ensures '\n' !in lines[i] {
    }
  }

  lemma LeadPiecesSingle()
    ensures '\n' !in "Subscription status for " && '\n' !in SubscriptionLead && '\n' !in Watching
  {
  }

  lemma TailPiecesSingle()
    ensures '\n' !in NotificationsLead && '\n' !in "\U{2022} Created at: "
    ensures '\n' !in "\U{2022} Web Interface: https://github.com/"
  {
  }

  /**
   * The report splits back into its five lines: the second says "Watching all activity"
   * exactly for a subscribed repository, the third "Ignored" exactly for an ignored one.
   */
  lemma StatusLayout(owner: string, repo: string, subscribed: bool, ignored: bool, created: string)
    requires '\n' !in owner && '\n' !in repo && '\n' !in created
    ensures var lines := Split(StatusText(owner, repo, subscribed, ignored, created), '\n');
      lines == StatusLines(owner, repo, subscribed, ignored, created) &&
      (lines[1] == SubscriptionLead + Watching <==> subscribed) &&
      (lines[2] == NotificationsLead + "Ignored" <==> ignored)
  {
    StatusLinesSingle(owner, repo, subscribed, ignored, created);
    SplitJoin(StatusLines(owner, repo, subscribed, ignored, created), '\n');
  }

  /** The `get` report of a record the API returned shows "Watching all activity" exactly when it is subscribed and "Ignored" exactly when it is ignored. */
  lemma GetReport(cfg: Config, owner: string, repo: string, v: Json, host: Host)
    requires !v.JNull?
    requires '\n' !in owner && '\n' !in repo && '\n' !in host.dateText(Property(v, "created_at"))
    ensures var resp := ManageRepoSubscriptionHandler(cfg, ManageArgs(owner, repo, Get), Resolved(v), host).response;
      !IsErrorResponse(resp) && |resp.content| == 1 &&
      var lines := Split(resp.content[0], '\n');
      |lines| == 5 &&
      (lines[1] == SubscriptionLead + Watching <==> Truthy(Property(v, "subscribed"))) &&
      (lines[2] == NotificationsLead + "Ignored" <==> Truthy(Property(v, "ignored")))
  {
    StatusLayout(owner, repo, Truthy(Property(v, "subscribed")), Truthy(Property(v, "ignored")),
                 host.dateText(Property(v, "created_at")));
  }

  /** A genuine 404 (with a body that is not `null`) always takes the "default settings" path of `get`. */
  lemma NotFoundIsDefault(cfg: Config, owner: string, repo: string, r: Response, host: Host)
    requires r.status == 404 && r.body != Some(JNull)
    ensures ManageRepoSubscriptionHandler(cfg, ManageArgs(owner, repo, Get), OutcomeOf(r, host), host).response ==
      SuccessResponse(DefaultSettingsText(owner, repo))
  {
    NotFoundOutcome(r, host);
  }

  /** Every other failure, and every failure of the other actions, is an error under the repository's prefix. */
  lemma OtherFailures(cfg: Config, args: ManageArgs, e: Thrown, host: Host)
    requires args.action != Get || !ErrorIncludes(e, "Resource not found")
    ensures var resp := ManageRepoSubscriptionHandler(cfg, args, Threw(e), host).response;
      resp == ErrorResponse(Failure(args), e) &&
      StartsWith(resp.content[0], "Failed to manage repository subscription for " + args.owner + "/" + args.repo + ": ")
  {
  }

  /** The three changing actions report their own fixed text once the call succeeds, whatever it returned. */
  lemma ActionSuccess(cfg: Config, args: ManageArgs, v: Json, host: Host)
    requires args.action != Get
    ensures ManageRepoSubscriptionHandler(cfg, args, Resolved(v), host).response == SuccessResponse(ActionText(args))
  {
  }
}
