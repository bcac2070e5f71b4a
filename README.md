# GitHub notifications MCP server, modelled in Dafny

This project models the core of an MCP server that exposes GitHub's notifications API as
tools. It covers:

- the input validators, written as zod schemas;
- the request layer (`buildUrl`, the header and body assembly of the four HTTP helpers, and
  `handleResponse`, which classifies a response);
- the response formatters;
- the decision logic of seven tool handlers.

Each handler is a pure function: it takes the parsed arguments and the outcome of its one API
call, and gives back the request it sends together with the tool response it returns.

Modules, one per file:

- `Wrappers` (`wrappers.dfy`): `Option`.
- `Text` (`text.dfy`): `includes`, `indexOf`, `startsWith` and the first-occurrence `replace`,
  together with their lemmas. It also holds `Join` and a `Split` on one character, which the
  layout lemmas use to read a rendered text back into lines; the source never splits.
- `Js` (`js.dfy`): the JavaScript values the code handles. This covers JSON values, property
  access, truthiness, `String(n)`, `parseInt` and `v || d`. `Host` groups the engine- and
  locale-dependent texts the model does not compute.
- `Schemas` (`schemas.dfy`): a small zod. It has a `Schema` datatype, `SafeParse`, and the
  object shapes as maps, where a spread is a map union. Every shared schema is tied to a plain
  predicate (`ValidOwner`, `ValidRepo`, `ValidThreadId`, `ValidTimestamp`, `ValidPageNumber`).
- `ApiQuery` (`api_query.dfy`): the form-urlencoded serializer of section 5.2 of the WHATWG
  URL Standard, its parser, and `buildUrl`. `buildUrl` is a method with a loop, proved
  against the function `Url`.
- `Api` (`api.dfy`): header merging, the GET/PUT/PATCH/DELETE request descriptors, and the
  response classifier `Classify`, together with the message text of each classified error.
- `Formatters` (`formatters.dfy`): `convertApiUrlToHtmlUrl`, including the global
  `/pulls/(\d+)(\/?.*)` rewrite; `describeReason`; `formatNotification` and
  `formatSubscription`; `formatError`; and the two response builders.
- `Tool` (`tool.dfy`): what the handlers share. This is the `Outcome` of the API call, the
  `Exchange` a handler produces, the thread and repository paths, the test a `catch` uses to
  recognise a missing resource, and the body common to the two listing handlers.
- One module per tool handler: `ListNotifications`, `ListRepoNotifications`,
  `ManageRepoSubscription`, `GetThreadSubscription`, `DeleteThreadSubscription`,
  `SetThreadSubscription` and `MarkNotificationsRead`.

The network is a parameter. A handler receives either the `Outcome` of its call, or the
abstract `Response` (status, `x-ratelimit-remaining`, `x-ratelimit-reset`, and a parsed or
unparseable body), which `Tool.OutcomeOf` passes through the classifier.

The source treats 204 as the only success without a body, and its thread-subscription handlers
recognise a missing subscription by a text that the classifier never produces. The model
writes both as they are written and corrects both; see "## Findings". Everything else follows
the code. Where the code and its documentation differ, the code was followed.

## Model

| member | source | states |
|---|---|---|
| Schemas.PaginationAccepts | src/utils/schemas.ts:6-19 | `page` and `per_page` are each accepted exactly when absent or a number in [1, 100] |
| Schemas.PaginationExamples | src/utils/schemas.ts:6-19 | 1 and 100 are accepted; -1, 101 and 150 are rejected |
| Schemas.OwnerRegexMeans | src/utils/schemas.ts:28-31 | the owner regex matches exactly the non-empty strings of letters, digits and `-` whose first and last characters are alphanumeric |
| Schemas.OwnerAccepts | src/utils/schemas.ts:25-32 | the owner schema accepts a string exactly when it has 1 to 39 characters and the owner pattern holds |
| Schemas.OwnerExamples | src/utils/schemas.ts:25-32 | `nodejs` and `my-org` are owners; ``, `../etc`, `.hidden` and `%2e%2e%2fetc` are not |
| Schemas.DecodeWithoutPercent | src/utils/schemas.ts:42 | `decodeURIComponent` is the identity on a string without `%` |
| Schemas.RepoRefinementOnRepoChars | src/utils/schemas.ts:36-50 | on strings of the repository character class, the traversal refinement holds exactly when there is no `..` and no leading `.`; the NUL, `/` and `\` tests can never fail there |
| Schemas.RepoAccepts | src/utils/schemas.ts:33-51 | the repo schema accepts a string exactly when it has 1 to 100 characters from `[A-Za-z0-9._-]`, no `..`, and does not start with `.` |
| Schemas.RepoExamples | src/utils/schemas.ts:33-51 | `node`, `my-repo` and `passwd` are accepted repository names |
| Schemas.RepoRefinementExamples | src/utils/schemas.ts:40-50 | `a..b` and `.github` pass the character class but are rejected by the refinement |
| Schemas.ThreadIdAccepts | src/utils/schemas.ts:57-61 | a thread id is accepted exactly when it has 1 to 20 characters, all ASCII digits |
| Schemas.ThreadIdExamples | src/utils/schemas.ts:57-61 | `1234567890` is accepted; `abc123`, `` and a 21-digit id are rejected |
| Schemas.TimestampRegexMeans | src/utils/schemas.ts:68-71 | the timestamp regex matches exactly `DDDD-DD-DDTDD:DD:DD`, then an optional `.D+`, then `Z` or `±DD:DD`; there are no range checks |
| Schemas.TimestampAccepts | src/utils/schemas.ts:66-72 | the timestamp schema accepts a string exactly when it has at most 64 characters and has that form |
| Schemas.TimestampLength | src/utils/schemas.ts:66-72 | every accepted timestamp has between 20 and 64 characters |
| Schemas.TimestampExamples | src/utils/schemas.ts:66-72 | `2024-13-45` and `Jan 15, 2024` are rejected |
| Schemas.IdentifiersAreStrings | src/utils/schemas.ts:24-61 | a value that is not a string is never an owner, a repository or a thread id |
| Schemas.ValidOwnerIsSegmentSafe | src/utils/schemas.ts:29 | an accepted owner is a single path segment: it is not `.` or `..`, and has no `/`, `\`, `%`, `?` or `#` |
| Schemas.ValidRepoIsSegmentSafe | src/utils/schemas.ts:37-47 | an accepted repository name is a single path segment |
| Schemas.ValidThreadIdIsSegmentSafe | src/utils/schemas.ts:60 | an accepted thread id is a single path segment |
| Schemas.SafeParse | src/utils/schemas.ts:6-72 | a failed parse always carries at least one issue |
| Schemas.ObjectParse | src/utils/schemas.ts:77-91 | an object parses exactly when every field is accepted; the parsed record holds each field's parsed value; a rejection names exactly the failing fields |
| Schemas.SpreadAccepts | src/utils/schemas.ts:77-91 | an object schema built by spreading two disjoint shapes accepts exactly what both parts accept |
| Schemas.FilterAccepts | src/utils/schemas.ts:77-91 | the notification filter accepts a record exactly when `all` and `participating` are absent or booleans, `since` and `before` are absent or valid timestamps, and both page fields are valid |
| Schemas.EmptyFilterAccepted | src/utils/schemas.ts:77-91 | the record `{}` is a valid filter |
| Schemas.RepoIdentifierAccepts | src/utils/schemas.ts:24-52 | the repository identifier accepts a record exactly when `owner` and `repo` are strings that pass their checks |
| ApiQuery.FormRoundTrip | src/utils/api.ts:89 | form-decoding the form-encoding of any text gives back its UTF-8 bytes |
| ApiQuery.FormEncodePlain | src/utils/api.ts:89 | letters, digits, `*-._` are written as themselves and a space as `+` |
| ApiQuery.SpaceExample | src/utils/api.ts:89 | `foo bar` is written `foo+bar` |
| ApiQuery.QueryRoundTrip | src/utils/api.ts:86-94 | parsing the serialised query gives back every pair, in order |
| ApiQuery.BuildUrl | src/utils/api.ts:83-95 | the loop over the entries returns exactly `Url(path, params)` |
| ApiQuery.QueryPairsAppend | src/utils/api.ts:87 | entries are processed in order: the pairs of a concatenation are the pairs of each part, concatenated |
| ApiQuery.QueryPairsMembers | src/utils/api.ts:87-91 | a pair is in the query exactly when some entry whose value is neither `undefined` nor `null` produced it as `[key, String(value)]` |
| ApiQuery.OmittedKeyAbsent | src/utils/api.ts:88 | a key whose values are all `undefined` or `null` never appears in the query |
| ApiQuery.AllOmitted | src/utils/api.ts:86-94 | when no value is present there is no query at all |
| ApiQuery.UrlShape | src/utils/api.ts:83-95 | the URL is the base, then the path, then `?` and the serialised query when the query is not empty |
| ApiQuery.ParamTextExamples | src/utils/api.ts:89 | booleans are written `true`/`false`, and 50 and -3 in base 10 |
| ApiQuery.UrlExample | src/utils/api.ts:83-95 | an `undefined` parameter leaves no trace: `/test` with `filter=all` and an undefined `empty` gives `…/test?filter=all` |
| Api.Lookup | src/utils/api.ts:109-112 | a header is found exactly when its name occurs, and what is found is one of its entries |
| Api.SetHeaderNames | src/utils/api.ts:109-112 | setting a header keeps the names in place and adds a new name at the end |
| Api.SetHeaderLookup | src/utils/api.ts:109-112 | after setting a header, it has the new value and every other header is unchanged |
| Api.LookupLast | src/utils/api.ts:109-112 | when every entry of a name holds one value, that value is what the lookup finds |
| Api.LookupSamePositions | src/utils/api.ts:109-112 | two header lists that agree on every name, and on every entry of one name, agree on the lookup of that name |
| Api.SpreadLookup | src/utils/api.ts:109-112 | in `{...base, ...extra}` a name given in `extra` takes its value from `extra`, and any other name keeps its value from `base` |
| Api.SpreadKeepsNames | src/utils/api.ts:109-112 | spreading never moves or drops a name that is already present |
| Api.GithubGet | src/utils/api.ts:104-116 | a GET of `buildUrl(path, params)` with no body; the headers begin with the four defaults, and a caller header overrides a default while every other name keeps its default |
| Api.GithubPut | src/utils/api.ts:126-140 | a PUT of `buildUrl(path, params)` whose body is the data exactly when it is truthy; the headers begin with the defaults and `Content-Type`, which is `application/json` unless the caller overrides it |
| Api.GithubPatch | src/utils/api.ts:150-164 | the same as `githubPut`, with the PATCH method |
| Api.GithubDelete | src/utils/api.ts:173-185 | the same as `githubGet`, with the DELETE method |
| Api.PlainHeaders | src/utils/api.ts:104-116 | the headers of a GET or DELETE begin with the four defaults in order, and a caller header overrides a default |
| Api.JsonHeaders | src/utils/api.ts:126-140 | the headers of a PUT or PATCH begin with the defaults and then `Content-Type`, which is `application/json` unless the caller overrides it |
| Api.GetDeleteRequests | src/utils/api.ts:104-185 | GET and DELETE never carry a body, and both go to `buildUrl(path, params)` |
| Api.PutPatchRequests | src/utils/api.ts:126-164 | PUT and PATCH carry the data as the body exactly when it is truthy, and always use the JSON headers |
| Api.ClassifyError | src/utils/api.ts:52-68 | 401 is `Unauthorized`; 403 with remaining exactly `"0"` is `RateLimited` with the reset time; 403, 404 and 422 have their own kinds; any other status is `OtherStatus` and keeps its status; the upstream `message` is carried along, and a 422 also carries the upstream `errors` |
| Api.Classify | src/utils/api.ts:41-77 | a failure exactly for a non-2xx status; `{}` for a 2xx without a body, whether 204 or 205; otherwise the parsed body, or a JSON error when the body is unparseable |
| Api.ClassifyAsWritten | src/utils/api.ts:41-77 | as written: a failure exactly for a non-2xx status; `{}` for 204 only; any other success reads the body, and an unparseable body is a JSON error |
| Api.ClassifyAgrees | src/utils/api.ts:71-77 | the as-written classifier differs from the corrected one only on status 205 |
| Api.ResetContentRejected | src/utils/api.ts:71-77 | as written, a 205 answer is a JSON failure; corrected, it is `{}` |
| Api.ErrorMessage | src/utils/api.ts:52-68 | the 401 text is fixed; each other kind opens with its own wording (`GitHub API rate limit exceeded. Resets at `, `Access forbidden: `, `Resource not found: `, `Validation failed: `, `GitHub API error (<status>): `); a `null` body gives the engine's TypeError text |
| Api.NotFoundMessage | src/utils/api.ts:62-63 | every 404 whose body is not `null` is thrown as `Resource not found: ` followed by the upstream message |
| Api.ValidationMessage | src/utils/api.ts:64-65 | every 422 whose body is not `null` is `Validation failed: `, the upstream message, a space, and then the serialised `errors` when they are truthy or nothing otherwise |
| Api.OtherStatusMessage | src/utils/api.ts:66-67 | every other failing status whose body is not `null` is `GitHub API error (<status>): ` followed by the upstream message |
| Api.UnparseableErrorBody | src/utils/api.ts:45-49 | an unparseable error body is reported as `Unknown error` |
| Api.UnauthorizedIgnoresBody | src/utils/api.ts:53-54 | the 401 message is fixed, whatever the body |
| Api.RateLimitReset | src/utils/api.ts:57-59 | the reset instant is `parseInt(reset) * 1000`, and 0 when the header is missing |
| Api.RateLimitMessage | src/utils/api.ts:57-59 | an exhausted quota is always the rate-limit message, whatever the body |
| Api.ForbiddenUnlessExhausted | src/utils/api.ts:55-61 | a 403 whose remaining count is anything but `"0"` is `Access forbidden: ` followed by the upstream message |
| Api.NotFoundPrefixIdentifies | src/utils/api.ts:52-68 | a message starts with `Resource not found: ` exactly when the status was 404 |
| Api.NotFoundExample | src/utils/api.ts:62-63 | GitHub's `Not Found` body gives `Resource not found: Not Found` |
| Js.ParseIntOfNatToString | src/utils/api.ts:58 | `parseInt` reads back the base-10 text of any natural number |
| Js.IntToString | src/utils/api.ts:89 | `String(n)` is base-10 text, with a `-` exactly for negative numbers |
| Js.NumberOr | src/tools/list-notifications.ts:26-27 | `v \|\| d` gives `d` exactly when `v` is absent or 0, and `v` otherwise |
| Js.Property | src/utils/api.ts:61-67 | a property read finds the value of a member of that name, and always finds one when the name occurs; otherwise it is `undefined` |
| Formatters.ReplaceHost | src/utils/formatters.ts:11 | on an API URL, the first `api.github.com/repos` becomes `github.com` and the rest is kept |
| Formatters.ConvertApiUrlToHtmlUrl | src/utils/formatters.ts:9-20 | a text that contains neither `api.github.com/repos` nor `/pulls/<digit>` is returned unchanged |
| Formatters.FixPullsNoMatch | src/utils/formatters.ts:14 | a text in which `/pulls/<digit>` never occurs is left unchanged |
| Formatters.FixPullsSingleLine | src/utils/formatters.ts:14 | on a single line, the first match is rewritten to `/pull/` and the rest of the line is kept, because `.*` consumes it |
| Formatters.PullsRewrite | src/utils/formatters.ts:14 | `/pulls/<digits><rest>` becomes `/pull/<digits><rest>` |
| Formatters.ConvertPullRequestUrl | src/utils/formatters.ts:9-20 | a pull-request API URL becomes its web URL with `/pull/`, and keeps any segment after the number |
| Formatters.ConvertWithoutPullRequest | src/utils/formatters.ts:9-20 | issue and repository URLs only change host; `/issues/` is kept |
| Formatters.FixPullsChars | src/utils/formatters.ts:14 | the rewrite adds no character: every output character is in the input |
| Formatters.DescribeReason | src/utils/formatters.ts:25-45 | each of the 15 reasons gets its table text; `Unknown reason` appears exactly for a key outside the table; every answer is a single line |
| Formatters.FormatError | src/utils/formatters.ts:80-88 | the text is the message, `: `, and then the Error's message, the string itself, or `Unknown error` |
| Formatters.SuccessResponse | src/utils/formatters.ts:101-105 | exactly one text item, and no `isError` |
| Formatters.ErrorResponse | src/utils/formatters.ts:110-115 | `isError` is true, and there is exactly one text item, namely `formatError` |
| Formatters.ResponsesDiffer | src/utils/formatters.ts:101-115 | a success is never an error response, and an error text contains both the prefix and the Error's message |
| Formatters.ReadNotification | src/utils/formatters.ts:50-56 | a notification can be read exactly when it is not `null` and has a `subject`, a `repository` and a string `subject.url`; the status follows `unread`; the description is `describeReason(reason)` |
| Formatters.FormatNotification | src/utils/formatters.ts:50-65 | a rendering exists exactly when the record can be read; its lines are stated by FormatNotificationLayout |
| Formatters.NotificationLayout | src/utils/formatters.ts:57-64 | a rendered notification splits into eight lines; the status line is `Unread` exactly when the notification is unread; the last line is the converted URL |
| Formatters.FormatNotificationLayout | src/utils/formatters.ts:50-65 | the same, for a record as the API returns it |
| Formatters.FormatSubscription | src/utils/formatters.ts:70-75 | a rendering exists exactly when the record is not `null`; its lines are stated by FormatSubscriptionLayout |
| Formatters.SubscriptionLayout | src/utils/formatters.ts:70-75 | a rendered subscription has four lines: `Subscribed` exactly when subscribed, `Yes` exactly when ignored, and a reason line that is empty exactly when there is no reason |
| Formatters.FormatSubscriptionLayout | src/utils/formatters.ts:70-75 | the reason line of a record as the API returns it is empty exactly when its `reason` is falsy |
| Text.ReplaceFirst | src/utils/formatters.ts:11 | a string pattern is replaced at its first occurrence only, and a text without it is unchanged |
| Text.Includes | src/tools/get-thread-subscription.ts:31 | `includes` holds exactly when some position starts an occurrence |
| Tool.OutcomeOf | src/utils/api.ts:41-77 | the call resolves exactly for a 2xx answer that has, or needs, no body; it resolves with `{}` for 204 and 205 and with the body otherwise; a failure is thrown with its classified message |
| Tool.OutcomeAsWritten | src/utils/api.ts:71-77 | the as-written call agrees with `OutcomeOf` except on 205 |
| Tool.NotFoundOutcome | src/utils/api.ts:62-63 | a 404 is thrown as an Error whose text contains `Resource not found` |
| Tool.NotFoundMentions404 | src/utils/api.ts:63 | the thrown 404 passes the `"404"` test exactly when the upstream message contains `404`, and it always passes the corrected test |
| Tool.MissingSubscriptionMissed | src/tools/get-thread-subscription.ts:31 | GitHub's `Not Found` 404 fails the `"404"` test and passes the corrected test |
| Tool.SplitAbsolute | src/tools/list-repo-notifications.ts:28 | a path built from segments that contain no `/` splits back into those segments |
| Tool.ValidatedRepoPath | src/tools/list-repo-notifications.ts:28 | with an accepted owner and repository, `/repos/{owner}/{repo}/{leaf}` has exactly four segments |
| Tool.ValidatedThreadPath | src/tools/get-thread-subscription.ts:24 | with an accepted thread id, `/notifications/threads/{id}/subscription` has exactly four segments |
| Tool.FilterQuery | src/tools/list-notifications.ts:30-39 | the listing query always names page and per_page; it names `all`, `participating`, `since` and `before` exactly when they were given, with their values as text |
| Tool.FormatEach | src/tools/list-notifications.ts:47 | `map(formatNotification)` succeeds exactly when every record can be formatted, and keeps each record's rendering in place |
| Tool.PageHint | src/tools/list-notifications.ts:50-55 | the hint is present exactly when the count equals the page size, and then it names `page + 1` |
| Tool.ListTextShape | src/tools/list-notifications.ts:57-59 | the listing text opens with the count heading and, on a full page, names the next page |
| Tool.ItemsResponse | src/tools/list-notifications.ts:47-59 | a page is an error exactly when some record cannot be formatted; otherwise it is the listing text |
| Tool.ListResponse | src/tools/list-notifications.ts:25-62 | a failure is an error under the tool's prefix; an empty array gives the empty text; a value without `length` and `map` gives a TypeError |
| Tool.FormattedPage | src/tools/list-notifications.ts:42-59 | a non-empty page of formattable records is a single-item success that opens with the count and, when full, names the next page |
| ListNotifications.ListNotificationsAccepts | src/tools/list-notifications.ts:12-19 | the tool's schema checks types only |
| ListNotifications.UnboundedArguments | src/tools/list-notifications.ts:12-19 | page 0, page size 1000 and a non-timestamp `since` pass this schema but not the shared filter |
| ListNotifications.Defaults | src/tools/list-notifications.ts:26-27 | a missing or zero size means 50, and a missing or zero page means 1; other values pass through |
| ListNotifications.ListNotificationsHandler | src/tools/list-notifications.ts:24-63 | a body-less GET of `/notifications` with the filter query; a failure is `errorResponse("Failed to fetch notifications", error)`; an empty array is the fixed text; every error opens with that prefix (ListRequestShape, NextPageHint and UnformattableRecord state the rest) |
| ListNotifications.ListRequestShape | src/tools/list-notifications.ts:30-39 | a body-less GET of `/notifications` whose query names the page and size with their defaults applied, and names `all`, `participating`, `since` and `before` exactly when given, with their values as text |
| ListNotifications.DefaultQuery | src/tools/list-notifications.ts:26-39 | with no arguments the query is exactly `page=1&per_page=50` |
| ListNotifications.EmptyAndFailure | src/tools/list-notifications.ts:42-62 | an empty result gives the fixed text, and any failure is `errorResponse("Failed to fetch notifications", error)` |
| ListNotifications.NextPageHint | src/tools/list-notifications.ts:50-59 | the hint appears exactly when the count equals the page size in effect, and it names `page + 1` |
| ListNotifications.UnformattableRecord | src/tools/list-notifications.ts:47-62 | one unformattable record turns the answer into the TypeError's error response |
| ListNotifications.UnauthorizedAnswer | src/tools/list-notifications.ts:60-62 | a rejected token reaches the user as the classifier's text under the tool's prefix |
| ListRepoNotifications.ListRepoAccepts | src/tools/list-repo-notifications.ts:14-17 | the schema accepts exactly what both the repository identifier and the filter accept |
| ListRepoNotifications.ListRepoAcceptsFields | src/tools/list-repo-notifications.ts:14-17 | equivalently: a valid owner and repository, and every filter field acceptable on its own |
| ListRepoNotifications.Defaults | src/tools/list-repo-notifications.ts:24-25 | a missing or zero size means 30, and a missing or zero page means 1 |
| ListRepoNotifications.ListRepoNotificationsHandler | src/tools/list-repo-notifications.ts:22-61 | a body-less GET of the repository's listing with the filter query; a failure is an error under `Failed to fetch notifications for repository owner/repo`; an empty array names the repository; every error opens with that prefix |
| ListRepoNotifications.ListRepoRequestShape | src/tools/list-repo-notifications.ts:28-37 | a body-less GET of `/repos/{owner}/{repo}/notifications` with the filter query; the path has four segments for accepted arguments |
| ListRepoNotifications.EmptyAndFailure | src/tools/list-repo-notifications.ts:40-60 | an empty result names `owner/repo`, and every failure is prefixed `Failed to fetch notifications for repository owner/repo` |
| ListRepoNotifications.NextPageHint | src/tools/list-repo-notifications.ts:50-57 | the hint appears exactly on a full page, and it names `page + 1` |
| ManageRepoSubscription.ActionOf | src/tools/manage-repo-subscription.ts:12 | a name denotes an action exactly when it is one of the four enum names, and the action it denotes is the one whose literal it is |
| ManageRepoSubscription.ActionNameRoundTrip | src/tools/manage-repo-subscription.ts:12 | every action is denoted by its own enum literal |
| ManageRepoSubscription.ManageAccepts | src/tools/manage-repo-subscription.ts:10-14 | the schema accepts a valid owner and repository together with one of `all_activity`, `default`, `ignore` and `get` |
| ManageRepoSubscription.ActionRequests | src/tools/manage-repo-subscription.ts:37-71 | `all_activity` puts `{subscribed: true, ignored: false}`; `ignore` puts `{subscribed: false, ignored: true}`; `default` is a body-less DELETE; `get` is a GET |
| ManageRepoSubscription.NamedRequests | src/tools/manage-repo-subscription.ts:34-71 | the user's `all_activity` puts `{subscribed: true, ignored: false}`, `ignore` puts `{subscribed: false, ignored: true}`, `default` is a DELETE and `get` is a GET |
| ManageRepoSubscription.ManageRepoSubscriptionHandler | src/tools/manage-repo-subscription.ts:30-76 | the action picks PUT, DELETE or GET; a changing action that resolves gives its fixed text; a failure of `get` whose text contains `Resource not found` gives the default-settings text; every other failure is an error under `Failed to manage repository subscription for owner/repo` |
| ManageRepoSubscription.StatusLayout | src/tools/manage-repo-subscription.ts:39-43 | the report has five lines: "Watching all activity" exactly when subscribed, and "Ignored" exactly when ignored |
| ManageRepoSubscription.GetReport | src/tools/manage-repo-subscription.ts:36-43 | the same, for a record as the API returns it |
| ManageRepoSubscription.NotFoundIsDefault | src/tools/manage-repo-subscription.ts:44-51 | a real 404 always takes the default-settings path of `get` |
| ManageRepoSubscription.OtherFailures | src/tools/manage-repo-subscription.ts:52-75 | every other failure is an error prefixed `Failed to manage repository subscription for owner/repo` |
| ManageRepoSubscription.ActionSuccess | src/tools/manage-repo-subscription.ts:55-71 | the three changing actions report their fixed text, whatever the call returned |
| GetThreadSubscription.GetThreadAccepts | src/tools/get-thread-subscription.ts:14-16 | the schema accepts exactly a record whose `thread_id` is an accepted thread id |
| GetThreadSubscription.GetThreadRequestShape | src/tools/get-thread-subscription.ts:24 | a body-less GET of `/notifications/threads/{id}/subscription`, with the id in one segment when it is accepted |
| GetThreadSubscription.GetThreadSubscriptionHandler | src/tools/get-thread-subscription.ts:21-37 | a body-less GET of the thread's subscription; a readable subscription is shown under the thread's header; a failure the corrected test calls benign is "not subscribed"; every other failure is an error under `Failed to fetch subscription for thread {id}` |
| GetThreadSubscription.SubscriptionShown | src/tools/get-thread-subscription.ts:27-29 | a readable subscription is shown under `Subscription status for thread {id}:` |
| GetThreadSubscription.Mentions404 | src/tools/get-thread-subscription.ts:31-33 | an Error whose text contains `404` gives "You are not subscribed to thread {id}." under either test |
| GetThreadSubscription.OtherFailure | src/tools/get-thread-subscription.ts:35 | any other failure is an error prefixed `Failed to fetch subscription for thread {id}` |
| GetThreadSubscription.NotFoundAsWritten | src/tools/get-thread-subscription.ts:31-35 | as written, a real 404 gives "not subscribed" exactly when the upstream message contains `404`, and is an error otherwise |
| GetThreadSubscription.MissingSubscriptionAsWritten | src/tools/get-thread-subscription.ts:31-35 | for GitHub's `Not Found`, the code as written answers with an error; corrected, it answers "not subscribed" |
| GetThreadSubscription.NotFoundIsNotSubscribed | src/tools/get-thread-subscription.ts:31-33 | corrected, every real 404 gives "You are not subscribed to thread {id}." |
| GetThreadSubscription.NullSubscription | src/tools/get-thread-subscription.ts:27-35 | a `null` subscription raises a TypeError, which is reported under the thread's prefix |
| DeleteThreadSubscription.DeleteThreadAccepts | src/tools/delete-thread-subscription.ts:13-15 | the schema accepts exactly a record whose `thread_id` is an accepted thread id |
| DeleteThreadSubscription.DeleteThreadRequestShape | src/tools/delete-thread-subscription.ts:22 | a body-less DELETE of the thread's subscription path |
| DeleteThreadSubscription.DeleteThreadSubscriptionHandler | src/tools/delete-thread-subscription.ts:20-31 | a body-less DELETE of the thread's subscription; any resolved call is "unsubscribed"; a failure the corrected test calls benign is "not subscribed"; every other failure is an error under `Failed to unsubscribe from thread {id}` |
| DeleteThreadSubscription.Unsubscribed | src/tools/delete-thread-subscription.ts:22-23 | a 204 or any other success gives "Successfully unsubscribed from thread {id}." |
| DeleteThreadSubscription.OtherFailure | src/tools/delete-thread-subscription.ts:29 | any other failure is an error prefixed `Failed to unsubscribe from thread {id}` |
| DeleteThreadSubscription.NotFoundAsWritten | src/tools/delete-thread-subscription.ts:25-29 | as written, a real 404 gives "not subscribed" exactly when the upstream message contains `404` |
| DeleteThreadSubscription.MissingSubscriptionAsWritten | src/tools/delete-thread-subscription.ts:25-29 | for GitHub's `Not Found`, the code as written answers with an error; corrected, it answers "were not subscribed" |
| DeleteThreadSubscription.NotFoundIsNotSubscribed | src/tools/delete-thread-subscription.ts:25-27 | corrected, every real 404 gives "You were not subscribed to thread {id}." |
| SetThreadSubscription.SetThreadAccepts | src/tools/set-thread-subscription.ts:14-17 | the schema accepts an accepted thread id with, optionally, a boolean `ignored` |
| SetThreadSubscription.IgnoredDefault | src/tools/set-thread-subscription.ts:16 | the parsed `ignored` is the given value, or `false` |
| SetThreadSubscription.SetThreadRequestShape | src/tools/set-thread-subscription.ts:25-33 | a PUT of the thread's subscription whose body is exactly `{ignored}` |
| SetThreadSubscription.SetThreadSubscriptionHandler | src/tools/set-thread-subscription.ts:22-43 | a PUT of exactly `{ignored}`; a readable answer is the success text with the formatted subscription; a failure or a `null` answer is an error under `Failed to update subscription for thread {id}` |
| SetThreadSubscription.Wording | src/tools/set-thread-subscription.ts:37-39 | the text says "ignoring" exactly when `ignored` is set, and "subscribing to" exactly when it is not |
| SetThreadSubscription.Answers | src/tools/set-thread-subscription.ts:36-42 | a readable subscription is a success whose wording follows the flag; a failure or a `null` answer is an error prefixed `Failed to update subscription for thread {id}` |
| MarkNotificationsRead.MarkReadAccepts | src/tools/mark-notifications-read.ts:13-20 | the schema accepts an optional valid timestamp and an optional boolean |
| MarkNotificationsRead.ReadDefault | src/tools/mark-notifications-read.ts:17 | the parsed `read` is the given value, or `true`; `last_read_at` is parsed exactly when it was given |
| MarkNotificationsRead.MarkReadRequestShape | src/tools/mark-notifications-read.ts:28-34 | a PUT of `/notifications` whose body ends with `read` and names `last_read_at` exactly when it was given |
| MarkNotificationsRead.MarkNotificationsReadHandler | src/tools/mark-notifications-read.ts:25-50 | a PUT of `/notifications` with the request body; a non-null answer with a truthy `message` gives that message, any other gives the fixed text; every error opens with `Failed to mark notifications as read` |
| MarkNotificationsRead.AsyncMessage | src/tools/mark-notifications-read.ts:37-39 | any successful answer whose `message` is a non-empty text is passed on exactly as it is |
| MarkNotificationsRead.AsyncExample | src/tools/mark-notifications-read.ts:37-39 | GitHub's 202 answer `{message: m}` is answered with `m` |
| MarkNotificationsRead.FixedTextWithoutMessage | src/tools/mark-notifications-read.ts:37-46 | a successful answer without a truthy `message` gives the fixed text |
| MarkNotificationsRead.DefaultWording | src/tools/mark-notifications-read.ts:42 | otherwise the text says "read." exactly when `read` is set, and "unread." exactly when it is not |
| MarkNotificationsRead.CutOffWording | src/tools/mark-notifications-read.ts:42-46 | the cut-off sentence appears for a non-empty `last_read_at` and not at all when it is absent |
| MarkNotificationsRead.ResetContent | src/tools/mark-notifications-read.ts:34-48 | a 205 answer gives the default success text when corrected, and the failure text as written |
| MarkNotificationsRead.FailurePrefix | src/tools/mark-notifications-read.ts:47-49 | every failure is prefixed "Failed to mark notifications as read", whatever `read` was |
| MarkNotificationsRead.NullAnswer | src/tools/mark-notifications-read.ts:37-49 | a `null` answer raises a TypeError, which is reported under the fixed prefix |

## Left out

- `fetch`, Promises and `await`, and the `console.error` rate-limit log line (src/utils/api.ts:38,107-115). The HTTP exchange is an abstract `Response` or `Outcome` value.
- The token from `process.env` is an opaque `Config` string, and the model does not read the environment.
- `JSON.parse` and `JSON.stringify`. Bodies are JSON values, or `None` when they cannot be parsed. The text of `JSON.stringify(errorData.errors)` and the SyntaxError text are `Host` fields.
- Engine TypeError texts. A single `Host.typeErrorText` stands for every TypeError: reading `.message` of a `null` error body in `handleResponse`, the property reads through `null` or `undefined` in `formatNotification` and `formatSubscription`, and `.map` of a value that is not a list. A JavaScript engine words these differently; the model does not tell them apart.
- Dates and locales. `toLocaleTimeString` and `toLocaleString` are `Host` functions. Only the integer reset instant is computed.
- WHATWG URL resolution of `new URL(path, BASE_URL)`. A URL is the base followed by the path, which is right for the absolute paths the handlers build. The segment-safety lemmas show that accepted identifiers cannot change a path under resolution.
- Floating-point numbers. Numbers are integers, so zod's `.int()` check always holds, and `String()` is never asked for exponent form.
- `Js.IntToString`: the exponent form `String()` uses from 10^21 on is not modelled.
- `Js.ParseIntOfNatToString`: `parseInt` is exact, with no loss of precision for large numbers.
- `decodeURIComponent` of escapes for non-ASCII characters is treated as malformed. Such escapes need `%`, which the repository character class already rejects.
- String lengths are counted in code points, not UTF-16 units. They differ only for non-BMP characters, which no accepted identifier contains.
- `Object.prototype` names such as `constructor` in `describeReason`'s table lookup. The lookup sees only the table's own entries.
- Headers are compared case-sensitively, as the code's spreads compare them. The `fetch` Headers object, which ignores case, is not modelled.
- `Object.entries` puts integer-like keys first. The model keeps the written order; none of the parameter names the handlers use is integer-like.
- zod's issue texts and their order are modelled for strings and numbers only, as far as acceptance needs them.
- The handlers take their arguments already parsed, as the MCP SDK hands them over. The schema lemmas say which raw records are accepted.
- The `register…Tool` functions, src/server.ts and the stdio transport hold no decision logic.
- src/tools/get-thread.ts, src/tools/mark-thread-read.ts and src/tools/mark-thread-done.ts are not part of this model. Each is a single call with a fixed message.
- `Formatters.ConvertPullRequestUrl`: an owner that is literally `pulls`, followed by a repository name that starts with a digit, would start a match at the owner. That case is excluded by a precondition rather than described.

## Findings

| source | as written | input that shows it | evidently intended | confidence | as-written member | corrected member |
|---|---|---|---|---|---|---|
| src/utils/api.ts:71-77 | only 204 is answered without reading the body, so `response.json()` is called on other bodiless successes | PUT `/notifications` answered `205 Reset Content`, which GitHub documents for this call: the body is empty, `json()` throws, and the tool reports "Failed to mark notifications as read" although the marking succeeded | every 2xx status without a body (204 and 205) resolves with `{}` | not executed | Api.ResetContentRejected, MarkNotificationsRead.ResetContent (through Tool.OutcomeAsWritten) | Api.Classify, Tool.OutcomeOf |
| src/tools/get-thread-subscription.ts:31, src/tools/delete-thread-subscription.ts:25 | the `catch` treats an error as "not subscribed" only when its text contains `404`, but the classifier throws a 404 as `Resource not found: <message>`, which contains no `404` | a thread without a subscription, answered 404 with `{"message": "Not Found"}`: the error text is `Resource not found: Not Found`, so the tool reports a failure instead of "You are not subscribed to thread …" | the classifier's own 404 wording is recognised too, as manage-repo-subscription.ts:46 does | not executed | GetThreadSubscription.MissingSubscriptionAsWritten, DeleteThreadSubscription.MissingSubscriptionAsWritten (with NotFoundAsWritten in both modules) | GetThreadSubscription.NotFoundIsNotSubscribed, DeleteThreadSubscription.NotFoundIsNotSubscribed |
