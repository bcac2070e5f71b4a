/**
 * The request side and the response classifier of src/utils/api.ts. A request is the
 * value that `fetch` would be called with; headers are ordered lists merged with
 * JavaScript's object-spread semantics (a repeated key keeps its place and takes the new
 * value, a new key is appended). A response is abstracted to its status, the two
 * rate-limit headers it reads, and its body as parsed JSON (`None` when `response.json()`
 * throws).
 */
module Api {
  import opened Wrappers
  import opened Text
  import opened Js
  import opened ApiQuery

  // ---- headers ----

  type Headers = seq<(string, string)>

  function HeaderNames(h: Headers): (names: seq<string>)
    ensures |names| == |h|
    ensures forall i :: 0 <= i < |h| ==> names[i] == h[i].0
  {
    if h == [] then [] else [h[0].0] + HeaderNames(h[1..])
  }

  /** `headers[name]`: the last entry of that name, since a later key overrides an earlier one. */
  function Lookup(h: Headers, name: string): (r: Option<string>)
    ensures r.Some? <==> name in HeaderNames(h)
    ensures r.Some? ==> (name, r.value) in h
  {
    if h == [] then None
    else if h[|h| - 1].0 == name then Some(h[|h| - 1].1)
    else
      var init := h[..|h| - 1];
      assert HeaderNames(h) == HeaderNames(init) + [h[|h| - 1].0];
      Lookup(init, name)
  }

  /** `{ ...h, [name]: value }`. */
  function SetHeader(h: Headers, name: string, value: string): (r: Headers)
  {
    if name in HeaderNames(h) then seq(|h|, i requires 0 <= i < |h| => if h[i].0 == name then (name, value) else h[i])
    else h + [(name, value)]
  }

  /** `{ ...base, ...extra }`. */
  function Spread(base: Headers, extra: Headers): Headers
    decreases |extra|
  {
    if extra == [] then base else Spread(SetHeader(base, extra[0].0, extra[0].1), extra[1..])
  }

  lemma SetHeaderNames(h: Headers, name: string, value: string)
    ensures HeaderNames(SetHeader(h, name, value)) == HeaderNames(h) + (if name in HeaderNames(h) then [] else [name])
  {
  }

  lemma SetHeaderLookup(h: Headers, name: string, value: string, other: string)
    ensures Lookup(SetHeader(h, name, value), name) == Some(value)
    ensures other != name ==> Lookup(SetHeader(h, name, value), other) == Lookup(h, other)
  {
    var r := SetHeader(h, name, value);
    SetHeaderNames(h, name, value);
    LookupLast(r, name, value);
    if other != name {
      if name in HeaderNames(h) {
        LookupSamePositions(h, r, other);
      } else {
        assert r[..|r| - 1] == h;
      }
    }
  }

  /** When every entry of `name` holds `value`, that is what the lookup finds. */
  lemma {:induction false} LookupLast(h: Headers, name: string, value: string)
    requires name in HeaderNames(h)
    requires forall i :: 0 <= i < |h| && h[i].0 == name ==> h[i].1 == value
    ensures Lookup(h, name) == Some(value)
    decreases |h|
  {
    if h[|h| - 1].0 != name {
      var init := h[..|h| - 1];
      assert HeaderNames(h) == HeaderNames(init) + [h[|h| - 1].0];
      LookupLast(init, name, value);
    }
  }

  /** Two header lists that agree on every entry named `other` and on all names agree on `other`. */
  lemma {:induction false} LookupSamePositions(h: Headers, r: Headers, other: string)
    requires |h| == |r| && forall i :: 0 <= i < |h| ==> r[i].0 == h[i].0
    requires forall i :: 0 <= i < |h| && h[i].0 == other ==> r[i] == h[i]
    ensures Lookup(r, other) == Lookup(h, other)
    decreases |h|
  {
    if h != [] && h[|h| - 1].0 != other {
      LookupSamePositions(h[..|h| - 1], r[..|r| - 1], other);
    }
  }

  /** Caller headers override: a name given in `extra` has its last value there, any other keeps `base`'s. */
  lemma {:induction false} SpreadLookup(base: Headers, extra: Headers, name: string)
    ensures Lookup(Spread(base, extra), name) == if name in HeaderNames(extra) then Lookup(extra, name) else Lookup(base, name)
    decreases |extra|
  {
    if extra != [] {
      var base' := SetHeader(base, extra[0].0, extra[0].1);
      SpreadLookup(base', extra[1..], name);
      SetHeaderLookup(base, extra[0].0, extra[0].1, name);
      assert HeaderNames(extra) == [extra[0].0] + HeaderNames(extra[1..]);
      if name in HeaderNames(extra[1..]) {
        LookupTail(extra, name);
      } else if name == extra[0].0 {
        LookupFirstOnly(extra, name);
      }
    }
  }

  lemma {:induction false} LookupTail(h: Headers, name: string)
    requires h != [] && name in HeaderNames(h[1..])
    ensures Lookup(h, name) == Lookup(h[1..], name)
    decreases |h|
  {
    if h[|h| - 1].0 != name {
      var init := h[..|h| - 1];
      assert HeaderNames(h[1..]) == HeaderNames(init[1..]) + [h[|h| - 1].0];
      assert init[1..] == h[1..][..|h| - 2];
      LookupTail(init, name);
    }
  }

  lemma LookupFirstOnly(h: Headers, name: string)
    requires h != [] && h[0].0 == name && name !in HeaderNames(h[1..])
    ensures Lookup(h, name) == Some(h[0].1)
  {
    LookupLast(h, name, h[0].1);
  }

  /** Spreading never moves or drops a name already present. */
  lemma {:induction false} SpreadKeepsNames(base: Headers, extra: Headers)
    ensures |HeaderNames(Spread(base, extra))| >= |base|
    ensures HeaderNames(Spread(base, extra))[..|base|] == HeaderNames(base)
    decreases |extra|
  {
    if extra != [] {
      var base' := SetHeader(base, extra[0].0, extra[0].1);
      SetHeaderNames(base, extra[0].0, extra[0].1);
      SpreadKeepsNames(base', extra[1..]);
      var names := HeaderNames(Spread(base, extra));
      assert names[..|base'|][..|base|] == names[..|base|];
    }
  }

  // ---- requests ----

  /** `process.env.GITHUB_TOKEN` as read at module load (`None` when unset). */
  datatype Config = Config(token: Option<string>)

  function DefaultHeaders(cfg: Config): Headers {
    [("Accept", "application/vnd.github+json"),
     ("Authorization", "Bearer " + (match cfg.token case Some(t) => t case None => "undefined")),
     ("X-GitHub-Api-Version", "2022-11-28"),
     ("User-Agent", "GitHub-Notifications-MCP-Server/1.0.0")]
  }

  /** `RequestOptions`: `params` as its entries in order, and `headers`. An omitted field is empty. */
  datatype Options = Options(params: seq<(string, ParamValue)>, headers: Headers)

  const NoOptions: Options := Options([], [])

  datatype Method = GET | PUT | PATCH | DELETE

  /** What `fetch` is called with. The body is the value that `JSON.stringify` would serialise. */
  datatype Request = Request(verb: Method, url: string, headers: Headers, body: Option<Json>)

  const JsonContentType: (string, string) := ("Content-Type", "application/json")

  /** `githubGet`: no body, the URL of `buildUrl`, and the defaults overridden by the caller's headers. */
  function GithubGet(cfg: Config, path: string, opts: Options): (r: Request)
    ensures r.verb == GET && r.body.None? && r.url == Url(path, opts.params)
    ensures |HeaderNames(r.headers)| >= 4 && HeaderNames(r.headers)[..4] == DefaultNames
    ensures forall name :: Lookup(r.headers, name) ==
                           if name in HeaderNames(opts.headers) then Lookup(opts.headers, name) else Lookup(DefaultHeaders(cfg), name)
  {
    PlainHeadersAll(cfg, opts.headers);
    Request(GET, Url(path, opts.params), Spread(DefaultHeaders(cfg), opts.headers), None)
  }

  /** `githubPut`: the data as the body exactly when it is truthy, and the JSON content type unless overridden. */
  function GithubPut(cfg: Config, path: string, data: Option<Json>, opts: Options): (r: Request)
    ensures r.verb == PUT && r.url == Url(path, opts.params)
    ensures (r.body.Some? <==> Truthy(data)) && (r.body.Some? ==> r.body == data)
    ensures |HeaderNames(r.headers)| >= 5 && HeaderNames(r.headers)[..5] == DefaultNames + ["Content-Type"]
    ensures "Content-Type" !in HeaderNames(opts.headers) ==> Lookup(r.headers, "Content-Type") == Some("application/json")
  {
    JsonHeaders(cfg, opts.headers);
    Request(PUT, Url(path, opts.params), Spread(DefaultHeaders(cfg) + [JsonContentType], opts.headers),
            if Truthy(data) then data else None)
  }

  /** `githubPatch`: as `githubPut`, with the PATCH method. */
  function GithubPatch(cfg: Config, path: string, data: Option<Json>, opts: Options): (r: Request)
    ensures r.verb == PATCH && r.url == Url(path, opts.params)
    ensures (r.body.Some? <==> Truthy(data)) && (r.body.Some? ==> r.body == data)
    ensures |HeaderNames(r.headers)| >= 5 && HeaderNames(r.headers)[..5] == DefaultNames + ["Content-Type"]
    ensures "Content-Type" !in HeaderNames(opts.headers) ==> Lookup(r.headers, "Content-Type") == Some("application/json")
  {
    JsonHeaders(cfg, opts.headers);
    Request(PATCH, Url(path, opts.params), Spread(DefaultHeaders(cfg) + [JsonContentType], opts.headers),
            if Truthy(data) then data else None)
  }

  /** `githubDelete`: as `githubGet`, with the DELETE method. */
  function GithubDelete(cfg: Config, path: string, opts: Options): (r: Request)
    ensures r.verb == DELETE && r.body.None? && r.url == Url(path, opts.params)
    ensures |HeaderNames(r.headers)| >= 4 && HeaderNames(r.headers)[..4] == DefaultNames
    ensures forall name :: Lookup(r.headers, name) ==
                           if name in HeaderNames(opts.headers) then Lookup(opts.headers, name) else Lookup(DefaultHeaders(cfg), name)
  {
    PlainHeadersAll(cfg, opts.headers);
    Request(DELETE, Url(path, opts.params), Spread(DefaultHeaders(cfg), opts.headers), None)
  }

  const DefaultNames: seq<string> := ["Accept", "Authorization", "X-GitHub-Api-Version", "User-Agent"]

  /** The headers of a GET or DELETE: the four defaults first, and a caller header wins over a default. */
  lemma PlainHeaders(cfg: Config, extra: Headers, name: string)
    ensures var h := Spread(DefaultHeaders(cfg), extra);
      |HeaderNames(h)| >= 4 && HeaderNames(h)[..4] == DefaultNames &&
      Lookup(h, name) == if name in HeaderNames(extra) then Lookup(extra, name) else Lookup(DefaultHeaders(cfg), name)
  {
    SpreadKeepsNames(DefaultHeaders(cfg), extra);
    SpreadLookup(DefaultHeaders(cfg), extra, name);
  }

  lemma PlainHeadersAll(cfg: Config, extra: Headers)
    ensures var h := Spread(DefaultHeaders(cfg), extra);
      |HeaderNames(h)| >= 4 && HeaderNames(h)[..4] == DefaultNames &&
      forall name :: Lookup(h, name) == if name in HeaderNames(extra) then Lookup(extra, name) else Lookup(DefaultHeaders(cfg), name)
  {
    forall name ensures Lookup(Spread(DefaultHeaders(cfg), extra), name) ==
      if name in HeaderNames(extra) then Lookup(extra, name) else Lookup(DefaultHeaders(cfg), name)
    {
      PlainHeaders(cfg, extra, name);
    }
    PlainHeaders(cfg, extra, "");
  }

  /** The headers of a PUT or PATCH: defaults, then `Content-Type: application/json`, then the caller's headers. */
  lemma JsonHeaders(cfg: Config, extra: Headers)
    ensures var h := Spread(DefaultHeaders(cfg) + [JsonContentType], extra);
      |HeaderNames(h)| >= 5 && HeaderNames(h)[..5] == DefaultNames + ["Content-Type"] &&
      ("Content-Type" !in HeaderNames(extra) ==> Lookup(h, "Content-Type") == Some("application/json"))
  {
    var base := DefaultHeaders(cfg) + [JsonContentType];
    SpreadKeepsNames(base, extra);
    SpreadLookup(base, extra, "Content-Type");
    BaseNames(cfg);
    assert base[4] == JsonContentType;
  }

  lemma BaseNames(cfg: Config)
    ensures HeaderNames(DefaultHeaders(cfg) + [JsonContentType]) == DefaultNames + ["Content-Type"]
  {
    var names := HeaderNames(DefaultHeaders(cfg) + [JsonContentType]);
    assert |names| == 5;
    assert names[0] == "Accept" && names[1] == "Authorization" && names[2] == "X-GitHub-Api-Version";
    assert names[3] == "User-Agent" && names[4] == "Content-Type";
  }

  /** GET and DELETE never send a body. */
  lemma GetDeleteRequests(cfg: Config, path: string, opts: Options)
    ensures GithubGet(cfg, path, opts).body.None? && GithubGet(cfg, path, opts).verb == GET
    ensures GithubDelete(cfg, path, opts).body.None? && GithubDelete(cfg, path, opts).verb == DELETE
    ensures GithubGet(cfg, path, opts).url == Url(path, opts.params) == GithubDelete(cfg, path, opts).url
  {
  }

  /** PUT and PATCH send the data as the body exactly when it is truthy, and always the JSON content type. */
  lemma PutPatchRequests(cfg: Config, path: string, data: Option<Json>, opts: Options)
    ensures var r := GithubPut(cfg, path, data, opts);
      (r.body.Some? <==> Truthy(data)) && (r.body.Some? ==> r.body == data) &&
      r.headers == Spread(DefaultHeaders(cfg) + [JsonContentType], opts.headers)
    ensures var r := GithubPatch(cfg, path, data, opts);
      (r.body.Some? <==> Truthy(data)) && (r.body.Some? ==> r.body == data) &&
      r.headers == Spread(DefaultHeaders(cfg) + [JsonContentType], opts.headers)
    ensures GithubPut(cfg, path, None, opts).body.None? && GithubPut(cfg, path, Some(JBool(false)), opts).body.None?
  {
  }

  // ---- handleResponse ----

  /** The parts of a `Response` that `handleResponse` reads; `body` is `None` when `response.json()` throws. */
  datatype Response = Response(status: int, remaining: Option<string>, reset: Option<string>, body: Option<Json>)

  /** `response.ok`. */
  predicate IsOk(status: int) { 200 <= status <= 299 }

  /** The error a non-2xx response is turned into. `ErrorBodyNull` is the TypeError of reading `.message` of a JSON `null` body. */
  datatype ApiError =
    | Unauthorized
    | RateLimited(resetMs: Option<int>)
    | Forbidden(message: Option<Json>)
    | NotFound(message: Option<Json>)
    | ValidationFailed(message: Option<Json>, errors: Option<Json>)
    | OtherStatus(status: int, message: Option<Json>)
    | ErrorBodyNull

  /** What `handleResponse` resolves with or rejects with. `BadJson` is the SyntaxError of `response.json()` on a 2xx body. */
  datatype ApiResult = Succeeded(value: Json) | Failed(error: ApiError) | BadJson

  /** `errorData`: the parsed body, or `{ message: "Unknown error" }` when it is not JSON. */
  function ErrorData(r: Response): Json {
    match r.body
    case Some(j) => j
    case None => JObject([("message", JStr("Unknown error"))])
  }

  /** `parseInt(reset || '0') * 1000`; `None` is NaN. */
  function ResetMillis(reset: Option<string>): (ms: Option<int>)
  {
    var text := if reset.None? || reset.value == "" then "0" else reset.value;
    match ParseInt(text)
    case None => None
    case Some(n) => Some(n * 1000)
  }

  /** The `switch (statusCode)` of a failed response. */
  function ClassifyError(r: Response): (e: ApiError)
    requires !IsOk(r.status)
    ensures e.Unauthorized? <==> r.status == 401
    ensures e.RateLimited? <==> r.status == 403 && r.remaining == Some("0")
    ensures e.RateLimited? ==> e.resetMs == ResetMillis(r.reset)
    ensures e.ErrorBodyNull? <==> r.body == Some(JNull) && r.status != 401 && !(r.status == 403 && r.remaining == Some("0"))
    ensures !e.ErrorBodyNull? && !e.Unauthorized? && !e.RateLimited? ==>
      (e.Forbidden? <==> r.status == 403) && (e.NotFound? <==> r.status == 404) &&
      (e.ValidationFailed? <==> r.status == 422) && (e.OtherStatus? <==> r.status !in {401, 403, 404, 422})
    ensures e.Forbidden? || e.NotFound? || e.ValidationFailed? || e.OtherStatus? ==>
      e.message == Property(ErrorData(r), "message")
    ensures e.ValidationFailed? ==> e.errors == Property(ErrorData(r), "errors")
    ensures e.OtherStatus? ==> e.status == r.status
  {
    var data := ErrorData(r);
    if r.status == 401 then Unauthorized
    else if r.status == 403 && r.remaining == Some("0") then RateLimited(ResetMillis(r.reset))
    else if data.JNull? then ErrorBodyNull
    else if r.status == 403 then Forbidden(Property(data, "message"))
    else if r.status == 404 then NotFound(Property(data, "message"))
    else if r.status == 422 then ValidationFailed(Property(data, "message"), Property(data, "errors"))
    else OtherStatus(r.status, Property(data, "message"))
  }

  /** `handleResponse` as written: only 204 is answered without reading the body. */
  function ClassifyAsWritten(r: Response): (res: ApiResult)
    ensures res.Failed? <==> !IsOk(r.status)
    ensures res.Failed? ==> res.error == ClassifyError(r)
    ensures r.status == 204 ==> res == Succeeded(JObject([]))
    ensures IsOk(r.status) && r.status != 204 ==> (res.BadJson? <==> r.body.None?)
    ensures res.Succeeded? && r.status != 204 ==> Some(res.value) == r.body
  {
    if !IsOk(r.status) then Failed(ClassifyError(r))
    else if r.status == 204 then Succeeded(JObject([]))
    else if r.body.None? then BadJson
    else Succeeded(r.body.value)
  }

  /** Statuses whose responses carry no body by definition (section 15.3 of RFC 9110). */
  predicate NullBodyStatus(status: int) { status == 204 || status == 205 }

  /** `handleResponse` answering every bodiless 2xx status with `{}`. */
  function Classify(r: Response): (res: ApiResult)
    ensures res.Failed? <==> !IsOk(r.status)
    ensures res.Failed? ==> res.error == ClassifyError(r)
    ensures IsOk(r.status) && NullBodyStatus(r.status) ==> res == Succeeded(JObject([]))
    ensures IsOk(r.status) && !NullBodyStatus(r.status) ==> (res.BadJson? <==> r.body.None?)
    ensures res.Succeeded? && !NullBodyStatus(r.status) ==> Some(res.value) == r.body
  {
    if !IsOk(r.status) then Failed(ClassifyError(r))
    else if NullBodyStatus(r.status) then Succeeded(JObject([]))
    else if r.body.None? then BadJson
    else Succeeded(r.body.value)
  }

  /** The two agree except on a 205 response. */
  lemma ClassifyAgrees(r: Response)
    requires r.status != 205
    ensures ClassifyAsWritten(r) == Classify(r)
  {
  }

  /** A 205 Reset Content response has no body, so `response.json()` throws and a success is reported as a failure. */
  lemma ResetContentRejected()
    ensures ClassifyAsWritten(Response(205, Some("4999"), None, None)) == BadJson
    ensures Classify(Response(205, Some("4999"), None, None)) == Succeeded(JObject([]))
  {
  }

  /** The text of the `Error` each classified failure is thrown as. */
  function ErrorMessage(e: ApiError, host: Host): (m: string)
    ensures e.Unauthorized? ==> m == "Authentication failed. Please check your GitHub token."
    ensures e.RateLimited? ==> StartsWith(m, "GitHub API rate limit exceeded. Resets at ")
    ensures e.Forbidden? ==> StartsWith(m, "Access forbidden: ")
    ensures e.NotFound? ==> StartsWith(m, "Resource not found: ")
    ensures e.ValidationFailed? ==> StartsWith(m, "Validation failed: ")
    ensures e.OtherStatus? ==> StartsWith(m, "GitHub API error (" + IntToString(e.status) + "): ")
    ensures e.ErrorBodyNull? ==> m == host.typeErrorText
  {
    match e
    case Unauthorized => "Authentication failed. Please check your GitHub token."
    case RateLimited(ms) =>
      PrefixOf("GitHub API rate limit exceeded. Resets at ", host.timeText(ms));
      "GitHub API rate limit exceeded. Resets at " + host.timeText(ms)
    case Forbidden(m) =>
      PrefixOf("Access forbidden: ", Template(m));
      "Access forbidden: " + Template(m)
    case NotFound(m) =>
      PrefixOf("Resource not found: ", Template(m));
      "Resource not found: " + Template(m)
    case ValidationFailed(m, errs) =>
      var rest := Template(m) + " " + (if Truthy(errs) then host.jsonText(errs.value) else "");
      PrefixOf("Validation failed: ", rest);
      "Validation failed: " + rest
    case OtherStatus(status, m) =>
      PrefixOf("GitHub API error (" + IntToString(status) + "): ", Template(m));
      "GitHub API error (" + IntToString(status) + "): " + Template(m)
    case ErrorBodyNull => host.typeErrorText
  }

  lemma PrefixOf(a: string, b: string)
    ensures StartsWith(a + b, a)
  {
    assert (a + b)[..|a|] == a;
  }

  /** What a rejected `handleResponse` promise carries. */
  function Rejection(res: ApiResult, host: Host): Thrown
    requires !res.Succeeded?
  {
    match res
    case Failed(e) => ErrorObject(ErrorMessage(e, host))
    case BadJson => ErrorObject(host.badJsonText)
  }

  // ---- properties of the classifier ----

  /** The upstream message text that a 404 error message is built from. */
  function UpstreamText(r: Response): string
    requires !ErrorData(r).JNull?
  {
    Template(Property(ErrorData(r), "message"))
  }

  /** Every 404 with a non-null body is reported as "Resource not found: " and the upstream message. */
  lemma NotFoundMessage(r: Response, host: Host)
    requires r.status == 404 && r.body != Some(JNull)
    ensures ClassifyError(r).NotFound?
    ensures ErrorMessage(ClassifyError(r), host) == "Resource not found: " + UpstreamText(r)
  {
  }

  /** Every 422 with a non-null body names the upstream message, then a space, then the serialised `errors` when truthy. */
  lemma ValidationMessage(r: Response, host: Host)
    requires r.status == 422 && r.body != Some(JNull)
    ensures ClassifyError(r).ValidationFailed?
    ensures var errs := Property(ErrorData(r), "errors");
      ErrorMessage(ClassifyError(r), host) ==
        "Validation failed: " + UpstreamText(r) + " " + (if Truthy(errs) then host.jsonText(errs.value) else "")
  {
  }

  /** Any other failing status with a non-null body is reported with its status number and the upstream message. */
  lemma OtherStatusMessage(r: Response, host: Host)
    requires !IsOk(r.status) && r.status !in {401, 403, 404, 422} && r.body != Some(JNull)
    ensures ClassifyError(r) == OtherStatus(r.status, Property(ErrorData(r), "message"))
    ensures ErrorMessage(ClassifyError(r), host) == "GitHub API error (" + IntToString(r.status) + "): " + UpstreamText(r)
  {
  }

  /** A body that is not JSON is reported with the message "Unknown error". */
  lemma UnparseableErrorBody(r: Response, host: Host)
    requires !IsOk(r.status) && r.body.None? && r.status !in {401, 403}
    ensures UpstreamText(r) == "Unknown error"
    ensures r.status == 404 ==> ErrorMessage(ClassifyError(r), host) == "Resource not found: Unknown error"
    ensures r.status !in {404, 422} ==>
      ErrorMessage(ClassifyError(r), host) == "GitHub API error (" + IntToString(r.status) + "): Unknown error"
  {
  }

  /** 401 ignores the body entirely. */
  lemma UnauthorizedIgnoresBody(r: Response, host: Host, body: Option<Json>)
    requires r.status == 401
    ensures ErrorMessage(ClassifyError(r.(body := body)), host) == "Authentication failed. Please check your GitHub token."
  {
  }

  /** The rate-limit branch takes "0" exactly; a missing reset header means the epoch. */
  lemma RateLimitReset(r: Response)
    requires r.status == 403 && r.remaining == Some("0")
    ensures r.reset.None? ==> ClassifyError(r) == RateLimited(Some(0))
    ensures forall n: nat :: r.reset == Some(NatToString(n)) ==> ClassifyError(r) == RateLimited(Some(n * 1000))
  {
    assert ParseInt("0") == Some(0) by { ParseIntOfNatToString(0); }
    forall n: nat | r.reset == Some(NatToString(n)) ensures ClassifyError(r) == RateLimited(Some(n * 1000)) {
      ParseIntOfNatToString(n);
    }
  }

  /** A 403 whose remaining count is anything but the exact text "0" is a plain forbidden error. */
  lemma ForbiddenUnlessExhausted(r: Response, host: Host)
    requires r.status == 403 && r.remaining != Some("0") && r.body != Some(JNull)
    ensures ErrorMessage(ClassifyError(r), host) == "Access forbidden: " + UpstreamText(r)
  {
  }

  /** The message prefix tells which status was seen: "Resource not found: " comes from a 404 and nothing else. */
  lemma NotFoundPrefixIdentifies(r: Response, host: Host)
    requires !IsOk(r.status)
    requires !StartsWith(host.typeErrorText, "Resource not found: ")
    ensures StartsWith(ErrorMessage(ClassifyError(r), host), "Resource not found: ") <==> ClassifyError(r).NotFound?
  {
    var e := ClassifyError(r);
    var m := ErrorMessage(e, host);
    if !e.NotFound? && !e.ErrorBodyNull? {
      var pat := "Resource not found: ";
      match e
      case Unauthorized => UnauthorizedTextDiffers();
      case RateLimited(ms) => DifferentFirst("GitHub API rate limit exceeded. Resets at ", host.timeText(ms), pat);
      case Forbidden(x) => DifferentFirst("Access forbidden: ", Template(x), pat);
      case ValidationFailed(x, y) =>
        DifferentFirst("Validation failed: ", Template(x) + " " + (if Truthy(y) then host.jsonText(y.value) else ""), pat);
        assert m == "Validation failed: " + (Template(x) + " " + (if Truthy(y) then host.jsonText(y.value) else ""));
      case OtherStatus(st, x) =>
        DifferentFirst("GitHub API error (", IntToString(st) + "): " + Template(x), pat);
        assert m == "GitHub API error (" + (IntToString(st) + "): " + Template(x));
    }
    if e.NotFound? {
      StartsWithConcat("Resource not found: ", Template(e.message), "Resource not found: ");
    }
  }

  lemma UnauthorizedTextDiffers()
    ensures !StartsWith("Authentication failed. Please check your GitHub token.", "Resource not found: ")
  {
    var text := "Authentication failed. Please check your GitHub token.";
    assert text == "Authentication failed." + " Please check your GitHub token.";
    DifferentFirst("Authentication failed.", " Please check your GitHub token.", "Resource not found: ");
  }

  /** The documented example messages. */
  lemma NotFoundExample(host: Host)
    ensures ErrorMessage(ClassifyError(Response(404, Some("4999"), Some("1234567890"),
      Some(JObject([("message", JStr("Not Found"))])))), host) == "Resource not found: Not Found"
  {
  }

  /** An exhausted quota is always reported as the rate-limit error, whatever the body. */
  lemma RateLimitMessage(r: Response, host: Host)
    requires r.status == 403 && r.remaining == Some("0")
    ensures StartsWith(ErrorMessage(ClassifyError(r), host), "GitHub API rate limit exceeded. Resets at ")
  {
    var e := ClassifyError(r);
    StartsWithConcat("GitHub API rate limit exceeded. Resets at ", host.timeText(e.resetMs), "GitHub API rate limit exceeded. Resets at ");
  }
}
