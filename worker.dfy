/** The edge worker in front of the automation server: preflight answers, a
    health route, two proxy routes (the REST API, which gets the API key, and
    the webhooks, which do not), the allow-list origin choice and the JSON
    replies. The upstream call's outcome is an input. Header names are kept
    lower-case, as the Fetch API's `Headers` object stores them. */
module Worker {
  import opened Types
  import opened Text

  type Headers = map<string, string>

  function Get(h: Headers, name: string): Option<string> {
    if name in h then Some(h[name]) else None
  }

  /** `request.url` after `new URL(...)`: its path and query, or the thrown error. */
  datatype RequestUrl = Url(pathname: string, search: string) | BadUrl(error: Thrown)

  datatype Request = Request(verb: string, url: RequestUrl, headers: Headers, body: string)

  /** The worker's configuration: base URL, API key, optional comma-separated allow-list. */
  datatype Env = Env(apiBaseUrl: string, apiKey: string, allowedOrigins: Option<string>)

  /** The JSON bodies the worker writes itself, or a forwarded upstream body. */
  datatype Body =
    | Empty
    | HealthOk(timestamp: string)
    | ErrorJson(error: string, message: Option<string>)
    | Forwarded(content: string)

  datatype WorkerResult =
    | Response(status: nat, headers: Headers, body: Body)
    /** The returned promise rejects; the platform, not the worker, answers. */
    | Rejected(error: Thrown)

  /** What the upstream `fetch` produced. */
  datatype Upstream =
    | UpstreamResponse(status: nat, contentType: Option<string>, content: string)
    | UpstreamError(error: Thrown)

  /** The request the worker sends upstream. */
  datatype UpstreamRequest = UpstreamRequest(url: string, verb: string, headers: Headers, body: string)

  // ---------------------------------------------------------------- CORS

  /** The allow-list: the configured text split at ',' with each entry trimmed. */
  function Origins(list: string): (r: seq<string>)
    ensures |r| >= 1
    ensures |r| == |Split(list, ',')|
    ensures forall i :: 0 <= i < |r| ==> r[i] == Trim(Split(list, ',')[i])
  {
    var parts := Split(list, ',');
    seq(|parts|, i requires 0 <= i < |parts| => Trim(parts[i]))
  }

  /** The Access-Control-Allow-Origin value for a request Origin header
      (missing counts as '*') and an optional allow-list. */
  function AllowedOrigin(originHeader: Option<string>, allowedOrigins: Option<string>): (r: string)
    ensures r == "*" || (Truthy(allowedOrigins) && r in Origins(allowedOrigins.value))
    ensures Truthy(originHeader) && r == originHeader.value && r != "*" ==>
      Truthy(allowedOrigins) && originHeader.value in Origins(allowedOrigins.value)
  {
    var origin := OrElse(originHeader, "*");
    if !Truthy(allowedOrigins) then "*"
    else
      var origins := Origins(allowedOrigins.value);
      if origin in origins then origin
      else if origins[0] != "*" then origins[0]
      else "*"
  }

  /** The three-way choice: a listed origin is echoed; otherwise the first
      entry, unless that is '*'; with no list, '*'. */
  lemma AllowedOriginOrder(originHeader: Option<string>, allowedOrigins: Option<string>)
    ensures !Truthy(allowedOrigins) ==> AllowedOrigin(originHeader, allowedOrigins) == "*"
    ensures Truthy(allowedOrigins) ==>
      var origins := Origins(allowedOrigins.value);
      var origin := OrElse(originHeader, "*");
      AllowedOrigin(originHeader, allowedOrigins) ==
        if origin in origins then origin else if origins[0] != "*" then origins[0] else "*"
  {
  }

  const AllowMethods := "GET, POST, PUT, DELETE, OPTIONS"

  /** getCORSHeaders. */
  function CorsHeaders(request: Request, allowedOrigins: Option<string>): (h: Headers)
    ensures h.Keys == {"access-control-allow-origin", "access-control-allow-methods",
                       "access-control-allow-headers", "access-control-max-age",
                       "access-control-allow-credentials"}
    ensures h["access-control-allow-origin"] == AllowedOrigin(Get(request.headers, "origin"), allowedOrigins)
    ensures h["access-control-allow-headers"] == "Content-Type, Authorization, X-N8N-API-KEY"
  {
    map[
      "access-control-allow-origin" := AllowedOrigin(Get(request.headers, "origin"), allowedOrigins),
      "access-control-allow-methods" := AllowMethods,
      "access-control-allow-headers" := "Content-Type, Authorization, X-N8N-API-KEY",
      "access-control-max-age" := "86400",
      "access-control-allow-credentials" := "true"]
  }

  /** handleCORS: the preflight reply, built without the allow-list. */
  function Preflight(request: Request): (r: WorkerResult)
    ensures r.Response? && r.status == 200 && r.body == Empty
    ensures Get(r.headers, "access-control-allow-origin") == Some("*")
  {
    Response(200, CorsHeaders(request, None), Empty)
  }

  /** jsonResponse: a JSON body open to every origin (and without the API-key header). */
  function JsonResponse(body: Body, status: nat): (r: WorkerResult)
    ensures r.Response? && r.status == status && r.body == body
    ensures Get(r.headers, "content-type") == Some("application/json")
    ensures Get(r.headers, "access-control-allow-origin") == Some("*")
    ensures Get(r.headers, "access-control-allow-credentials") == None
  {
    Response(status, map[
      "content-type" := "application/json",
      "access-control-allow-origin" := "*",
      "access-control-allow-methods" := AllowMethods,
      "access-control-allow-headers" := "Content-Type, Authorization"], body)
  }

  // ---------------------------------------------------------------- upstream

  /** `.replace(/\/$/, '')`: one trailing '/' removed. */
  function StripTrailingSlash(base: string): (r: string)
    ensures r == base || r + "/" == base
    ensures EndsWith(base, "/") <==> r != base
  {
    if base != [] && base[|base| - 1] == '/' then base[..|base| - 1] else base
  }

  /** The upstream URL: base without a trailing '/', then the path, then the query. */
  function UpstreamUrl(base: string, pathname: string, search: string): (r: string)
    ensures var b := StripTrailingSlash(base);
      |r| == |b| + |pathname| + |search| && r[..|b|] == b
      && r[|b|..|b| + |pathname|] == pathname && r[|b| + |pathname|..] == search
  {
    StripTrailingSlash(base) + pathname + search
  }

  /** proxyToN8nAPI's outbound request: the client's headers plus the API key. */
  function ApiUpstreamRequest(request: Request, env: Env, url: string): (u: UpstreamRequest)
    ensures u.url == url && u.verb == request.verb && u.body == request.body
    ensures u.headers.Keys == request.headers.Keys + {"x-n8n-api-key"}
    ensures Get(u.headers, "x-n8n-api-key") == Some(env.apiKey)
    ensures forall name :: name in request.headers && name != "x-n8n-api-key" ==> Get(u.headers, name) == Some(request.headers[name])
  {
    UpstreamRequest(url, request.verb, request.headers["x-n8n-api-key" := env.apiKey], request.body)
  }

  /** proxyToN8nWebhook's outbound request: only a content type, never the key. */
  function WebhookUpstreamRequest(request: Request, url: string): (u: UpstreamRequest)
    ensures u.headers.Keys == {"content-type"}
    ensures u.headers["content-type"] == OrElse(Get(request.headers, "content-type"), "application/json")
  {
    UpstreamRequest(url, request.verb,
      map["content-type" := OrElse(Get(request.headers, "content-type"), "application/json")], request.body)
  }

  /** The reply built from an upstream response: its status, its body and its
      content type (or JSON), on top of the given extra headers. */
  function Relay(extra: Headers, status: nat, contentType: Option<string>, content: string): (r: WorkerResult)
    ensures r.Response? && r.status == status && r.body == Forwarded(content)
    ensures Get(r.headers, "content-type") == Some(OrElse(contentType, "application/json"))
  {
    Response(status, extra["content-type" := OrElse(contentType, "application/json")], Forwarded(content))
  }

  // ---------------------------------------------------------------- dispatch

  datatype Route = PreflightRoute | HealthRoute | ApiRoute | WebhookRoute | NotFoundRoute | UrlError(error: Thrown)

  /** The dispatch order of fetch: method first, then the exact health paths,
      then the two prefixes. */
  function RouteOf(request: Request): (r: Route)
    ensures request.verb == "OPTIONS" <==> r == PreflightRoute
    ensures r.UrlError? <==> request.verb != "OPTIONS" && request.url.BadUrl?
    ensures r == HealthRoute <==> (request.verb != "OPTIONS" && request.url.Url?
      && (request.url.pathname == "/health" || request.url.pathname == "/"))
    ensures r == ApiRoute ==> StartsWith(request.url.pathname, "/api/v1/")
    ensures r == WebhookRoute ==> (StartsWith(request.url.pathname, "/webhook/")
      && !StartsWith(request.url.pathname, "/api/v1/"))
    ensures r == NotFoundRoute <==> (request.verb != "OPTIONS" && request.url.Url?
      && request.url.pathname != "/health" && request.url.pathname != "/"
      && !StartsWith(request.url.pathname, "/api/v1/") && !StartsWith(request.url.pathname, "/webhook/"))
  {
    if request.verb == "OPTIONS" then PreflightRoute
    else match request.url
      case BadUrl(e) => UrlError(e)
      case Url(path, _) =>
        if path == "/health" || path == "/" then HealthRoute
        else if StartsWith(path, "/api/v1/") then ApiRoute
        else if StartsWith(path, "/webhook/") then WebhookRoute
        else NotFoundRoute
  }

  /** The request sent upstream for a proxy route. */
  function Outbound(request: Request, env: Env): (u: Option<UpstreamRequest>)
    ensures u.Some? <==> RouteOf(request) == ApiRoute || RouteOf(request) == WebhookRoute
    ensures u.Some? ==> u.value.url == UpstreamUrl(env.apiBaseUrl, request.url.pathname, request.url.search)
    ensures u.Some? ==> (Get(u.value.headers, "x-n8n-api-key") == Some(env.apiKey) <==> RouteOf(request) == ApiRoute)
  {
    match RouteOf(request)
    case ApiRoute =>
      var u := ApiUpstreamRequest(request, env, UpstreamUrl(env.apiBaseUrl, request.url.pathname, request.url.search));
      Some(u)
    case WebhookRoute =>
      Some(WebhookUpstreamRequest(request, UpstreamUrl(env.apiBaseUrl, request.url.pathname, request.url.search)))
    case _ => None
  }

  function InternalError(e: Thrown): WorkerResult {
    JsonResponse(ErrorJson("Internal server error", Some(MessageOr(e, "Unknown error"))), 500)
  }

  /** The reply to a request, given the clock text and the outcome of the
      upstream call (read only on a proxy route). Upstream failures are caught
      and proxied replies carry the CORS headers. */
  function Fetch(request: Request, env: Env, now: string, upstream: Upstream): (r: WorkerResult)
    ensures r.Response?
  {
    match RouteOf(request)
    case PreflightRoute => Preflight(request)
    case UrlError(e) => InternalError(e)
    case HealthRoute => JsonResponse(HealthOk(now), 200)
    case NotFoundRoute => JsonResponse(ErrorJson("Not found", None), 404)
    case _ =>
      match upstream
      case UpstreamError(e) => InternalError(e)
      case UpstreamResponse(status, contentType, content) =>
        Relay(CorsHeaders(request, env.allowedOrigins), status, contentType, content)
  }

  /** fetch as written: the proxy's promise is returned without being awaited,
      so its rejection bypasses the catch; and spreading a `Headers` object
      copies none of its entries, so a proxied reply carries only its content type. */
  function FetchAsWritten(request: Request, env: Env, now: string, upstream: Upstream): (r: WorkerResult)
    ensures RouteOf(request) != ApiRoute && RouteOf(request) != WebhookRoute ==> r == Fetch(request, env, now, upstream)
  {
    if RouteOf(request) == ApiRoute || RouteOf(request) == WebhookRoute then
      match upstream
      case UpstreamError(e) => Rejected(e)
      case UpstreamResponse(status, contentType, content) => Relay(map[], status, contentType, content)
    else Fetch(request, env, now, upstream)
  }

  /** Preflight is answered before routing and always allows any origin, even
      with an allow-list configured. */
  lemma PreflightIgnoresAllowList(request: Request, env: Env, now: string, upstream: Upstream)
    requires request.verb == "OPTIONS"
    ensures var r := Fetch(request, env, now, upstream);
      r.status == 200 && Get(r.headers, "access-control-allow-origin") == Some("*")
  {
  }

  /** The non-proxy replies: health (checked before the prefixes), 404, and 500 for an unreadable URL. */
  lemma FetchFixedReplies(request: Request, env: Env, now: string, upstream: Upstream)
    ensures RouteOf(request) == HealthRoute ==> Fetch(request, env, now, upstream) == JsonResponse(HealthOk(now), 200)
    ensures RouteOf(request) == NotFoundRoute ==> Fetch(request, env, now, upstream) == JsonResponse(ErrorJson("Not found", None), 404)
    ensures request.verb != "OPTIONS" && request.url.BadUrl? ==>
      var r := Fetch(request, env, now, upstream);
      r.status == 500 && r.body == ErrorJson("Internal server error", Some(MessageOr(request.url.error, "Unknown error")))
  {
  }

  /** A proxied reply keeps the upstream status and body, uses the upstream
      content type or JSON, and allows the origin the allow-list chooses. */
  lemma ProxiedReply(request: Request, env: Env, now: string, status: nat, contentType: Option<string>, content: string)
    requires RouteOf(request) == ApiRoute || RouteOf(request) == WebhookRoute
    ensures var r := Fetch(request, env, now, UpstreamResponse(status, contentType, content));
      && r.status == status && r.body == Forwarded(content)
      && Get(r.headers, "content-type") == Some(OrElse(contentType, "application/json"))
      && Get(r.headers, "access-control-allow-origin")
         == Some(AllowedOrigin(Get(request.headers, "origin"), env.allowedOrigins))
  {
  }

  /** A failed upstream call: as written the worker's promise rejects; corrected, a 500 JSON reply. */
  lemma UpstreamFailure(request: Request, env: Env, now: string, e: Thrown)
    requires RouteOf(request) == ApiRoute || RouteOf(request) == WebhookRoute
    ensures FetchAsWritten(request, env, now, UpstreamError(e)) == Rejected(e)
    ensures Fetch(request, env, now, UpstreamError(e)) == InternalError(e)
  {
  }

  /** A concrete cross-origin API call: as written, the proxied reply has no
      Access-Control-Allow-Origin, so a browser withholds it from the dashboard;
      corrected, it allows the listed origin. */
  lemma ProxiedReplyLacksCors()
    ensures var request := Request("GET", Url("/api/v1/workflows", ""), map["origin" := "https://app.example"], "");
      var env := Env("https://n8n.example/", "key", Some("https://app.example"));
      var upstream := UpstreamResponse(200, Some("application/json"), "[]");
      && Get(FetchAsWritten(request, env, "t", upstream).headers, "access-control-allow-origin") == None
      && Get(Fetch(request, env, "t", upstream).headers, "access-control-allow-origin") == Some("https://app.example")
  {
    var origin := "https://app.example";
    var request := Request("GET", Url("/api/v1/workflows", ""), map["origin" := origin], "");
    assert StartsWith("/api/v1/workflows", "/api/v1/");
    assert RouteOf(request) == ApiRoute;
    OriginsOfOne(origin);
    assert AllowedOrigin(Some(origin), Some(origin)) == origin;
  }

  /** A one-entry allow-list without surrounding whitespace is that entry. */
  lemma OriginsOfOne(s: string)
    requires s != [] && ',' !in s && !IsJsSpace(s[0]) && !IsJsSpace(s[|s| - 1])
    ensures Origins(s) == [s]
  {
    SplitNoSeparator(s, ',');
    TrimKeepsUnspaced(s);
  }
}
