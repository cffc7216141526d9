/**
 * The serverless relay (`netlify/functions/tmdb.js`): it answers CORS
 * preflights, refuses every method but GET, checks the `path` parameter and
 * the server's token, and otherwise forwards the request to the movie
 * database, passing its status and body through with caching headers.
 *
 * The upstream call is the function `upstream`, from the route and the
 * forwarded query string to what the database answers or the message of the
 * error the call throws.
 */
module Relay {
  import opened Wrappers
  import opened Strings
  import opened SearchParams

  /** The two environment variables the relay reads; `None` when unset. */
  datatype Env = Env(allowedOrigin: Option<string>, token: Option<string>)

  /** The part of the incoming event the relay looks at. */
  datatype HttpEvent = HttpEvent(
    httpMethod: string,
    headers: Option<map<string, string>>,
    query: Option<seq<(string, JsValue)>>)

  /** An HTTP response: status, headers in order, body. */
  datatype HttpResponse = HttpResponse(statusCode: nat, headers: Params, body: string)

  /** What the upstream call produced: a response, or a thrown error's message. */
  datatype Upstream = Reply(status: nat, body: string) | Threw(message: string)

  // ---------------------------------------------------------------------------
  // CORS
  // ---------------------------------------------------------------------------

  /** `process.env.ALLOWED_ORIGIN || "*"`. */
  function AllowedOrigin(env: Env): string {
    if env.allowedOrigin.Some? && env.allowedOrigin.value != "" then env.allowedOrigin.value else "*"
  }

  /** The header value, or "" when the header is missing or empty. */
  function Header(ev: HttpEvent, name: string): string {
    if ev.headers.Some? && name in ev.headers.value then ev.headers.value[name] else ""
  }

  /** `event.headers?.origin || event.headers?.Origin || ""`. */
  function RequestOrigin(ev: HttpEvent): string {
    if Header(ev, "origin") != "" then Header(ev, "origin") else Header(ev, "Origin")
  }

  /** The `Access-Control-Allow-Origin` value. */
  function AllowOrigin(env: Env, ev: HttpEvent): string {
    var allowed := AllowedOrigin(env);
    if allowed == "*" then "*" else if RequestOrigin(ev) == allowed then RequestOrigin(ev) else "null"
  }

  function CorsHeaders(env: Env, ev: HttpEvent): Params {
    [ ("Access-Control-Allow-Origin", AllowOrigin(env, ev)),
      ("Access-Control-Allow-Headers", "Content-Type"),
      ("Access-Control-Allow-Methods", "GET,OPTIONS"),
      ("Vary", "Origin") ]
  }

  /**
   * The allowed origin is echoed only to that origin: with no origin
   * configured every origin gets "*", otherwise the request's origin comes
   * back exactly when it is the configured one, and "null" in every other case.
   */
  lemma AllowOriginCases(env: Env, ev: HttpEvent)
    ensures AllowedOrigin(env) == "*" ==> AllowOrigin(env, ev) == "*"
    ensures AllowedOrigin(env) != "*" ==> AllowOrigin(env, ev) == AllowedOrigin(env) || AllowOrigin(env, ev) == "null"
    ensures AllowedOrigin(env) != "*" && RequestOrigin(ev) == AllowedOrigin(env) ==> AllowOrigin(env, ev) == RequestOrigin(ev)
    ensures AllowOrigin(env, ev) != "*" && AllowOrigin(env, ev) != "null" ==> AllowOrigin(env, ev) == RequestOrigin(ev)
    ensures env.allowedOrigin.None? || env.allowedOrigin == Some("") ==> AllowOrigin(env, ev) == "*"
  {
  }

  // ---------------------------------------------------------------------------
  // Parameters
  // ---------------------------------------------------------------------------

  /**
   * `event.queryStringParameters?.path`. The parameters are an object, so a
   * name has one value; as in `Forwarded`, a repeated entry is read as its
   * last occurrence, the one an object built from the entries keeps.
   */
  function PathParam(ev: HttpEvent): JsValue {
    if ev.query.Some? then LastValue(ev.query.value, "path") else Undefined
  }

  /** The value of the last entry named `k`, `undefined` when there is none. */
  function LastValue(entries: seq<(string, JsValue)>, k: string): JsValue
    decreases |entries|
  {
    if entries == [] then Undefined
    else if entries[|entries| - 1].0 == k then entries[|entries| - 1].1
    else LastValue(entries[..|entries| - 1], k)
  }

  /** `!path || !path.startsWith("/")` is false: a non-empty string starting with a slash. */
  predicate ValidPath(v: JsValue) {
    v.Str? && v.s != "" && v.s[0] == '/'
  }

  /** The query string sent upstream: every entry but `path`, skipping `undefined` and `null`, set in order. */
  function Forwarded(entries: seq<(string, JsValue)>): Params
    decreases |entries|
  {
    if entries == [] then []
    else
      var q := Forwarded(entries[..|entries| - 1]);
      var (k, v) := entries[|entries| - 1];
      if k != "path" && v.Str? then Set(q, k, v.s) else q
  }

  /** The `delete params.path` and `for (const [k, v] of Object.entries(params))` loop. */
  method ForwardParams(ev: HttpEvent) returns (q: Params)
    ensures q == Forwarded(ev.query.GetOr([]))
  {
    var entries := ev.query.GetOr([]);
    q := [];
    for i := 0 to |entries|
      invariant q == Forwarded(entries[..i])
    {
      assert entries[..i + 1][..i] == entries[..i];
      var (k, v) := entries[i];
      if k != "path" && v.Str? {
        q := Set(q, k, v.s);
      }
    }
    assert entries[..|entries|] == entries;
  }

  /** `path` is never forwarded and no name is repeated. */
  lemma {:induction false} ForwardedShape(entries: seq<(string, JsValue)>)
    ensures !HasKey(Forwarded(entries), "path")
    ensures UniqueKeys(Forwarded(entries))
    decreases |entries|
  {
    if entries != [] {
      var init := entries[..|entries| - 1];
      ForwardedShape(init);
      var (k, v) := entries[|entries| - 1];
      if k != "path" && v.Str? {
        SetKeepsUnique(Forwarded(init), k, v.s);
        SetKeepsOthers(Forwarded(init), k, v.s, "path");
      }
    }
  }

  /**
   * A name other than `path` reads back the value of its last entry that is
   * a string, the empty string included; `undefined` and `null` are skipped.
   */
  lemma {:induction false} ForwardedLookup(entries: seq<(string, JsValue)>, k: string)
    requires k != "path"
    ensures Lookup(Forwarded(entries), k) == LastString(entries, k)
    decreases |entries|
  {
    if entries != [] {
      var init := entries[..|entries| - 1];
      ForwardedLookup(init, k);
      var (k', v) := entries[|entries| - 1];
      if k' != "path" && v.Str? {
        if k' == k {
          SetThenLookup(Forwarded(init), k, v.s);
        } else {
          SetKeepsOthers(Forwarded(init), k', v.s, k);
        }
      }
    }
  }

  /** The value of the last entry named `k` that is a string, if any. */
  function LastString(entries: seq<(string, JsValue)>, k: string): Option<string>
    decreases |entries|
  {
    if entries == [] then None
    else
      var (k', v) := entries[|entries| - 1];
      if k' == k && v.Str? then Some(v.s) else LastString(entries[..|entries| - 1], k)
  }

  // ---------------------------------------------------------------------------
  // The handler
  // ---------------------------------------------------------------------------

  /** What the handler does before any upstream call: answer at once, or call upstream. */
  datatype Decision = Answer(response: HttpResponse) | CallUpstream(route: string, query: Params)

  /** The handler's checks, in the order the source makes them. */
  function Decide(env: Env, ev: HttpEvent): Decision {
    var cors := CorsHeaders(env, ev);
    if ev.httpMethod == "OPTIONS" then Answer(HttpResponse(204, cors, ""))
    else if ev.httpMethod != "GET" then Answer(HttpResponse(405, cors, "Method not allowed"))
    else if !ValidPath(PathParam(ev)) then Answer(HttpResponse(400, cors, "Missing or invalid path"))
    else if env.token.None? || env.token.value == "" then Answer(HttpResponse(500, cors, "Server missing TMDB_READ_TOKEN"))
    else CallUpstream(PathParam(ev).s, Forwarded(ev.query.GetOr([])))
  }

  /** The response built from what upstream produced. */
  function Relayed(env: Env, ev: HttpEvent, up: Upstream): HttpResponse {
    var cors := CorsHeaders(env, ev);
    match up
    case Reply(status, body) =>
      HttpResponse(status, cors + [("Content-Type", "application/json;charset=utf-8"), ("Cache-Control", "public, max-age=300")], body)
    case Threw(message) =>
      HttpResponse(500, cors, "Proxy error: " + (if message == "" then "unknown" else message))
  }

  /** The whole handler as a function of the event, the environment and upstream. */
  function Handled(env: Env, ev: HttpEvent, upstream: (string, Params) -> Upstream): HttpResponse {
    match Decide(env, ev)
    case Answer(response) => response
    case CallUpstream(route, query) => Relayed(env, ev, upstream(route, query))
  }

  /** `handler(event)`: the response, and the upstream call made, if any. */
  method Handler(env: Env, ev: HttpEvent, upstream: (string, Params) -> Upstream)
    returns (response: HttpResponse, called: Option<(string, Params)>)
    ensures response == Handled(env, ev, upstream)
    ensures called.Some? <==> Decide(env, ev).CallUpstream?
    ensures called.Some? ==> called.value == (Decide(env, ev).route, Decide(env, ev).query)
  {
    var cors := CorsHeaders(env, ev);
    called := None;
    if ev.httpMethod == "OPTIONS" {
      return HttpResponse(204, cors, ""), None;
    }
    if ev.httpMethod != "GET" {
      return HttpResponse(405, cors, "Method not allowed"), None;
    }
    var path := PathParam(ev);
    if !(path.Str? && path.s != "" && path.s[0] == '/') {
      return HttpResponse(400, cors, "Missing or invalid path"), None;
    }
    if env.token.None? || env.token.value == "" {
      return HttpResponse(500, cors, "Server missing TMDB_READ_TOKEN"), None;
    }
    var query := ForwardParams(ev);
    called := Some((path.s, query));
    var up := upstream(path.s, query);
    match up {
      case Reply(status, body) =>
        response := HttpResponse(status, cors + [("Content-Type", "application/json;charset=utf-8"), ("Cache-Control", "public, max-age=300")], body);
      case Threw(message) =>
        response := HttpResponse(500, cors, "Proxy error: " + (if message == "" then "unknown" else message));
    }
  }

  // ---------------------------------------------------------------------------
  // Properties of the handler
  // ---------------------------------------------------------------------------

  /**
   * Precedence of the early answers: a preflight is answered 204 with an empty
   * body whatever else is wrong; any other method but GET gets 405; a GET with
   * a bad path gets 400 even when the token is missing; 500 for the token comes
   * last. None of them calls upstream.
   */
  lemma EarlyAnswers(env: Env, ev: HttpEvent)
    ensures ev.httpMethod == "OPTIONS" ==> Decide(env, ev) == Answer(HttpResponse(204, CorsHeaders(env, ev), ""))
    ensures ev.httpMethod != "OPTIONS" && ev.httpMethod != "GET" ==> Decide(env, ev).Answer? && Decide(env, ev).response.statusCode == 405
    ensures ev.httpMethod == "GET" && !ValidPath(PathParam(ev)) ==> Decide(env, ev).Answer? && Decide(env, ev).response.statusCode == 400
    ensures ev.httpMethod == "GET" && ValidPath(PathParam(ev)) && (env.token.None? || env.token == Some("")) ==>
      Decide(env, ev).Answer? && Decide(env, ev).response.statusCode == 500
  {
  }

  /** Upstream is called exactly for a GET with a valid path and a token, with the path and the forwarded parameters. */
  lemma UpstreamCalledWhen(env: Env, ev: HttpEvent)
    ensures Decide(env, ev).CallUpstream? <==>
      ev.httpMethod == "GET" && ValidPath(PathParam(ev)) && env.token.Some? && env.token.value != ""
    ensures Decide(env, ev).CallUpstream? ==>
      Decide(env, ev).route == PathParam(ev).s && Decide(env, ev).route[0] == '/' &&
      !HasKey(Decide(env, ev).query, "path")
  {
    ForwardedShape(ev.query.GetOr([]));
  }

  /**
   * Every response starts with the four CORS headers; an upstream reply keeps
   * its status and body; a thrown error becomes a 500 that carries its message.
   */
  lemma ResponseShape(env: Env, ev: HttpEvent, upstream: (string, Params) -> Upstream)
    ensures var r := Handled(env, ev, upstream);
      |r.headers| >= 4 && r.headers[..4] == CorsHeaders(env, ev)
    ensures Decide(env, ev).CallUpstream? ==>
      var up := upstream(Decide(env, ev).route, Decide(env, ev).query);
      var r := Handled(env, ev, upstream);
      && (up.Reply? ==> r.statusCode == up.status && r.body == up.body && |r.headers| == 6)
      && (up.Threw? ==> r.statusCode == 500 && r.body[..13] == "Proxy error: " && |r.body| > 13)
  {
  }
}
