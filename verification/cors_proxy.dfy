/** The CORS proxy worker: preflight requests are answered directly, `POST /proxy`
    forwards the request described in its JSON body to the target URL (without
    hop-by-hop headers) and relays the answer with CORS headers, and anything
    else gets a short usage text. */
module CorsProxy {
  import opened Base

  datatype Header = Header(name: string, value: string)

  /** A response body: none, text, or the JSON object `{"error": message}`. */
  datatype Body = NoBody | Text(text: string) | ErrorJson(message: string)

  datatype Response = Response(status: int, headers: map<string, string>, body: Body)

  /** An incoming request; `path` is the pathname of its URL. */
  datatype Request = Request(verb: string, path: string, headers: seq<Header>)

  /** The decoded JSON body of a proxy request. `url` is None when the field is
      missing or is not a string; `verb` is its `method` field, "" when absent or
      falsy; `payload` is `JSON.stringify(body.body)` when `body.body` is truthy. */
  datatype ProxyBody = ProxyBody(url: Option<string>, verb: string, payload: Option<string>)

  /** The request sent upstream. */
  datatype Outgoing = Outgoing(verb: string, headers: map<string, string>, payload: Option<string>)

  /** The upstream answer: status, `Content-Type` ("" when absent) and body text. */
  datatype Upstream = Upstream(status: int, contentType: string, text: string)

  /** The outside world of one request: decoding the body (Err with the message
      when `request.json()` throws, or when the body is `null`, whose `url` cannot
      be read; any other body that is not an object reads as `ProxyBody(None, "", None)`),
      `new URL` (true when it accepts the text), the upstream `fetch` with
      `response.text()` (Err with the message when either throws), and the message
      of the error `new Response` throws for a status it refuses. */
  datatype World = World(
    body: Result<ProxyBody>,
    validUrl: string -> bool,
    fetch: (string, Outgoing) -> Result<Upstream>,
    refused: int -> string)

  const Usage: string := "AssetTracker CORS Proxy - Use POST /proxy"

  function CorsHeaders(): map<string, string> {
    map["Access-Control-Allow-Origin" := "*",
        "Access-Control-Allow-Methods" := "GET, POST, OPTIONS",
        "Access-Control-Allow-Headers" := "*"]
  }

  /** Every CORS header is present with its value. */
  predicate HasCors(headers: map<string, string>) {
    forall k :: k in CorsHeaders() ==> k in headers && headers[k] == CorsHeaders()[k]
  }

  function Preflight(): Response {
    Response(204, CorsHeaders()["Access-Control-Max-Age" := "86400"], NoBody)
  }

  function JsonError(message: string, status: int): Response {
    Response(status, CorsHeaders()["Content-Type" := "application/json"], ErrorJson(message))
  }

  // ------------------------------------------------------- forwarded headers

  /** The headers never forwarded, by lower-case name. */
  const HopByHop: set<string> := {"host", "connection", "keep-alive", "transfer-encoding", "upgrade"}

  /** The `forwardHeaders` object after the copy loop: `set` is case-insensitive,
      so names are kept lower-cased, and a later value for a name replaces an
      earlier one. */
  function Forwarded(entries: seq<Header>): map<string, string> {
    if entries == [] then map[]
    else
      var init := Forwarded(entries[..|entries| - 1]);
      var last := entries[|entries| - 1];
      if Lower(last.name) in HopByHop then init else init[Lower(last.name) := last.value]
  }

  lemma LowerIdempotent(s: string)
    ensures Lower(Lower(s)) == Lower(s)
  {
    assert forall i :: 0 <= i < |s| ==> LowerChar(LowerChar(s[i])) == LowerChar(s[i]);
  }

  /** A name is forwarded exactly when some request header has it, ignoring
      case, and it is not hop-by-hop; every forwarded name is lower case. */
  lemma {:induction false} ForwardedNames(entries: seq<Header>)
    ensures forall name :: name in Forwarded(entries) <==>
      name !in HopByHop && exists i :: 0 <= i < |entries| && Lower(entries[i].name) == name
    ensures forall name :: name in Forwarded(entries) ==> Lower(name) == name
  {
    if entries != [] {
      var n := |entries| - 1;
      var init := entries[..n];
      var last := entries[n];
      ForwardedNames(init);
      forall name | name !in HopByHop && (exists i :: 0 <= i < |entries| && Lower(entries[i].name) == name)
        ensures name in Forwarded(entries)
      {
        var i :| 0 <= i < |entries| && Lower(entries[i].name) == name;
        if i < n { assert entries[i] == init[i]; }
      }
      forall name | name in Forwarded(entries)
        ensures name !in HopByHop && exists i :: 0 <= i < |entries| && Lower(entries[i].name) == name
      {
        if name != Lower(last.name) {
          var i :| 0 <= i < n && Lower(init[i].name) == name;
          assert entries[i] == init[i];
        }
      }
      forall name | name in Forwarded(entries) ensures Lower(name) == name {
        if name == Lower(last.name) { LowerIdempotent(last.name); }
      }
    }
  }

  /** A forwarded name carries the value of the last request header with that
      name, ignoring case. */
  lemma {:induction false} ForwardedValues(entries: seq<Header>, i: nat)
    requires i < |entries| && Lower(entries[i].name) !in HopByHop
    requires forall j :: i < j < |entries| ==> Lower(entries[j].name) != Lower(entries[i].name)
    ensures Lower(entries[i].name) in Forwarded(entries)
    ensures Forwarded(entries)[Lower(entries[i].name)] == entries[i].value
  {
    var n := |entries| - 1;
    if i < n {
      var init := entries[..n];
      assert init[i] == entries[i];
      ForwardedValues(init, i);
    }
  }

  /** The copy loop over `request.headers.entries()`. */
  method ForwardHeaders(entries: seq<Header>) returns (forwarded: map<string, string>)
    ensures forwarded == Forwarded(entries)
  {
    forwarded := map[];
    for i := 0 to |entries|
      invariant forwarded == Forwarded(entries[..i])
    {
      assert entries[..i + 1][..i] == entries[..i];
      var key := Lower(entries[i].name);
      if key !in HopByHop {
        forwarded := forwarded[key := entries[i].value];
      }
    }
    assert entries[..|entries|] == entries;
  }

  // ------------------------------------------------------------- the proxy

  /** What is sent upstream: the body's method or GET, the forwarded headers
      and the payload. */
  function OutgoingFor(request: Request, body: ProxyBody): Outgoing {
    Outgoing(if body.verb != "" then body.verb else "GET", Forwarded(request.headers), body.payload)
  }

  /** The statuses `new Response` accepts with a body: 200 to 599, except the
      null-body statuses 204, 205 and 304. Any other status makes it throw, and
      the handler's catch answers instead. */
  predicate Relayable(status: int) {
    200 <= status <= 599 && status != 204 && status != 205 && status != 304
  }

  /** The answer relayed to the caller: the upstream status and text, the CORS
      headers and the upstream content type, application/json by default. */
  function Relayed(up: Upstream): Response {
    Response(up.status,
             CorsHeaders()["Content-Type" := if up.contentType != "" then up.contentType else "application/json"],
             Text(up.text))
  }

  /** `handleProxyRequest`. */
  function Proxied(request: Request, world: World): Response {
    if world.body.Err? then JsonError("Proxy request failed: " + world.body.error, 500)
    else
      var body := world.body.value;
      if body.url.None? || body.url.value == "" then
        JsonError("Missing or invalid \"url\" field in request body", 400)
      else if !world.validUrl(body.url.value) then
        JsonError("Invalid URL: " + body.url.value, 400)
      else
        var answer := world.fetch(body.url.value, OutgoingFor(request, body));
        if answer.Err? then JsonError("Proxy request failed: " + answer.error, 500)
        else if !Relayable(answer.value.status) then
          JsonError("Proxy request failed: " + world.refused(answer.value.status), 500)
        else Relayed(answer.value)
  }

  /** The worker's `fetch` handler. */
  function Routed(request: Request, world: World): Response {
    if request.verb == "OPTIONS" then Preflight()
    else if request.verb == "POST" && request.path == "/proxy" then Proxied(request, world)
    else Response(200, CorsHeaders(), Text(Usage))
  }

  /** `handleProxyRequest`, with the header copy loop. */
  method HandleProxyRequest(request: Request, world: World) returns (r: Response)
    ensures r == Proxied(request, world)
  {
    if world.body.Err? {
      return JsonError("Proxy request failed: " + world.body.error, 500);
    }
    var body := world.body.value;
    if body.url.None? || body.url.value == "" {
      return JsonError("Missing or invalid \"url\" field in request body", 400);
    }
    var target := body.url.value;
    if !world.validUrl(target) {
      return JsonError("Invalid URL: " + target, 400);
    }
    var forwarded := ForwardHeaders(request.headers);
    var verb := if body.verb != "" then body.verb else "GET";
    var answer := world.fetch(target, Outgoing(verb, forwarded, body.payload));
    if answer.Err? {
      return JsonError("Proxy request failed: " + answer.error, 500);
    }
    var upstream := answer.value;
    if !Relayable(upstream.status) {
      return JsonError("Proxy request failed: " + world.refused(upstream.status), 500);
    }
    r := Relayed(upstream);
  }

  method Fetch(request: Request, world: World) returns (r: Response)
    ensures r == Routed(request, world)
  {
    if request.verb == "OPTIONS" {
      return Preflight();
    }
    if request.verb == "POST" && request.path == "/proxy" {
      r := HandleProxyRequest(request, world);
      return;
    }
    r := Response(200, CorsHeaders(), Text(Usage));
  }

  // ------------------------------------------------------------- properties

  /** OPTIONS is answered 204 with the CORS headers and a one-day Max-Age; POST
      to /proxy is proxied; anything else gets 200 and the usage text. Every
      answer, error or not, carries the CORS headers. */
  lemma RoutingRules(request: Request, world: World)
    ensures var r := Routed(request, world);
      && HasCors(r.headers)
      && (request.verb == "OPTIONS" ==>
            r.status == 204 && r.body == NoBody && r.headers["Access-Control-Max-Age"] == "86400")
      && (request.verb == "POST" && request.path == "/proxy" ==> r == Proxied(request, world))
      && (request.verb != "OPTIONS" && !(request.verb == "POST" && request.path == "/proxy") ==>
            r.status == 200 && r.body == Text(Usage))
  {
    if request.verb == "OPTIONS" {
      CorsKept("Access-Control-Max-Age", "86400");
    } else if request.verb == "POST" && request.path == "/proxy" {
      ProxiedCors(request, world);
    } else {
      assert HasCors(CorsHeaders());
    }
  }

  /** Adding a header that is not a CORS header keeps the CORS headers. */
  lemma CorsKept(name: string, value: string)
    requires name !in CorsHeaders()
    ensures HasCors(CorsHeaders()[name := value])
  {
  }

  /** Every answer of the proxy, error or not, carries the CORS headers. */
  lemma ProxiedCors(request: Request, world: World)
    ensures HasCors(Proxied(request, world).headers)
  {
    var r := Proxied(request, world);
    assert r.headers == CorsHeaders()["Content-Type" := r.headers["Content-Type"]];
    CorsKept("Content-Type", r.headers["Content-Type"]);
  }

  /** A missing, non-string or empty `url` is a 400, and so is one `new URL`
      rejects; a body that cannot be decoded or an upstream failure is a 500.
      In none of the 400 cases is anything sent upstream. */
  lemma ProxyErrors(request: Request, world: World, fetch': (string, Outgoing) -> Result<Upstream>)
    ensures var r := Proxied(request, world);
      && (world.body.Err? ==> r.status == 500 && r.body == ErrorJson("Proxy request failed: " + world.body.error))
      && (world.body.Ok? && (world.body.value.url.None? || world.body.value.url.value == "") ==>
            r.status == 400 && r == Proxied(request, world.(fetch := fetch')))
      && (world.body.Ok? && world.body.value.url.Some? && world.body.value.url.value != ""
          && !world.validUrl(world.body.value.url.value) ==>
            r == JsonError("Invalid URL: " + world.body.value.url.value, 400)
            && r == Proxied(request, world.(fetch := fetch')))
      && (r.body.ErrorJson? ==> r.headers["Content-Type"] == "application/json" && HasCors(r.headers))
  {
  }

  /** A valid request sends the body's method (GET by default), exactly the
      non-hop-by-hop request headers and the payload to the target, and relays
      an answer whose status can carry a body: its status and text, the CORS
      headers, and its content type or application/json. Any other status, like
      a failed fetch, is a 500. */
  lemma ProxyForwards(request: Request, world: World)
    requires world.body.Ok? && world.body.value.url.Some? && world.body.value.url.value != ""
    requires world.validUrl(world.body.value.url.value)
    ensures var body := world.body.value;
      var sent := OutgoingFor(request, body);
      var answer := world.fetch(body.url.value, sent);
      var r := Proxied(request, world);
      && (sent.verb == if body.verb == "" then "GET" else body.verb)
      && sent.payload == body.payload
      && (forall name :: name in sent.headers <==>
            name !in HopByHop && exists i :: 0 <= i < |request.headers| && Lower(request.headers[i].name) == name)
      && (answer.Ok? && Relayable(answer.value.status) ==>
            && r.status == answer.value.status && r.body == Text(answer.value.text) && HasCors(r.headers)
            && r.headers["Content-Type"] ==
                 (if answer.value.contentType == "" then "application/json" else answer.value.contentType))
      && (answer.Ok? && !Relayable(answer.value.status) ==>
            r == JsonError("Proxy request failed: " + world.refused(answer.value.status), 500))
      && (answer.Err? ==> r == JsonError("Proxy request failed: " + answer.error, 500))
  {
    ForwardedNames(request.headers);
  }
}
