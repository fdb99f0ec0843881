/**
 * The request filter `middleware` (middleware.ts, lines 4-74): CORS
 * annotation, the direct answer to a preflight request, and the session
 * refresh whose `setAll` callback replaces the response.
 *
 * The identity provider's client and its `getUser` call are not modelled;
 * their only effect on the filter is a sequence of `setAll` calls, each with
 * one batch of cookies, which is a parameter here. `NODE_ENV` is a parameter
 * too.
 */
module Middleware {
  import opened Wrappers
  import opened Cors
  import opened Cookies

  /** The incoming request: its method, its `Origin` header and its cookie jar. */
  class Request {
    const httpMethod: string
    const origin: Option<string>
    var cookies: map<string, string>

    constructor (httpMethod: string, origin: Option<string>, cookies: map<string, string>)
      ensures this.httpMethod == httpMethod && this.origin == origin && this.cookies == cookies
    {
      this.httpMethod := httpMethod;
      this.origin := origin;
      this.cookies := cookies;
    }

    /** `request.cookies.set(name, value)` */
    method SetCookie(name: string, value: string)
      modifies this`cookies
      ensures cookies == old(cookies)[name := value]
    {
      cookies := cookies[name := value];
    }
  }

  /**
   * What a response consists of. `forwarded` is `Some(jar)` for a
   * pass-through response (`NextResponse.next({ request })`), which hands the
   * request on downstream with the cookie jar `jar` it had when the response
   * was made; it is `None` for a response the filter answers itself.
   */
  datatype ResponseValue = ResponseValue(
    status: int,
    body: Option<string>,
    headers: map<string, string>,
    cookies: map<string, Cookie>,
    forwarded: Option<map<string, string>>)

  class Response {
    const status: int
    const body: Option<string>
    const forwarded: Option<map<string, string>>
    var headers: map<string, string>
    var cookies: map<string, Cookie>

    function Value(): ResponseValue
      reads this
    {
      ResponseValue(status, body, headers, cookies, forwarded)
    }

    /** `NextResponse.next({ request })`: status 200, no headers or cookies of its own yet. */
    constructor Next(request: Request)
      ensures Value() == ResponseValue(200, None, map[], map[], Some(request.cookies))
    {
      status := 200;
      body := None;
      forwarded := Some(request.cookies);
      headers := map[];
      cookies := map[];
    }

    /** `new Response(body, { status, headers })` */
    constructor Direct(body: Option<string>, status: int, headers: map<string, string>)
      ensures Value() == ResponseValue(status, body, headers, map[], None)
    {
      this.status := status;
      this.body := body;
      forwarded := None;
      this.headers := headers;
      cookies := map[];
    }

    /** `response.headers.set(name, value)` */
    method SetHeader(name: string, value: string)
      modifies this`headers
      ensures headers == old(headers)[name := value]
    {
      headers := headers[name := value];
    }

    /** `response.cookies.set(name, value, options)` */
    method SetCookie(cookie: Cookie)
      modifies this`cookies
      ensures cookies == old(cookies)[cookie.name := cookie]
    {
      cookies := cookies[cookie.name := cookie];
    }
  }

  // ---------------------------------------------------------------------
  // The filter's result as a function of its inputs.

  /** The response `setAll` leaves behind: a fresh pass-through holding this batch's cookies only. */
  function Refreshed(requestCookies: map<string, string>, batch: seq<Cookie>): ResponseValue {
    ResponseValue(200, None, map[], WriteCookies(map[], batch), Some(requestCookies))
  }

  /** The response made at line 17 and annotated at lines 22-29. */
  function Annotated(origin: Option<string>, cookies: map<string, string>, patterns: seq<Pattern>): ResponseValue {
    ResponseValue(200, None, if IsAllowed(patterns, origin) then CorsHeaders(origin.value) else map[],
                  map[], Some(cookies))
  }

  /** The response the filter returns. */
  function Respond(httpMethod: string, origin: Option<string>, cookies: map<string, string>,
                   nodeEnv: Option<string>, setAllCalls: seq<seq<Cookie>>): ResponseValue
  {
    var patterns := AllowedOrigins(IsDevelopment(nodeEnv));
    if httpMethod == "OPTIONS" then
      if IsAllowed(patterns, origin) then ResponseValue(200, None, PreflightHeaders(origin.value), map[], None)
      else ResponseValue(403, None, map[], map[], None)
    else if setAllCalls == [] then Annotated(origin, cookies, patterns)
    else Refreshed(WriteBatches(cookies, setAllCalls), Last(setAllCalls))
  }

  /** The request's cookie jar once the filter is done. */
  function RequestCookiesAfter(httpMethod: string, cookies: map<string, string>,
                               setAllCalls: seq<seq<Cookie>>): map<string, string>
  {
    if httpMethod == "OPTIONS" then cookies else WriteBatches(cookies, setAllCalls)
  }

  // ---------------------------------------------------------------------
  // The filter.

  /**
   * The `setAll` callback (lines 59-65): write each cookie into the request,
   * then replace the response by a fresh pass-through response and write
   * each cookie into that. The returned object is the new value of the
   * filter's `supabaseResponse` variable.
   */
  method SetAll(request: Request, cookiesToSet: seq<Cookie>) returns (response: Response)
    modifies request`cookies
    ensures fresh(response)
    ensures request.cookies == WriteValues(old(request.cookies), cookiesToSet)
    ensures response.Value() == Refreshed(request.cookies, cookiesToSet)
  {
    var k := 0;
    while k < |cookiesToSet|
      invariant 0 <= k <= |cookiesToSet|
      invariant request.cookies == WriteValues(old(request.cookies), cookiesToSet[..k])
    {
      assert cookiesToSet[..k + 1][..k] == cookiesToSet[..k];
      request.SetCookie(cookiesToSet[k].name, cookiesToSet[k].value);
      k := k + 1;
    }
    assert cookiesToSet[..k] == cookiesToSet;
    response := new Response.Next(request);
    k := 0;
    while k < |cookiesToSet|
      invariant 0 <= k <= |cookiesToSet|
      invariant response.Value() == Refreshed(request.cookies, cookiesToSet[..k])
    {
      assert cookiesToSet[..k + 1][..k] == cookiesToSet[..k];
      response.SetCookie(cookiesToSet[k]);
      k := k + 1;
    }
    assert cookiesToSet[..k] == cookiesToSet;
  }

  /** Lines 22-29: add the CORS headers when the origin is present and allowed. */
  method Annotate(response: Response, origin: Option<string>, allowedOrigins: seq<Pattern>)
    modifies response`headers
    ensures response.headers ==
      if IsAllowed(allowedOrigins, origin) then old(response.headers) + CorsHeaders(origin.value)
      else old(response.headers)
  {
    if origin.Some? && origin.value != "" {
      var isAllowed := Any(allowedOrigins, origin.value);
      if isAllowed {
        response.SetHeader(AllowOrigin, origin.value);
        response.SetHeader(AllowCredentials, "true");
        response.SetHeader(VaryHeader, "Origin");
      }
    }
  }

  /**
   * Lines 51-71: `getUser` makes the `setAll` calls `setAllCalls`; each one
   * replaces the filter's response, which starts as `initial`.
   */
  method RefreshSession(request: Request, initial: Response, setAllCalls: seq<seq<Cookie>>)
    returns (response: Response)
    modifies request`cookies
    ensures request.cookies == WriteBatches(old(request.cookies), setAllCalls)
    ensures setAllCalls == [] ==> response == initial
    ensures setAllCalls != [] ==> fresh(response) && response.Value() == Refreshed(request.cookies, Last(setAllCalls))
  {
    response := initial;
    var i := 0;
    while i < |setAllCalls|
      invariant 0 <= i <= |setAllCalls|
      invariant request.cookies == WriteBatches(old(request.cookies), setAllCalls[..i])
      invariant i == 0 ==> response == initial
      invariant i > 0 ==> fresh(response) && response.Value() == Refreshed(request.cookies, setAllCalls[i - 1])
    {
      assert setAllCalls[..i + 1][..i] == setAllCalls[..i];
      response := SetAll(request, setAllCalls[i]);
      i := i + 1;
    }
    assert setAllCalls[..i] == setAllCalls;
  }

  /**
   * `middleware(request)` with `NODE_ENV` given as `nodeEnv` and the
   * identity client's `getUser` making the `setAll` calls `setAllCalls`.
   */
  method Handle(request: Request, nodeEnv: Option<string>, setAllCalls: seq<seq<Cookie>>)
    returns (response: Response)
    modifies request`cookies
    ensures fresh(response)
    ensures response.Value() == Respond(request.httpMethod, request.origin, old(request.cookies), nodeEnv, setAllCalls)
    ensures request.cookies == RequestCookiesAfter(request.httpMethod, old(request.cookies), setAllCalls)
  {
    var origin := request.origin;
    var allowedOrigins := AllowedOrigins(IsDevelopment(nodeEnv));

    response := new Response.Next(request);
    Annotate(response, origin, allowedOrigins);
    assert response.Value() == Annotated(origin, request.cookies, allowedOrigins);

    if request.httpMethod == "OPTIONS" {
      var isAllowed := origin.Some? && origin.value != "" && Any(allowedOrigins, origin.value);
      if isAllowed {
        response := new Response.Direct(None, 200, PreflightHeaders(origin.value));
      } else {
        response := new Response.Direct(None, 403, map[]);
      }
      return;
    }

    response := RefreshSession(request, response, setAllCalls);
  }

  // ---------------------------------------------------------------------
  // Properties of the filter.

  /**
   * A preflight request is answered before the identity client exists: the
   * answer does not depend on what `getUser` would do, it never forwards the
   * request, and the request's cookies are untouched.
   */
  lemma {:induction false} PreflightSkipsSession(origin: Option<string>, cookies: map<string, string>,
                                                 nodeEnv: Option<string>, calls1: seq<seq<Cookie>>, calls2: seq<seq<Cookie>>)
    ensures Respond("OPTIONS", origin, cookies, nodeEnv, calls1) == Respond("OPTIONS", origin, cookies, nodeEnv, calls2)
    ensures Respond("OPTIONS", origin, cookies, nodeEnv, calls1).forwarded.None?
    ensures Respond("OPTIONS", origin, cookies, nodeEnv, calls1).cookies == map[]
    ensures RequestCookiesAfter("OPTIONS", cookies, calls1) == cookies
  {
  }

  /** An allowed preflight gets 200, no body and exactly the six fixed headers, echoing the origin. */
  lemma {:induction false} PreflightAllowed(origin: Option<string>, cookies: map<string, string>,
                                            nodeEnv: Option<string>, calls: seq<seq<Cookie>>)
    requires IsAllowed(AllowedOrigins(IsDevelopment(nodeEnv)), origin)
    ensures var r := Respond("OPTIONS", origin, cookies, nodeEnv, calls);
      && r.status == 200 && r.body.None?
      && r.headers == PreflightHeaders(origin.value)
      && |r.headers.Keys| == 6
      && r.headers[AllowOrigin] == origin.value
  {
  }

  /** A preflight with no origin, an empty one or one no pattern accepts gets a bare 403. */
  lemma {:induction false} PreflightRefused(origin: Option<string>, cookies: map<string, string>,
                                            nodeEnv: Option<string>, calls: seq<seq<Cookie>>)
    requires !IsAllowed(AllowedOrigins(IsDevelopment(nodeEnv)), origin)
    ensures Respond("OPTIONS", origin, cookies, nodeEnv, calls) == ResponseValue(403, None, map[], map[], None)
  {
  }

  /** Every allowed origin is an `http` or `https` URL, so it is never the wildcard. */
  lemma {:induction false} AllowedIsNotWildcard(patterns: seq<Pattern>, origin: string)
    requires Any(patterns, origin)
    ensures origin != "*"
  {
  }

  /**
   * Before any `setAll` call, a non-preflight response carries the three
   * CORS headers exactly when the origin is allowed, with the origin echoed
   * (never `*`); otherwise it carries none of them.
   */
  lemma {:induction false} AnnotatedUntilRefresh(httpMethod: string, origin: Option<string>,
                                                 cookies: map<string, string>, nodeEnv: Option<string>)
    requires httpMethod != "OPTIONS"
    ensures var r := Respond(httpMethod, origin, cookies, nodeEnv, []);
      var allowed := IsAllowed(AllowedOrigins(IsDevelopment(nodeEnv)), origin);
      && r.status == 200 && r.forwarded == Some(cookies)
      && (AllowOrigin in r.headers <==> allowed)
      && (allowed ==> r.headers == CorsHeaders(origin.value)
                      && r.headers[AllowOrigin] == origin.value && r.headers[AllowOrigin] != "*"
                      && r.headers[AllowCredentials] == "true" && r.headers[VaryHeader] == "Origin")
      && (!allowed ==> r.headers == map[])
  {
  }

  /**
   * Once `setAll` has run, the returned response is the fresh pass-through
   * response of the last call: none of the CORS headers, only the last
   * batch's cookies (the last entry per name), and the request handed on
   * with every batch's cookies written into its jar.
   */
  lemma {:induction false} RefreshDropsCors(httpMethod: string, origin: Option<string>, cookies: map<string, string>,
                                            nodeEnv: Option<string>, calls: seq<seq<Cookie>>, name: string)
    requires httpMethod != "OPTIONS" && calls != []
    ensures var r := Respond(httpMethod, origin, cookies, nodeEnv, calls);
      && r.status == 200 && r.headers == map[]
      && (name in r.cookies <==> LastNamed(Last(calls), name).Some?)
      && (name in r.cookies ==> r.cookies[name] == Last(calls)[LastNamed(Last(calls), name).value])
      && r.forwarded == Some(RequestCookiesAfter(httpMethod, cookies, calls))
    ensures var jar := RequestCookiesAfter(httpMethod, cookies, calls);
      && (name in jar <==> name in cookies || LastNamed(Flatten(calls), name).Some?)
      && (LastNamed(Flatten(calls), name).Some? ==>
            jar[name] == Flatten(calls)[LastNamed(Flatten(calls), name).value].value)
      && (LastNamed(Flatten(calls), name).None? && name in cookies ==> jar[name] == cookies[name])
  {
    WriteCookiesLastWins(map[], Last(calls), name);
    WriteBatchesFlatten(cookies, calls);
    WriteValuesLastWins(cookies, Flatten(calls), name);
  }

  /** In production no origin is allowed: every preflight is refused and no response has CORS headers. */
  lemma {:induction false} ProductionNeverCors(httpMethod: string, origin: Option<string>,
                                               cookies: map<string, string>, calls: seq<seq<Cookie>>)
    ensures var r := Respond(httpMethod, origin, cookies, Some("production"), calls);
      && AllowOrigin !in r.headers
      && (httpMethod == "OPTIONS" ==> r.status == 403)
  {
  }
}
