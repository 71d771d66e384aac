/** The request-building part of the registry client's REST helper:
    the null-address short cut, URL composition, the three layers of
    headers (defaults plus authentication headers, then the caller's
    headers, then the cookie header), the body decision, and the result
    the response handler receives. The pooled transport is not modelled:
    its outcome is an input, `Some` response or `None` on an exception or
    a timeout. */
module RestUtils {
  import opened Types
  import opened Headers
  import opened Auth

  const HEADER_CONTENT_TYPE := "Content-Type"
  const HEADER_USER_AGENT := "User-Agent"
  const HEADER_TENANT_NAME := "x-domain-name"
  const HEADER_COOKIE := "Cookie"
  const CONTENT_TYPE_JSON := "application/json"
  const USER_AGENT := "cse-serviceregistry-client/1.0.0"

  // ---------------------------------------------------------------- URL

  /** `String.lastIndexOf` for one character: -1 when it does not occur. */
  function LastIndexOf(s: string, c: char): (r: int)
    ensures -1 <= r < |s|
    ensures r == -1 <==> c !in s
    ensures r >= 0 ==> s[r] == c && forall j :: r < j < |s| ==> s[j] != c
  {
    if s == [] then -1
    else if s[|s| - 1] == c then |s| - 1
    else LastIndexOf(s[..|s| - 1], c)
  }

  /** The request URL: the URI, then, for a non-empty query string, a
      separator and the query string. The separator is `&` exactly when the
      URI has a `?` somewhere after its first character. */
  function BuildUrl(uri: string, query: string): (url: string)
    ensures query == [] ==> url == uri
    ensures query != [] ==> |url| == |uri| + 1 + |query| && url[..|uri|] == uri && url[|uri| + 1..] == query
    ensures query != [] ==> (url[|uri|] == '&' <==> exists i :: 0 < i < |uri| && uri[i] == '?')
    ensures query != [] ==> (url[|uri|] == '?' <==> forall i :: 0 < i < |uri| ==> uri[i] != '?')
  {
    if query == [] then uri
    else uri + [if LastIndexOf(uri, '?') > 0 then '&' else '?'] + query
  }

  /** A query string joins a plain path with `?` and a path that already
      has a query with `&`; an empty one leaves the URI alone. */
  lemma BuildUrlExamples()
    ensures BuildUrl("/v1/foo", "a=1") == "/v1/foo?a=1"
    ensures BuildUrl("/v1/foo?x=2", "a=1") == "/v1/foo?x=2&a=1"
    ensures BuildUrl("/v1/foo", "") == "/v1/foo"
  {
    assert LastIndexOf("/v1/foo", '?') == -1;
    assert LastIndexOf("/v1/foo?x=2", '?') == 7;
  }

  /** A URI whose only `?` is its first character gets a second `?`. */
  lemma BuildUrlLeadingQuestionMark()
    ensures BuildUrl("?x=2", "a=1") == "?x=2?a=1"
  {
    assert LastIndexOf("?x=2", '?') == 0;
  }

  // ---------------------------------------------------------------- cookies

  function CookiePiece(c: Entry): string
  {
    c.key + "=" + c.value + "; "
  }

  /** Total length of the pieces `key=value; ` of the cookies. */
  function PiecesLength(cookies: seq<Entry>): nat
  {
    if cookies == [] then 0
    else PiecesLength(cookies[..|cookies| - 1]) + |cookies[|cookies| - 1].key| + |cookies[|cookies| - 1].value| + 3
  }

  /** The `Cookie` header value: `key=value; ` for each cookie, in iteration
      order, with the trailing `; ` kept. */
  function CookieText(cookies: seq<Entry>): (s: string)
    ensures |s| == PiecesLength(cookies)
    ensures cookies != [] ==> |s| >= 3 && s[|s| - 2..] == "; "
  {
    if cookies == [] then ""
    else CookieText(cookies[..|cookies| - 1]) + CookiePiece(cookies[|cookies| - 1])
  }

  /** The text of the first `i` cookies is a prefix of the whole text. */
  lemma {:induction false} CookieTextPrefix(cookies: seq<Entry>, i: nat)
    requires i <= |cookies|
    ensures CookieText(cookies[..i]) <= CookieText(cookies)
  {
    if i < |cookies| {
      var n := |cookies| - 1;
      assert cookies[..n][..i] == cookies[..i];
      CookieTextPrefix(cookies[..n], i);
    } else {
      assert cookies[..i] == cookies;
    }
  }

  /** Each cookie's `key=value; ` stands in the header value right after the
      pieces of the cookies before it. */
  lemma CookieTextPiece(cookies: seq<Entry>, i: nat)
    requires i < |cookies|
    ensures var at := |CookieText(cookies[..i])|;
            var whole := CookieText(cookies);
            at + |CookiePiece(cookies[i])| <= |whole| && whole[at..at + |CookiePiece(cookies[i])|] == CookiePiece(cookies[i])
  {
    CookieTextPrefix(cookies, i + 1);
    var upTo := cookies[..i + 1];
    assert upTo[..i] == cookies[..i] && upTo[i] == cookies[i];
    var before, piece := CookieText(cookies[..i]), CookiePiece(cookies[i]);
    assert CookieText(upTo) == before + piece;
    var whole := CookieText(cookies);
    assert whole[..|before| + |piece|] == before + piece;
    assert whole[|before|..|before| + |piece|] == (before + piece)[|before|..];
  }

  /** The loop of `httpDo` that appends every cookie to a string builder. */
  method CookieHeaderValue(cookies: seq<Entry>) returns (s: string)
    ensures s == CookieText(cookies)
  {
    s := "";
    var i := 0;
    while i < |cookies|
      invariant 0 <= i <= |cookies|
      invariant s == CookieText(cookies[..i])
    {
      assert cookies[..i + 1][..i] == cookies[..i];
      s := s + cookies[i].key;
      s := s + "=";
      s := s + cookies[i].value;
      s := s + "; ";
      i := i + 1;
    }
    assert cookies[..i] == cookies;
  }

  // ---------------------------------------------------------------- body

  /** The body passed to `end`: present only for a method other than GET with
      a non-null, non-empty body, and then exactly the caller's bytes. */
  function OutgoingBody(m: HttpMethod, body: Option<seq<byte>>): (b: Option<seq<byte>>)
    ensures b.Some? <==> m != GET && body.Some? && |body.value| > 0
    ensures b.Some? ==> b == body
  {
    if m != GET && body.Some? && |body.value| > 0 then body else None
  }

  // ---------------------------------------------------------------- headers

  /** `getDefaultHeaders`: content type, user agent and tenant, then the
      authentication headers, all added (never set). */
  function DefaultHeaders(tenantName: string, auth: seq<Entry>): (hs: seq<Entry>)
    ensures |hs| == |auth| + 3
    ensures hs[3..] == auth
    ensures hs[0].key == HEADER_CONTENT_TYPE && hs[1].key == HEADER_USER_AGENT && hs[2] == Entry(HEADER_TENANT_NAME, tenantName)
  {
    [Entry(HEADER_CONTENT_TYPE, CONTENT_TYPE_JSON)] + ([Entry(HEADER_USER_AGENT, USER_AGENT)] + ([Entry(HEADER_TENANT_NAME, tenantName)] + auth))
  }

  /** The three default headers are always there, each first under its
      name; an authentication header of the same name adds values after it
      instead of replacing it. */
  lemma DefaultHeadersPresent(tenantName: string, auth: seq<Entry>)
    ensures GetAll(DefaultHeaders(tenantName, auth), HEADER_CONTENT_TYPE) == [CONTENT_TYPE_JSON] + GetAll(auth, HEADER_CONTENT_TYPE)
    ensures GetAll(DefaultHeaders(tenantName, auth), HEADER_USER_AGENT) == [USER_AGENT] + GetAll(auth, HEADER_USER_AGENT)
    ensures GetAll(DefaultHeaders(tenantName, auth), HEADER_TENANT_NAME) == [tenantName] + GetAll(auth, HEADER_TENANT_NAME)
  {
    DistinctDefaultNames();
    assert GetAll(DefaultHeaders(tenantName, auth), HEADER_CONTENT_TYPE) == [CONTENT_TYPE_JSON] + GetAll(auth, HEADER_CONTENT_TYPE) by {
      DefaultHeadersSplit(tenantName, auth, HEADER_CONTENT_TYPE);
    }
    assert GetAll(DefaultHeaders(tenantName, auth), HEADER_USER_AGENT) == [USER_AGENT] + GetAll(auth, HEADER_USER_AGENT) by {
      DefaultHeadersSplit(tenantName, auth, HEADER_USER_AGENT);
    }
    assert GetAll(DefaultHeaders(tenantName, auth), HEADER_TENANT_NAME) == [tenantName] + GetAll(auth, HEADER_TENANT_NAME) by {
      DefaultHeadersSplit(tenantName, auth, HEADER_TENANT_NAME);
    }
  }

  /** Any other name has only the authentication headers' values. */
  lemma DefaultHeadersOther(tenantName: string, auth: seq<Entry>, name: string)
    requires !NameEq(name, HEADER_CONTENT_TYPE) && !NameEq(name, HEADER_USER_AGENT) && !NameEq(name, HEADER_TENANT_NAME)
    ensures GetAll(DefaultHeaders(tenantName, auth), name) == GetAll(auth, name)
  {
    DefaultHeadersSplit(tenantName, auth, name);
  }

  /** The three default names are different headers. */
  lemma DistinctDefaultNames()
    ensures !NameEq(HEADER_CONTENT_TYPE, HEADER_USER_AGENT) && !NameEq(HEADER_USER_AGENT, HEADER_CONTENT_TYPE)
    ensures !NameEq(HEADER_CONTENT_TYPE, HEADER_TENANT_NAME) && !NameEq(HEADER_TENANT_NAME, HEADER_CONTENT_TYPE)
    ensures !NameEq(HEADER_USER_AGENT, HEADER_TENANT_NAME) && !NameEq(HEADER_TENANT_NAME, HEADER_USER_AGENT)
  {
    assert |HEADER_CONTENT_TYPE| == 12 && |HEADER_USER_AGENT| == 10 && |HEADER_TENANT_NAME| == 13;
  }

  /** The values of a name in the default headers, entry by entry. */
  lemma DefaultHeadersSplit(tenantName: string, auth: seq<Entry>, name: string)
    ensures GetAll(DefaultHeaders(tenantName, auth), name) ==
              (if NameEq(HEADER_CONTENT_TYPE, name) then [CONTENT_TYPE_JSON] else [])
              + ((if NameEq(HEADER_USER_AGENT, name) then [USER_AGENT] else [])
              + ((if NameEq(HEADER_TENANT_NAME, name) then [tenantName] else [])
              + GetAll(auth, name)))
  {
    var e1, e2, e3 := Entry(HEADER_CONTENT_TYPE, CONTENT_TYPE_JSON), Entry(HEADER_USER_AGENT, USER_AGENT), Entry(HEADER_TENANT_NAME, tenantName);
    GetAllCons(e3, auth, name);
    var x3 := (if NameEq(HEADER_TENANT_NAME, name) then [tenantName] else []) + GetAll(auth, name);
    assert GetAll([e3] + auth, name) == x3;
    GetAllCons(e2, [e3] + auth, name);
    var x2 := (if NameEq(HEADER_USER_AGENT, name) then [USER_AGENT] else []) + x3;
    assert GetAll([e2] + ([e3] + auth), name) == x2;
    GetAllCons(e1, [e2] + ([e3] + auth), name);
  }

  /** The caller's headers, an empty list for a null map. */
  function CallerHeaders(p: RequestParam): seq<Entry>
  {
    if p.headers.Some? then p.headers.value else []
  }

  predicate HasCookies(p: RequestParam)
  {
    p.cookies.Some? && |p.cookies.value| > 0
  }

  /** The header multimap of the request: defaults and authentication
      headers added, each caller header set, then the cookie header set. */
  function RequestHeaders(p: RequestParam, tenantName: string, auth: seq<Entry>): (hs: seq<Entry>)
    ensures |hs| > 0
    ensures HasCookies(p) ==> hs[|hs| - 1] == Entry(HEADER_COOKIE, CookieText(p.cookies.value))
    ensures !HasCookies(p) && CallerHeaders(p) != [] ==> hs[|hs| - 1] == CallerHeaders(p)[|CallerHeaders(p)| - 1]
    ensures !HasCookies(p) && CallerHeaders(p) == [] ==> hs == DefaultHeaders(tenantName, auth)
  {
    var base := DefaultHeaders(tenantName, auth);
    var withCaller := if p.headers.Some? && |p.headers.value| > 0 then PutAll(base, p.headers.value) else base;
    if HasCookies(p) then Replaced(withCaller, HEADER_COOKIE, CookieText(p.cookies.value)) else withCaller
  }

  // ---------------------------------------------------------------- httpDo

  /** What `httpDo` sends for a context, given the configuration and the
      merged authentication headers in their iteration order. */
  function BuildRequest(ctx: RequestContext, config: RegistryConfig, auth: seq<Entry>): (o: Outgoing)
    ensures o.ShortCircuit? <==> ctx.ipPort.None?
    ensures o.Send? ==> && o.request.httpMethod == ctx.httpMethod
                        && o.request.hostOrIp == ctx.ipPort.value.hostOrIp
                        && o.request.port == ctx.ipPort.value.port
                        && o.request.timeout == config.requestTimeout
  {
    match ctx.ipPort
    case None => ShortCircuit
    case Some(ipPort) =>
      Send(Request(ctx.httpMethod, ipPort.port, ipPort.hostOrIp,
                   BuildUrl(ctx.uri, ctx.params.queryParams),
                   RequestHeaders(ctx.params, config.tenantName, auth),
                   config.requestTimeout,
                   OutgoingBody(ctx.httpMethod, ctx.params.body)))
  }

  /** Header precedence of a sent request, name by name: the cookie header
      when cookies are given; otherwise exactly the caller's value when the
      caller named the header; otherwise the default and authentication
      values, untouched. */
  lemma {:induction false} RequestHeaderValues(p: RequestParam, tenantName: string, auth: seq<Entry>, name: string)
    ensures GetAll(RequestHeaders(p, tenantName, auth), name) ==
              if HasCookies(p) && NameEq(name, HEADER_COOKIE) then [CookieText(p.cookies.value)]
              else match LastValue(CallerHeaders(p), name)
                   case Some(v) => [v]
                   case None => GetAll(DefaultHeaders(tenantName, auth), name)
  {
    var base := DefaultHeaders(tenantName, auth);
    var withCaller := if p.headers.Some? && |p.headers.value| > 0 then PutAll(base, p.headers.value) else base;
    PutAllGetAll(base, CallerHeaders(p), name);
    if HasCookies(p) {
      ReplacedGetAll(withCaller, HEADER_COOKIE, CookieText(p.cookies.value), name);
    }
  }

  /** A header the caller sets ends up with the caller's value alone, whatever
      the defaults and the authentication providers put there. */
  lemma CallerHeaderWins(ctx: RequestContext, config: RegistryConfig, auth: seq<Entry>, i: nat)
    requires ctx.ipPort.Some? && ctx.params.headers.Some?
    requires i < |ctx.params.headers.value|
    requires forall j :: i < j < |ctx.params.headers.value| ==> !NameEq(ctx.params.headers.value[j].key, ctx.params.headers.value[i].key)
    requires !(HasCookies(ctx.params) && NameEq(ctx.params.headers.value[i].key, HEADER_COOKIE))
    ensures GetAll(BuildRequest(ctx, config, auth).request.headers, ctx.params.headers.value[i].key) == [ctx.params.headers.value[i].value]
  {
    var hs := ctx.params.headers.value;
    RequestHeaderValues(ctx.params, config.tenantName, auth, hs[i].key);
    LastValueIsLast(hs, hs[i].key, i);
  }

  /** With cookies, the request carries one `Cookie` header, built from them,
      whatever `Cookie` header the caller supplied. */
  lemma CookieHeaderWins(ctx: RequestContext, config: RegistryConfig, auth: seq<Entry>)
    requires ctx.ipPort.Some? && HasCookies(ctx.params)
    ensures GetAll(BuildRequest(ctx, config, auth).request.headers, HEADER_COOKIE) == [CookieText(ctx.params.cookies.value)]
  {
    RequestHeaderValues(ctx.params, config.tenantName, auth, HEADER_COOKIE);
  }

  /** A default header the caller does not name keeps its value, first of
      its name. */
  lemma DefaultContentTypeKept(ctx: RequestContext, config: RegistryConfig, auth: seq<Entry>)
    requires ctx.ipPort.Some?
    requires LastValue(CallerHeaders(ctx.params), HEADER_CONTENT_TYPE).None?
    ensures GetAll(BuildRequest(ctx, config, auth).request.headers, HEADER_CONTENT_TYPE)
            == [CONTENT_TYPE_JSON] + GetAll(auth, HEADER_CONTENT_TYPE)
  {
    RequestHeaderValues(ctx.params, config.tenantName, auth, HEADER_CONTENT_TYPE);
    DefaultHeadersPresent(config.tenantName, auth);
  }

  /** With no cookies and no caller headers the request carries the default
      and authentication headers exactly, in order. */
  lemma PlainRequestHeaders(ctx: RequestContext, config: RegistryConfig, auth: seq<Entry>)
    requires ctx.ipPort.Some? && !HasCookies(ctx.params) && CallerHeaders(ctx.params) == []
    ensures BuildRequest(ctx, config, auth).request.headers == DefaultHeaders(config.tenantName, auth)
  {
  }

  /** What the response handler receives: the context and, when a request was
      sent, the transport's outcome; after the short cut, no response. */
  function Complete(ctx: RequestContext, o: Outgoing, transport: Option<ResponseHandle>): (r: RestResponse)
    ensures r.requestContext == ctx
    ensures r.response.Some? <==> o.Send? && transport.Some?
    ensures r.response.Some? ==> r.response == transport
  {
    match o
    case ShortCircuit => RestResponse(ctx, None)
    case Send(_) => RestResponse(ctx, transport)
  }

  /** The header steps of `httpDo` on the request's multimap: the defaults
      and authentication headers are added, each caller header is set in
      turn, then the cookie header is set. */
  method RequestHeadersOf(p: RequestParam, tenantName: string, auth: seq<Entry>) returns (entries: seq<Entry>)
    ensures entries == RequestHeaders(p, tenantName, auth)
  {
    var headers := new HeaderMultiMap();
    headers.AddAll(DefaultHeaders(tenantName, auth));
    assert headers.entries == DefaultHeaders(tenantName, auth);

    if p.headers.Some? && |p.headers.value| > 0 {
      var callerHeaders := p.headers.value;
      ghost var base := headers.entries;
      var i := 0;
      while i < |callerHeaders|
        invariant 0 <= i <= |callerHeaders|
        invariant headers.entries == PutAll(base, callerHeaders[..i])
      {
        assert callerHeaders[..i + 1][..i] == callerHeaders[..i];
        headers.Set(callerHeaders[i].key, callerHeaders[i].value);
        i := i + 1;
      }
      assert callerHeaders[..i] == callerHeaders;
    }
    assert headers.entries == if p.headers.Some? && |p.headers.value| > 0 then PutAll(DefaultHeaders(tenantName, auth), p.headers.value) else DefaultHeaders(tenantName, auth);

    if p.cookies.Some? && |p.cookies.value| > 0 {
      var cookie := CookieHeaderValue(p.cookies.value);
      headers.Set(HEADER_COOKIE, cookie);
    }
    entries := headers.entries;
  }

  /** `httpDo`: with no address the handler gets an empty response and
      nothing is sent. Otherwise the URL, the headers and the body are built
      step by step and the request goes out; the handler gets the
      transport's outcome. The merged authentication headers are added in an
      unspecified order, returned as `auth`. */
  method HttpDo(ctx: RequestContext, config: RegistryConfig, providers: seq<map<string, string>>, transport: Option<ResponseHandle>)
    returns (o: Outgoing, r: RestResponse, ghost auth: seq<Entry>)
    ensures ctx.ipPort.None? ==> o == ShortCircuit && r == RestResponse(ctx, None)
    ensures ctx.ipPort.Some? ==> Enumerates(auth, MergeAll(providers))
    ensures o == BuildRequest(ctx, config, auth)
    ensures r == Complete(ctx, o, transport)
  {
    auth := [];
    if ctx.ipPort.None? {
      o := ShortCircuit;
      r := RestResponse(ctx, None);
      return;
    }
    var ipPort := ctx.ipPort.value;
    var p := ctx.params;

    var url := ctx.uri;
    if |p.queryParams| > 0 {
      url := url + [if LastIndexOf(url, '?') > 0 then '&' else '?'];
      url := url + p.queryParams;
    }

    var merged := AuthHeaders(providers);
    var authEntries := EntriesOf(merged);
    auth := authEntries;
    var headers := RequestHeadersOf(p, config.tenantName, authEntries);

    var body := if ctx.httpMethod != GET && p.body.Some? && |p.body.value| > 0 then p.body else None;
    o := Send(Request(ctx.httpMethod, ipPort.port, ipPort.hostOrIp, url, headers, config.requestTimeout, body));
    r := RestResponse(ctx, transport);
  }

  // ---------------------------------------------------------------- entry points

  /** `createRequestContext`: a context holding exactly its arguments. */
  function CreateRequestContext(m: HttpMethod, ipPort: Option<IpPort>, uri: string, params: RequestParam): (ctx: RequestContext)
    ensures ctx.httpMethod == m && ctx.ipPort == ipPort && ctx.uri == uri && ctx.params == params
  {
    RequestContext(m, ipPort, uri, params)
  }

  method Get(ipPort: Option<IpPort>, uri: string, params: RequestParam, config: RegistryConfig,
             providers: seq<map<string, string>>, transport: Option<ResponseHandle>)
    returns (o: Outgoing, r: RestResponse, ghost auth: seq<Entry>)
    ensures r.requestContext == CreateRequestContext(GET, ipPort, uri, params)
    ensures ipPort.Some? ==> Enumerates(auth, MergeAll(providers))
    ensures o == BuildRequest(r.requestContext, config, auth)
    ensures r == Complete(r.requestContext, o, transport)
  {
    o, r, auth := HttpDo(CreateRequestContext(GET, ipPort, uri, params), config, providers, transport);
  }

  method Post(ipPort: Option<IpPort>, uri: string, params: RequestParam, config: RegistryConfig,
              providers: seq<map<string, string>>, transport: Option<ResponseHandle>)
    returns (o: Outgoing, r: RestResponse, ghost auth: seq<Entry>)
    ensures r.requestContext == CreateRequestContext(POST, ipPort, uri, params)
    ensures ipPort.Some? ==> Enumerates(auth, MergeAll(providers))
    ensures o == BuildRequest(r.requestContext, config, auth)
    ensures r == Complete(r.requestContext, o, transport)
  {
    o, r, auth := HttpDo(CreateRequestContext(POST, ipPort, uri, params), config, providers, transport);
  }

  method Put(ipPort: Option<IpPort>, uri: string, params: RequestParam, config: RegistryConfig,
             providers: seq<map<string, string>>, transport: Option<ResponseHandle>)
    returns (o: Outgoing, r: RestResponse, ghost auth: seq<Entry>)
    ensures r.requestContext == CreateRequestContext(PUT, ipPort, uri, params)
    ensures ipPort.Some? ==> Enumerates(auth, MergeAll(providers))
    ensures o == BuildRequest(r.requestContext, config, auth)
    ensures r == Complete(r.requestContext, o, transport)
  {
    o, r, auth := HttpDo(CreateRequestContext(PUT, ipPort, uri, params), config, providers, transport);
  }

  method Delete(ipPort: Option<IpPort>, uri: string, params: RequestParam, config: RegistryConfig,
                providers: seq<map<string, string>>, transport: Option<ResponseHandle>)
    returns (o: Outgoing, r: RestResponse, ghost auth: seq<Entry>)
    ensures r.requestContext == CreateRequestContext(DELETE, ipPort, uri, params)
    ensures ipPort.Some? ==> Enumerates(auth, MergeAll(providers))
    ensures o == BuildRequest(r.requestContext, config, auth)
    ensures r == Complete(r.requestContext, o, transport)
  {
    o, r, auth := HttpDo(CreateRequestContext(DELETE, ipPort, uri, params), config, providers, transport);
  }
}
