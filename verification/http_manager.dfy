/** The decision logic of `HTTPManager`: service URL, header assembly, the
    request handed to the transport, and the classification and routing of
    transport failures. The transport itself (Alamofire) is a parameter. */
module HTTP {
  import opened Wrappers
  import opened RequestErrors
  import opened Headers

  const PathSeparator: string := "/"

  /** The values read from the environment: `baseURL` and `accessToken`. */
  datatype Environment = Environment(baseURL: string, accessToken: string)

  /** `EndpointProtocol`: an API name and a path below it. */
  datatype Endpoint = Endpoint(api: string, path: string)

  datatype Method = GET | POST

  /** The parameter encodings `post` and `get` choose. */
  datatype Encoding = JSONEncoding | URLQueryString

  datatype HTTPHeader = HTTPHeader(name: string, value: string)

  /** The arguments of the transport call: service URL, method, optional
      parameters, their encoding and the header list. */
  datatype HttpRequest<P> = HttpRequest(
    url: string,
    verb: Method,
    parameters: Option<map<string, P>>,
    encoding: Encoding,
    headers: set<HTTPHeader>)

  /** What the transport reports: a decoded value, or a failure carrying the
      response status code when one was received and the raw error. */
  datatype TransportOutcome<T, Raw> =
    | Delivered(value: T)
    | Failed(responseCode: Option<int>, raw: Raw)

  /** An error thrown by the manager: a `RequestError`, or any other error
      (the transport's raw error, or whatever a mapper returned). */
  datatype Error<Raw> = RequestErr(reason: RequestError) | Other(raw: Raw)

  /** Header customisation step (`extraHeaders`) and error mapper
      (`requestErrorMapper`) supplied by the caller. */
  type HeadersStep = HeadersBuilder -> HeadersBuilder
  type ErrorMapper<Raw> = RequestError -> Error<Raw>

  // ---------------------------------------------------------------------
  // Service URL

  predicate IsDoubleSlashAt(s: string, i: int)
    requires 0 <= i
  {
    i + 1 < |s| && s[i] == '/' && s[i + 1] == '/'
  }

  predicate ContainsDoubleSlash(s: string) {
    exists i :: 0 <= i < |s| && IsDoubleSlashAt(s, i)
  }

  /** `s` with every `'/'` removed. */
  function WithoutSlashes(s: string): (r: string)
    ensures |r| <= |s|
  {
    if s == [] then []
    else (if s[0] == '/' then [] else [s[0]]) + WithoutSlashes(s[1..])
  }

  /** `replacingOccurrences(of: "//", with: "/")`: a single left-to-right scan
      that replaces each non-overlapping occurrence of "//" by "/". */
  function ReplacingDoubleSlashes(s: string): (r: string)
    ensures |r| <= |s|
  {
    if |s| >= 2 && s[0] == '/' && s[1] == '/' then
      PathSeparator + ReplacingDoubleSlashes(s[2..])
    else if s == [] then
      []
    else
      [s[0]] + ReplacingDoubleSlashes(s[1..])
  }

  /** The scan shortens its input exactly when the input holds a "//", and
      leaves an input without one as it is. */
  lemma {:induction false} ReplacingShortensIffDoubleSlash(s: string)
    ensures |ReplacingDoubleSlashes(s)| == |s| <==> !ContainsDoubleSlash(s)
    ensures !ContainsDoubleSlash(s) ==> ReplacingDoubleSlashes(s) == s
  {
    if |s| >= 2 && s[0] == '/' && s[1] == '/' {
      assert IsDoubleSlashAt(s, 0);
    } else if s != [] {
      ReplacingShortensIffDoubleSlash(s[1..]);
      assert ContainsDoubleSlash(s[1..]) <==> ContainsDoubleSlash(s) by {
        if ContainsDoubleSlash(s) {
          var i :| 0 <= i < |s| && IsDoubleSlashAt(s, i);
          assert i >= 1 && IsDoubleSlashAt(s[1..], i - 1);
        }
        if ContainsDoubleSlash(s[1..]) {
          var i :| 0 <= i < |s| - 1 && IsDoubleSlashAt(s[1..], i);
          assert IsDoubleSlashAt(s, i + 1);
        }
      }
      assert s == [s[0]] + s[1..];
    }
  }

  /** Only slashes are dropped: every other character survives, in order. */
  lemma {:induction false} ReplacingKeepsNonSlashes(s: string)
    ensures WithoutSlashes(ReplacingDoubleSlashes(s)) == WithoutSlashes(s)
  {
    if |s| >= 2 && s[0] == '/' && s[1] == '/' {
      ReplacingKeepsNonSlashes(s[2..]);
      var r := ReplacingDoubleSlashes(s[2..]);
      assert (PathSeparator + r)[1..] == r;
      assert s[1..][1..] == s[2..];
    } else if s != [] {
      ReplacingKeepsNonSlashes(s[1..]);
      var r := ReplacingDoubleSlashes(s[1..]);
      assert ([s[0]] + r)[1..] == r;
    }
  }

  /** `createServiceURL`: base URL, API, separator and path concatenated, then
      every "//" replaced by "/". */
  function ServiceURL(env: Environment, endpoint: Endpoint): (url: string)
    ensures var joined := env.baseURL + endpoint.api + PathSeparator + endpoint.path;
            && |url| <= |joined|
            && (!ContainsDoubleSlash(joined) <==> url == joined)
            && WithoutSlashes(url) == WithoutSlashes(joined)
  {
    var joined := env.baseURL + endpoint.api + PathSeparator + endpoint.path;
    ReplacingShortensIffDoubleSlash(joined);
    ReplacingKeepsNonSlashes(joined);
    ReplacingDoubleSlashes(joined)
  }

  /** The scan never pairs a slash across a boundary that follows a
      character other than '/', so it works piecewise there. */
  lemma {:induction false} ReplacingAppend(a: string, b: string)
    requires a == [] || a[|a| - 1] != '/'
    ensures ReplacingDoubleSlashes(a + b) == ReplacingDoubleSlashes(a) + ReplacingDoubleSlashes(b)
  {
    if a == [] {
      assert a + b == b;
    } else if |a| >= 2 && a[0] == '/' && a[1] == '/' {
      assert (a + b)[2..] == a[2..] + b;
      ReplacingAppend(a[2..], b);
      calc {
        ReplacingDoubleSlashes(a + b);
        PathSeparator + ReplacingDoubleSlashes(a[2..] + b);
        PathSeparator + (ReplacingDoubleSlashes(a[2..]) + ReplacingDoubleSlashes(b));
        (PathSeparator + ReplacingDoubleSlashes(a[2..])) + ReplacingDoubleSlashes(b);
      }
    } else {
      assert (a + b)[1..] == a[1..] + b;
      assert (a + b)[0] == a[0];
      ReplacingAppend(a[1..], b);
      calc {
        ReplacingDoubleSlashes(a + b);
        [a[0]] + ReplacingDoubleSlashes(a[1..] + b);
        [a[0]] + (ReplacingDoubleSlashes(a[1..]) + ReplacingDoubleSlashes(b));
        ([a[0]] + ReplacingDoubleSlashes(a[1..])) + ReplacingDoubleSlashes(b);
      }
    }
  }

  /** The scan also works piecewise at a boundary followed by a character
      other than '/', such as the end of a run of slashes. */
  lemma {:induction false} ReplacingAppendBeforeNonSlash(a: string, b: string)
    requires b == [] || b[0] != '/'
    ensures ReplacingDoubleSlashes(a + b) == ReplacingDoubleSlashes(a) + ReplacingDoubleSlashes(b)
  {
    var ab := a + b;
    if a == [] {
      assert ab == b;
    } else if |a| >= 2 && a[0] == '/' && a[1] == '/' {
      assert ReplacingDoubleSlashes(ab) == PathSeparator + ReplacingDoubleSlashes(a[2..] + b) by {
        assert ab[0] == '/' && ab[1] == '/';
        assert ab[2..] == a[2..] + b;
      }
      ReplacingAppendBeforeNonSlash(a[2..], b);
    } else {
      assert ReplacingDoubleSlashes(ab) == [a[0]] + ReplacingDoubleSlashes(a[1..] + b) by {
        assert ab[0] == a[0];
        assert ab[1..] == a[1..] + b;
        assert !(|ab| >= 2 && ab[0] == '/' && ab[1] == '/') by {
          if |ab| >= 2 && |a| >= 2 {
            assert ab[1] == a[1];
          } else if |ab| >= 2 {
            assert ab[1] == b[0];
          }
        }
      }
      ReplacingAppendBeforeNonSlash(a[1..], b);
    }
  }

  /** A run of `n` slashes. */
  function Slashes(n: nat): (s: string)
    ensures |s| == n && forall i :: 0 <= i < n ==> s[i] == '/'
  {
    if n == 0 then [] else "/" + Slashes(n - 1)
  }

  /** A run of `n` slashes becomes a run of half as many, rounded up: the
      scan pairs the slashes from the left and does not rescan what it has
      written, so the run is not collapsed to a single slash. */
  lemma {:induction false} SlashRun(n: nat)
    ensures ReplacingDoubleSlashes(Slashes(n)) == Slashes((n + 1) / 2)
  {
    if n >= 2 {
      var s := Slashes(n);
      assert s[2..] == Slashes(n - 2) by {
        assert s == "/" + ("/" + Slashes(n - 2));
      }
      SlashRun(n - 2);
      assert Slashes((n + 1) / 2) == "/" + Slashes((n - 2 + 1) / 2);
    }
  }

  /** The smallest case that tells the scan apart from collapsing runs: a
      run of three slashes becomes two. */
  lemma TripleSlashBecomesDouble()
    ensures ReplacingDoubleSlashes("a///b") == "a//b"
  {
  }

  /** The scheme separator is rewritten too: a base URL "https://host..."
      yields a service URL that starts "https:/host". */
  lemma {:induction false} SchemeSeparatorIsRewritten(scheme: string, host: string, endpoint: Endpoint, token: string)
    requires scheme != [] && forall i :: 0 <= i < |scheme| ==> scheme[i] != '/'
    requires host != [] && host[0] != '/'
    ensures var rest := host + endpoint.api + PathSeparator + endpoint.path;
            ServiceURL(Environment(scheme + "//" + host, token), endpoint)
            == scheme + PathSeparator + ReplacingDoubleSlashes(rest)
  {
    var rest := host + endpoint.api + PathSeparator + endpoint.path;
    var joined := scheme + "//" + host + endpoint.api + PathSeparator + endpoint.path;
    assert ServiceURL(Environment(scheme + "//" + host, token), endpoint) == ReplacingDoubleSlashes(joined);
    assert rest[0] == host[0];
    assert joined == scheme + ("//" + rest);
    ReplacingAppend(scheme, "//" + rest);
    ReplacingShortensIffDoubleSlash(scheme);
    assert ("//" + rest)[2..] == rest;
    assert ReplacingDoubleSlashes("//" + rest) == PathSeparator + ReplacingDoubleSlashes(rest);
  }

  // ---------------------------------------------------------------------
  // Headers

  /** The builder after the optional customisation step, started from an
      empty builder. */
  function Customized(extraHeaders: Option<HeadersStep>): HeadersBuilder {
    match extraHeaders
    case None => Empty()
    case Some(step) => step(Empty())
  }

  /** `createHeadersBuilder`: start empty, apply `extraHeaders` if given,
      then add the bearer token iff authentication is required, so that the
      token overrides any Authorization set by `extraHeaders`. */
  function CreateHeadersBuilder(requiresAuthentication: bool, extraHeaders: Option<HeadersStep>, token: string)
    : (b: HeadersBuilder)
    ensures !requiresAuthentication ==> b == Customized(extraHeaders)
    ensures requiresAuthentication ==>
              AuthorizationKey in b.Build() && b.Build()[AuthorizationKey] == BearerPrefix + token
    ensures forall k :: k != AuthorizationKey ==>
              (k in b.Build() <==> k in Customized(extraHeaders).Build())
              && (k in b.Build() ==> b.Build()[k] == Customized(extraHeaders).Build()[k])
    ensures extraHeaders.None? && !requiresAuthentication ==> b.Build() == map[]
  {
    var builder := Customized(extraHeaders);
    if !requiresAuthentication then builder else builder.AddAuthorization(token)
  }

  /** One header per dictionary entry. */
  function HeaderList(m: map<string, string>): set<HTTPHeader> {
    set k | k in m :: HTTPHeader(k, m[k])
  }

  lemma {:induction false} HeaderListSize(m: map<string, string>)
    ensures |HeaderList(m)| == |m|
    decreases |m|
  {
    if m != map[] {
      var k :| k in m;
      var rest := m - {k};
      HeaderListSize(rest);
      assert HeaderList(m) == HeaderList(rest) + {HTTPHeader(k, m[k])} by {
        forall h | h in HeaderList(m)
          ensures h in HeaderList(rest) + {HTTPHeader(k, m[k])}
        {
          if h.name != k {
            assert h.name in rest;
          }
        }
      }
      assert HTTPHeader(k, m[k]) !in HeaderList(rest);
      assert |m| == |rest| + 1 by {
        assert m.Keys == rest.Keys + {k};
      }
    }
  }

  /** `createHeaders`: the built dictionary as a list of `HTTPHeader`, one per
      entry. Swift's dictionary order is unspecified, so the list is a set. */
  function CreateHeaders(requiresAuthentication: bool, extraHeaders: Option<HeadersStep>, token: string)
    : (hs: set<HTTPHeader>)
    ensures var m := CreateHeadersBuilder(requiresAuthentication, extraHeaders, token).Build();
            && |hs| == |m|
            && (forall h :: h in hs <==> h.name in m && m[h.name] == h.value)
    ensures extraHeaders.None? && !requiresAuthentication ==> hs == {}
  {
    var m := CreateHeadersBuilder(requiresAuthentication, extraHeaders, token).Build();
    HeaderListSize(m);
    HeaderList(m)
  }

  // ---------------------------------------------------------------------
  // The request and its outcome

  /** The arguments `request` passes to the transport. Only the query
      parameters are forwarded; a POST body never is. */
  function OutgoingRequest<P>(
    env: Environment, endpoint: Endpoint, verb: Method, encoding: Encoding,
    extraHeaders: Option<HeadersStep>, requiresAuthentication: bool,
    queryParams: Option<map<string, P>>)
    : (req: HttpRequest<P>)
    ensures req.url == ServiceURL(env, endpoint)
    ensures req.verb == verb && req.encoding == encoding
    ensures req.parameters == queryParams
    ensures req.headers == CreateHeaders(requiresAuthentication, extraHeaders, env.accessToken)
  {
    HttpRequest(
      ServiceURL(env, endpoint), verb, queryParams, encoding,
      CreateHeaders(requiresAuthentication, extraHeaders, env.accessToken))
  }

  /** The failure branch of `performRequest`: a failure with a status code
      becomes `RequestError.build(code)`, one without a code is rethrown as
      it was, so this branch never produces `.fail`. */
  function PerformRequest<T, Raw>(outcome: TransportOutcome<T, Raw>): (r: Result<T, Error<Raw>>)
    ensures outcome.Delivered? ==> r == Success(outcome.value)
    ensures outcome.Failed? && outcome.responseCode.None? ==> r == Failure(Other(outcome.raw))
    ensures outcome.Failed? && outcome.responseCode.Some? ==>
              r.Failure? && r.error.RequestErr? && StatusOf(r.error.reason) == outcome.responseCode
    ensures r.Failure? && r.error.RequestErr? ==> Classified(r.error.reason) && r.error.reason != Fail
  {
    match outcome
    case Delivered(v) => Success(v)
    case Failed(None, raw) => Failure(Other(raw))
    case Failed(Some(code), _) => Failure(RequestErr(Build(Some(code))))
  }

  /** The `catch` clauses of `request`: a `RequestError` goes through the
      mapper when one is given; any other error is rethrown unchanged and
      never reaches the mapper. */
  function RouteError<T, Raw>(r: Result<T, Error<Raw>>, requestErrorMapper: Option<ErrorMapper<Raw>>)
    : (routed: Result<T, Error<Raw>>)
    ensures r.Success? || r.error.Other? || requestErrorMapper.None? ==> routed == r
    ensures r.Failure? && r.error.RequestErr? && requestErrorMapper.Some? ==>
              routed == Failure(requestErrorMapper.value(r.error.reason))
  {
    match r
    case Failure(RequestErr(e)) =>
      if requestErrorMapper.Some? then Failure(requestErrorMapper.value(e)) else r
    case _ => r
  }

  /** `request`: one transport call with the outgoing request, then failure
      classification and routing. `body` is accepted and dropped. */
  function Request<T, B, P, Raw>(
    env: Environment, endpoint: Endpoint, verb: Method, encoding: Encoding,
    extraHeaders: Option<HeadersStep>, requiresAuthentication: bool,
    body: Option<B>, queryParams: Option<map<string, P>>,
    requestErrorMapper: Option<ErrorMapper<Raw>>,
    transport: HttpRequest<P> -> TransportOutcome<T, Raw>)
    : (r: Result<T, Error<Raw>>)
    ensures var outcome := transport(OutgoingRequest(env, endpoint, verb, encoding, extraHeaders,
                                                     requiresAuthentication, queryParams));
            && (outcome.Delivered? ==> r == Success(outcome.value))
            && (outcome.Failed? && outcome.responseCode.None? ==> r == Failure(Other(outcome.raw)))
            && (outcome.Failed? && outcome.responseCode.Some? ==>
                  r == Failure(if requestErrorMapper.Some?
                               then requestErrorMapper.value(Build(outcome.responseCode))
                               else RequestErr(Build(outcome.responseCode))))
  {
    var req := OutgoingRequest(env, endpoint, verb, encoding, extraHeaders, requiresAuthentication, queryParams);
    RouteError(PerformRequest(transport(req)), requestErrorMapper)
  }

  /** Without a mapper, the manager never throws `.fail` or `.invalidURL`, and
      a `.statusCode` it throws never carries 401 or 404. */
  lemma NoMapperErrorsAreClassified<T, B, P, Raw>(
    env: Environment, endpoint: Endpoint, verb: Method, encoding: Encoding,
    extraHeaders: Option<HeadersStep>, requiresAuthentication: bool,
    body: Option<B>, queryParams: Option<map<string, P>>,
    transport: HttpRequest<P> -> TransportOutcome<T, Raw>)
    ensures var r := Request(env, endpoint, verb, encoding, extraHeaders, requiresAuthentication,
                             body, queryParams, None, transport);
            r.Failure? && r.error.RequestErr? ==> Classified(r.error.reason) && r.error.reason != Fail
  {
  }

  /** `post`: POST with JSON encoding and no parameters, whatever the body. */
  function Post<T, B, P, Raw>(
    env: Environment, endpoint: Endpoint, extraHeaders: Option<HeadersStep>,
    requiresAuthentication: bool, body: Option<B>,
    requestErrorMapper: Option<ErrorMapper<Raw>>,
    transport: HttpRequest<P> -> TransportOutcome<T, Raw>)
    : (r: Result<T, Error<Raw>>)
    ensures r == Request<T, B, P, Raw>(env, endpoint, POST, JSONEncoding, extraHeaders,
                                       requiresAuthentication, None, None, requestErrorMapper, transport)
  {
    Request(env, endpoint, POST, JSONEncoding, extraHeaders, requiresAuthentication,
            body, None, requestErrorMapper, transport)
  }

  /** `get`: GET with query-string encoding and the transformed query
      parameters, if any. */
  function Get<T, Q, P, Raw>(
    env: Environment, endpoint: Endpoint, extraHeaders: Option<HeadersStep>,
    requiresAuthentication: bool, queryParams: Option<Q>, transform: Q -> map<string, P>,
    requestErrorMapper: Option<ErrorMapper<Raw>>,
    transport: HttpRequest<P> -> TransportOutcome<T, Raw>)
    : (r: Result<T, Error<Raw>>)
    ensures var req := HttpRequest(
              ServiceURL(env, endpoint), GET,
              if queryParams.Some? then Some(transform(queryParams.value)) else None,
              URLQueryString, CreateHeaders(requiresAuthentication, extraHeaders, env.accessToken));
            var outcome := transport(req);
            && (outcome.Delivered? ==> r == Success(outcome.value))
            && (outcome.Failed? && outcome.responseCode.None? ==> r == Failure(Other(outcome.raw)))
            && (outcome.Failed? && outcome.responseCode.Some? ==>
                  r == Failure(if requestErrorMapper.Some?
                               then requestErrorMapper.value(Build(outcome.responseCode))
                               else RequestErr(Build(outcome.responseCode))))
  {
    var params := if queryParams.Some? then Some(transform(queryParams.value)) else None;
    Request<T, Q, P, Raw>(env, endpoint, GET, URLQueryString, extraHeaders, requiresAuthentication,
                          None, params, requestErrorMapper, transport)
  }

  /** `get` asks the transport exactly one question: two transports that
      answer the GET request for the service URL, with the transformed query
      parameters and the assembled headers, alike give the same result. */
  lemma GetAsksTransportOnlyAboutItsRequest<T, Q, P, Raw>(
    env: Environment, endpoint: Endpoint, extraHeaders: Option<HeadersStep>,
    requiresAuthentication: bool, queryParams: Option<Q>, transform: Q -> map<string, P>,
    requestErrorMapper: Option<ErrorMapper<Raw>>,
    t1: HttpRequest<P> -> TransportOutcome<T, Raw>, t2: HttpRequest<P> -> TransportOutcome<T, Raw>,
    req: HttpRequest<P>)
    requires req.url == ServiceURL(env, endpoint)
    requires req.verb == GET && req.encoding == URLQueryString
    requires req.parameters == (if queryParams.Some? then Some(transform(queryParams.value)) else None)
    requires req.headers == CreateHeaders(requiresAuthentication, extraHeaders, env.accessToken)
    requires t1(req) == t2(req)
    ensures Get(env, endpoint, extraHeaders, requiresAuthentication, queryParams, transform,
                requestErrorMapper, t1)
            == Get(env, endpoint, extraHeaders, requiresAuthentication, queryParams, transform,
                   requestErrorMapper, t2)
  {
  }
}
