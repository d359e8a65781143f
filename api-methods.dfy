/** The token-refresh and monitoring endpoints of src/tele2-ats2-api/api-methods.js:
    the request each one sends, the rules its failures are classified by, and
    what it returns. */
module ApiMethods {
  import opened Js
  import opened Errors
  import opened Decorators
  import SearchParams
  import ApiUtils

  datatype Verb = Get | Put | Post

  /** A URL below the API host: its path and its query parameters. */
  datatype Url = Url(path: string, query: seq<SearchParams.Param>)

  /** What is handed to the HTTP library: verb, URL, the Authorization and
      Content-Type headers, whether the body is requested as a stream, and
      the `proxy` setting (None when the config has no `proxy` key, so the
      library's own default applies). */
  datatype Request = Request(verb: Verb, url: Url, authorization: Option<string>, contentType: Option<string>, streamed: bool,
                             proxy: Option<ApiUtils.AxiosProxy>)

  /** A successful transport response; the endpoints read only `data`. */
  datatype HttpResponse<+D> = HttpResponse(data: D)

  const TokenAlreadyUpdated: string := "The token has already been updated"

  /** DEFAULTS_DECORATORS with the 500 rule as intended: a 403 with the
      token-updated details is Unauthorized, a 500 is a server error. */
  const DefaultRules: seq<Rule> := [
    Rule(403, None, Some(TokenAlreadyUpdated), UnauthorizedConstructor),
    Rule(500, None, None, ServerErrorConstructor)
  ]

  const EmployeeNotFoundRule: Rule := Rule(404, None, None, EmployeeNotFoundConstructor)

  datatype Endpoint = RefreshTokens | MonitoringCalls | MonitoringCallsPending | Employees | Click2Call

  /** The rules each endpoint would hand to the classifier with the 500 rule
      as intended: the defaults, and for click-to-call the 404 rule after
      them. */
  function Rules(endpoint: Endpoint): (rules: seq<Rule>)
    ensures endpoint != Click2Call ==> rules == DefaultRules
    ensures endpoint == Click2Call ==> rules == DefaultRules + [EmployeeNotFoundRule]
  {
    if endpoint == Click2Call then DefaultRules + [EmployeeNotFoundRule] else DefaultRules
  }

  /** The rules as api-methods.js writes them: the 500 rule names
      Tele2Ats2ApiServerError, which the exceptions module does not export,
      so its constructor is undefined. Nothing else differs. */
  function WrittenRules(endpoint: Endpoint): (rules: seq<Rule>)
    ensures |rules| == |Rules(endpoint)|
    ensures forall i :: 0 <= i < |rules| && i != 1 ==> rules[i] == Rules(endpoint)[i]
    ensures rules[1] == Rules(endpoint)[1].(exception := MissingConstructor)
  {
    Rules(endpoint)[1 := Rule(500, None, None, MissingConstructor)]
  }

  /** The request each endpoint sends as the code writes it: `token` is the
      refresh token for RefreshTokens and the access token for the others,
      and the `proxy` the client hands over is never read. */
  function WrittenEndpointRequest(endpoint: Endpoint, token: Option<string>, employeePhone: string, clientPhone: string): (r: Request)
    ensures r.authorization == token
    ensures endpoint == Click2Call ==>
      && SearchParams.Get(r.url.query, "source") == Some(employeePhone)
      && SearchParams.Get(r.url.query, "destination") == Some(clientPhone)
      && |r.url.query| == 2
    ensures endpoint != Click2Call ==> r.url.query == []
    ensures r.contentType.None? && !r.streamed
    ensures r.proxy.None?
  {
    match endpoint
    case RefreshTokens => Request(Put, Url("/authorization/refresh/token", []), token, None, false, None)
    case MonitoringCalls => Request(Get, Url("/monitoring/calls", []), token, None, false, None)
    case MonitoringCallsPending => Request(Get, Url("/monitoring/calls/pending", []), token, None, false, None)
    case Employees => Request(Get, Url("/employees", []), token, None, false, None)
    case Click2Call =>
      var query := SearchParams.Set(SearchParams.Set([], "source", employeePhone), "destination", clientPhone);
      Request(Post, Url("/call/outgoing/", query), token, None, false, None)
  }

  /** The request as intended: the same, with the client's proxy converted
      by `proxyHttpToAxiosProxy` into the library's `proxy` setting. */
  function EndpointRequest(endpoint: Endpoint, token: Option<string>, proxy: Option<ApiUtils.ProxyHttp>, employeePhone: string, clientPhone: string): (r: Request)
    ensures r.proxy == Some(ApiUtils.ProxyHttpToAxiosProxy(proxy))
    // only the proxy setting differs from the request as written
    ensures r.(proxy := None) == WrittenEndpointRequest(endpoint, token, employeePhone, clientPhone)
  {
    WrittenEndpointRequest(endpoint, token, employeePhone, clientPhone).(proxy := Some(ApiUtils.ProxyHttpToAxiosProxy(proxy)))
  }

  /** As written, a configured proxy never reaches the HTTP library: the
      request is the same whatever proxy the client passes, and differs from
      the intended one. */
  lemma ProxyIgnored(endpoint: Endpoint, token: Option<string>, proxy: ApiUtils.ProxyHttp, employeePhone: string, clientPhone: string)
    ensures WrittenEndpointRequest(endpoint, token, employeePhone, clientPhone).proxy.None?
    ensures WrittenEndpointRequest(endpoint, token, employeePhone, clientPhone)
         != EndpointRequest(endpoint, token, Some(proxy), employeePhone, clientPhone)
  {
  }

  /** As intended, the request goes through the configured proxy, with its
      credentials when both are set, and through none (`proxy: false`)
      without one. */
  lemma ProxyReachesRequest(endpoint: Endpoint, token: Option<string>, proxy: ApiUtils.ProxyHttp, employeePhone: string, clientPhone: string)
    ensures var r := EndpointRequest(endpoint, token, Some(proxy), employeePhone, clientPhone);
      && r.proxy.Some? && r.proxy.value.AxiosProxyConfig?
      && r.proxy.value.host == proxy.host && r.proxy.value.port == proxy.port
      && (r.proxy.value.auth.Some? <==> Truthy(proxy.user) && Truthy(proxy.pass))
    ensures EndpointRequest(endpoint, token, None, employeePhone, clientPhone).proxy == Some(ApiUtils.NoProxy)
  {
  }

  /** `const { data } = await decoratorTele2Ats2ApiError(...); return data`. */
  function EndpointResult<D>(endpoint: Endpoint, raw: Outcome<HttpResponse<D>>): (r: Outcome<D>)
    // the response data comes back unchanged
    ensures raw.Resolved? ==> r == Resolved(raw.value.data)
    // failures are classified by the endpoint's rules as written
    ensures raw.Rejected? ==> r == Rejected(Classify(raw.error, WrittenRules(endpoint)))
  {
    match Decorate(raw, WrittenRules(endpoint))
    case Resolved(response) => Resolved(response.data)
    case Rejected(e) => Rejected(e)
  }

  /** An HTTP error response with the given status and body fields. */
  function HttpFailure(status: int, message: Option<string>, details: Option<string>): Thrown {
    TransportError("AxiosError", "Request failed with status code " + NumberText(status), Some(Response(status, message, details)))
  }

  /** Every endpoint classifies a 403 carrying the token-updated details as Unauthorized. */
  lemma TokenUpdatedIsUnauthorized(endpoint: Endpoint, message: Option<string>)
    ensures Classify(HttpFailure(403, message, Some(TokenAlreadyUpdated)), WrittenRules(endpoint)) == ApiError(ApiUnauthorized, "")
  {
    var e := HttpFailure(403, message, Some(TokenAlreadyUpdated));
    assert Matches(WrittenRules(endpoint)[0], e.response.value);
  }

  /** A 403 with any other details matches no rule: a generic API error with
      the transport error's message, so it never triggers re-authentication. */
  lemma Other403IsGeneric(endpoint: Endpoint, message: Option<string>, details: Option<string>)
    requires details != Some(TokenAlreadyUpdated)
    ensures Classify(HttpFailure(403, message, details), WrittenRules(endpoint))
         == ApiError(ApiGeneric, HttpFailure(403, message, details).message)
  {
    var e := HttpFailure(403, message, details);
    var rules := WrittenRules(endpoint);
    assert !Matches(rules[0], e.response.value);
    assert forall j :: 0 <= j < |rules| ==> !Matches(rules[j], e.response.value) by {
      forall j | 0 <= j < |rules| ensures !Matches(rules[j], e.response.value) {
        if j > 0 { assert rules[j].code != 403; }
      }
    }
  }

  /** A 404 is EmployeeNotFound for click-to-call and a generic API error for
      every other endpoint. */
  lemma NotFoundOnlyForClick2Call(endpoint: Endpoint, message: Option<string>, details: Option<string>)
    ensures Classify(HttpFailure(404, message, details), WrittenRules(endpoint))
         == if endpoint == Click2Call then ApiError(ApiEmployeeNotFound, "")
            else ApiError(ApiGeneric, HttpFailure(404, message, details).message)
  {
    var e := HttpFailure(404, message, details);
    var rules := WrittenRules(endpoint);
    assert !Matches(rules[0], e.response.value) && !Matches(rules[1], e.response.value);
    if endpoint == Click2Call {
      assert Matches(rules[2], e.response.value);
    } else {
      assert forall j :: 0 <= j < |rules| ==> !Matches(rules[j], e.response.value) by {
        forall j | 0 <= j < |rules| ensures !Matches(rules[j], e.response.value) {
          assert j == 0 || j == 1;
        }
      }
    }
  }

  /** As written, a 500 reaches the rule whose exception is undefined: the
      endpoint fails with a TypeError, not with a typed API error. */
  lemma ServerErrorIsUntyped(endpoint: Endpoint, message: Option<string>, details: Option<string>)
    ensures Classify(HttpFailure(500, message, details), WrittenRules(endpoint))
         == OtherError("TypeError", "handler.exception is not a constructor")
    ensures !InstanceOf(Classify(HttpFailure(500, message, details), WrittenRules(endpoint)), Tele2Ats2ApiError)
  {
    var e := HttpFailure(500, message, details);
    var rules := WrittenRules(endpoint);
    assert !Matches(rules[0], e.response.value) && Matches(rules[1], e.response.value);
  }

  /** As intended, a 500 is a server error, an API error like every other
      classified failure. */
  lemma ServerErrorIsTyped(endpoint: Endpoint, message: Option<string>, details: Option<string>)
    ensures Classify(HttpFailure(500, message, details), Rules(endpoint)) == ApiError(ApiServerError, "")
    ensures InstanceOf(Classify(HttpFailure(500, message, details), Rules(endpoint)), Tele2Ats2ApiError)
  {
    var e := HttpFailure(500, message, details);
    var rules := Rules(endpoint);
    assert !Matches(rules[0], e.response.value) && Matches(rules[1], e.response.value);
    assert IsSubclass(Tele2Ats2ApiServerError, Tele2Ats2ApiError);
  }
}
