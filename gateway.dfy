/** The edge gateway: bearer extraction (section 2.1 of RFC 6750), the UI
    redirect at `/`, the login, callback and `/me` routes that delegate to the
    auth service, and the authenticated reverse proxy under `/api/`. */
module Gateway {
  import opened Text
  import opened Http

  /** The URLs the gateway reads from its environment: the first four once
      at startup, the callback URL on every login and callback; the
      environment is taken as constant. */
  datatype GatewayConfig = GatewayConfig(
    authBaseUrl: string, webUiUrl: string, mobileUiUrl: string, backendUrl: string, callbackUrl: string)

  /** The configuration when no environment variable is set. */
  const DefaultGatewayConfig := GatewayConfig(
    "http://chinta-auth:8083", "http://chinta-web:8000", "http://chinta-web:8000/m",
    "http://chinta-backend:8080", "http://localhost:8084/auth/callback")

  const HeaderInvalid := JStr("Missing or invalid Authorization header")

  /** The scheme is `bearer` in some mix of letter cases (section 2.1 of
      RFC 7235: auth schemes are case-insensitive). */
  predicate IsBearerScheme(scheme: string)
  {
    MatchesIgnoringCase(scheme, "bearer")
  }

  /** `get_access_token`: a credential whose scheme lower-cases to `bearer`,
      unchanged, or 401. */
  function GetAccessToken(creds: Option<Credentials>): (r: Result<string, Failure>)
    ensures r.Ok? <==> creds.Some? && IsBearerScheme(creds.value.scheme)
    ensures r.Ok? ==> r.value == creds.value.credentials
    ensures r.Err? ==> r.error == HttpError(401, HeaderInvalid)
  {
    LowerEqualsIff(if creds.Some? then creds.value.scheme else "", "bearer");
    if creds.None? || Lower(creds.value.scheme) != "bearer" then Err(HttpError(401, HeaderInvalid))
    else Ok(creds.value.credentials)
  }

  /** `Bearer`, `BEARER` and `bearer` all pass; `Basic` does not. */
  lemma BearerSpellings(t: string)
    ensures GetAccessToken(Some(Credentials("Bearer", t))) == Ok(t)
    ensures GetAccessToken(Some(Credentials("BEARER", t))) == Ok(t)
    ensures GetAccessToken(Some(Credentials("bearer", t))) == Ok(t)
    ensures GetAccessToken(Some(Credentials("Basic", t))).Err?
  {
    assert IsBearerScheme("Bearer") && IsBearerScheme("BEARER") && IsBearerScheme("bearer");
    assert !IsBearerScheme("Basic");
  }

  /** The User-Agent names a phone: it holds `mobile`, `android` or `iphone`
      in some mix of cases. */
  predicate MobileAgent(ua: string)
  {
    exists i: nat :: i <= |ua| && (MatchesAt(ua, "mobile", i) || MatchesAt(ua, "android", i) || MatchesAt(ua, "iphone", i))
  }

  /** `GET /`: the URL of the 307 redirect, given the `target` query parameter
      and the User-Agent header. An explicit target wins; otherwise the
      User-Agent decides; everything else goes to the web UI. */
  function Root(cfg: GatewayConfig, target: Option<string>, userAgent: Option<string>): (location: string)
    ensures target == Some("mobile") ==> location == cfg.mobileUiUrl
    ensures target == Some("web") ==> location == cfg.webUiUrl
    ensures target != Some("mobile") && target != Some("web") ==>
              var ua := if userAgent.Some? then userAgent.value else "";
              location == (if MobileAgent(ua) then cfg.mobileUiUrl else cfg.webUiUrl)
  {
    if target == Some("mobile") then cfg.mobileUiUrl
    else if target == Some("web") then cfg.webUiUrl
    else
      var ua := Lower(if userAgent.Some? then userAgent.value else "");
      MobileAgentIff(if userAgent.Some? then userAgent.value else "");
      if Contains(ua, "mobile") || Contains(ua, "android") || Contains(ua, "iphone") then cfg.mobileUiUrl
      else cfg.webUiUrl
  }

  /** The three keyword tests on the lower-cased User-Agent are MobileAgent. */
  lemma MobileAgentIff(ua: string)
    ensures Contains(Lower(ua), "mobile") || Contains(Lower(ua), "android") || Contains(Lower(ua), "iphone")
            <==> MobileAgent(ua)
  {
    ContainsLowerIff(ua, "mobile");
    ContainsLowerIff(ua, "android");
    ContainsLowerIff(ua, "iphone");
    if MobileAgent(ua) {
      var i: nat :| i <= |ua| && (MatchesAt(ua, "mobile", i) || MatchesAt(ua, "android", i) || MatchesAt(ua, "iphone", i));
    }
  }

  /** `GET {auth}/auth/authorize?redirect_uri=...`. */
  datatype AuthorizeCall = AuthorizeCall(url: string, redirectUri: string)

  /** `GET /auth/login`: asks the auth service for an authorization URL and
      returns its 2xx body; any other status raises `HTTPStatusError`, which
      is not an HTTPException, so the upstream status is not mirrored. */
  function Login(cfg: GatewayConfig, redirectUri: Option<string>, reply: Reply): (x: Exchange<AuthorizeCall, Json>)
    ensures x.sent.Some? && x.sent.value.url == cfg.authBaseUrl + "/auth/authorize"
    ensures Provided(redirectUri) ==> x.sent.value.redirectUri == redirectUri.value
    ensures !Provided(redirectUri) ==> x.sent.value.redirectUri == cfg.callbackUrl
    ensures x.result.Ok? <==> reply.Received? && IsSuccess(reply.response.status) && reply.response.json.Some?
    ensures x.result.Ok? ==> x.result.value == reply.response.json.value
    ensures x.result.Err? ==> x.result.error.Unhandled?
    ensures reply.Received? && !IsSuccess(reply.response.status) ==>
              x.result == Err(Unhandled(StatusError(reply.response.status)))
  {
    var call := AuthorizeCall(cfg.authBaseUrl + "/auth/authorize", OrElse(redirectUri, cfg.callbackUrl));
    match reply
    case Raised => Exchange(Some(call), Err(Unhandled(Transport)))
    case Received(resp) =>
      if !IsSuccess(resp.status) then Exchange(Some(call), Err(Unhandled(StatusError(resp.status))))
      else Exchange(Some(call), JsonOf(resp))
  }

  /** `POST {auth}/authenticate` with a JSON body. */
  datatype AuthenticateCall = AuthenticateCall(url: string, body: Json)

  /** The JSON body the callback sends: exactly the four keys, the code and
      redirect URI as strings, and an absent state or nonce as `null`. */
  function AuthenticateBody(code: string, redirectUri: string, state: Option<string>, nonce: Option<string>): (b: Json)
    ensures b.JObj? && b.fields.Keys == {"code", "redirect_uri", "state", "nonce"}
    ensures b.fields["code"] == JStr(code) && b.fields["redirect_uri"] == JStr(redirectUri)
    ensures b.fields["state"] == (if state.Some? then JStr(state.value) else JNull)
    ensures b.fields["nonce"] == (if nonce.Some? then JStr(nonce.value) else JNull)
  {
    JObj(map["code" := JStr(code), "redirect_uri" := JStr(redirectUri),
             "state" := OptionalJson(state), "nonce" := OptionalJson(nonce)])
  }

  /** `GET /auth/callback`: exchanges the code through the auth service with
      the fixed callback URL. Status 200 returns the body; every other status,
      other 2xx codes included, is re-raised with that status and body. */
  function AuthCallback(cfg: GatewayConfig, code: string, state: Option<string>, nonce: Option<string>, reply: Reply)
    : (x: Exchange<AuthenticateCall, Json>)
    ensures x.sent == Some(AuthenticateCall(cfg.authBaseUrl + "/authenticate",
                                            AuthenticateBody(code, cfg.callbackUrl, state, nonce)))
    ensures reply.Raised? ==> x.result == Err(Unhandled(Transport))
    ensures reply.Received? && reply.response.json.None? ==> x.result == Err(Unhandled(MalformedJson))
    ensures reply.Received? && reply.response.json.Some? ==>
              x.result == (if reply.response.status == 200 then Ok(reply.response.json.value)
                           else Err(NewHttpException(reply.response.status, reply.response.json.value)))
  {
    var call := AuthenticateCall(cfg.authBaseUrl + "/authenticate", AuthenticateBody(code, cfg.callbackUrl, state, nonce));
    match reply
    case Raised => Exchange(Some(call), Err(Unhandled(Transport)))
    case Received(resp) =>
      match JsonOf(resp)
      case Err(e) => Exchange(Some(call), Err(e))
      case Ok(body) =>
        if resp.status != 200 then Exchange(Some(call), Err(NewHttpException(resp.status, body)))
        else Exchange(Some(call), Ok(body))
  }

  /** A login that used the default redirect and the callback that follows it
      send the auth service the same redirect URI, as the IdP demands. */
  lemma DefaultLoginMatchesCallback(cfg: GatewayConfig, r1: Reply, code: string, state: Option<string>, nonce: Option<string>, r2: Reply)
    ensures var login := Login(cfg, None, r1).sent.value;
            var callback := AuthCallback(cfg, code, state, nonce, r2).sent.value;
            callback.body.fields["redirect_uri"] == JStr(login.redirectUri)
  {
  }

  /** `GET {auth}/userinfo` with the given headers. */
  datatype UserinfoCall = UserinfoCall(url: string, headers: map<string, string>)

  /** `GET /me`: the token check first, with no call on failure; then the
      auth service's userinfo, whose non-200 status and body are mirrored. */
  function Me(cfg: GatewayConfig, creds: Option<Credentials>, reply: Reply): (x: Exchange<UserinfoCall, Json>)
    ensures GetAccessToken(creds).Err? ==> x == Exchange(None, Err(HttpError(401, HeaderInvalid)))
    ensures GetAccessToken(creds).Ok? ==>
              x.sent == Some(UserinfoCall(cfg.authBaseUrl + "/userinfo",
                                          map["Authorization" := "Bearer " + creds.value.credentials]))
    ensures GetAccessToken(creds).Ok? && reply.Raised? ==> x.result == Err(Unhandled(Transport))
    ensures GetAccessToken(creds).Ok? && reply.Received? && reply.response.json.None? ==>
              x.result == Err(Unhandled(MalformedJson))
    ensures GetAccessToken(creds).Ok? && reply.Received? && reply.response.json.Some? ==>
              x.result == (if reply.response.status == 200 then Ok(reply.response.json.value)
                           else Err(NewHttpException(reply.response.status, reply.response.json.value)))
  {
    match GetAccessToken(creds)
    case Err(e) => Exchange(None, Err(e))
    case Ok(token) =>
      var call := UserinfoCall(cfg.authBaseUrl + "/userinfo", map["Authorization" := "Bearer " + token]);
      match reply
      case Raised => Exchange(Some(call), Err(Unhandled(Transport)))
      case Received(resp) =>
        match JsonOf(resp)
        case Err(e) => Exchange(Some(call), Err(e))
        case Ok(body) =>
          if resp.status != 200 then Exchange(Some(call), Err(NewHttpException(resp.status, body)))
          else Exchange(Some(call), Ok(body))
  }

  /** An inbound `/api/` request as the route sees it: the method, the query
      and header dicts, and what `await request.json()` gives (`None` when it
      raises). */
  datatype InboundRequest = InboundRequest(
    verb: string, query: map<string, string>, headers: map<string, string>, json: Option<Json>)

  /** The backend call. `json` is httpx's `json=` argument: `JNull` (Python's
      `None`) sends no body. */
  datatype BackendCall = BackendCall(
    verb: string, url: string, params: map<string, string>, json: Json, headers: map<string, string>)

  /** The JSONResponse the proxy answers with. */
  datatype ProxyResponse = ProxyResponse(status: int, content: Json)

  /** `/api/{path}`: forwards the request to the backend with the caller's
      token in `Authorization` and answers with the backend's status. The
      content is the parsed JSON when the backend's Content-Type starts with
      `application/json` (a body that does not parse raises), and otherwise
      the raw text, which JSONResponse sends as a JSON string. */
  method ProxyApi(cfg: GatewayConfig, path: string, request: InboundRequest, creds: Option<Credentials>, reply: Reply)
      returns (sent: Option<BackendCall>, result: Result<ProxyResponse, Failure>)
    ensures GetAccessToken(creds).Err? ==> sent == None && result == Err(HttpError(401, HeaderInvalid))
    ensures GetAccessToken(creds).Ok? ==>
              var token := creds.value.credentials;
              sent.Some? &&
              sent.value.url == cfg.backendUrl + "/" + path &&
              sent.value.verb == request.verb &&
              sent.value.params == request.query &&
              sent.value.json == (if request.json.Some? then request.json.value else JNull) &&
              sent.value.headers.Keys == request.headers.Keys + {"Authorization"} &&
              sent.value.headers["Authorization"] == "Bearer " + token &&
              (forall k :: k in request.headers && k != "Authorization" ==> sent.value.headers[k] == request.headers[k])
    ensures GetAccessToken(creds).Ok? && reply.Raised? ==> result == Err(Unhandled(Transport))
    ensures GetAccessToken(creds).Ok? && reply.Received? ==>
              var resp := reply.response;
              var asJson := StartsWith(if resp.contentType.Some? then resp.contentType.value else "", "application/json");
              (asJson && resp.json.None? ==> result == Err(Unhandled(MalformedJson))) &&
              (asJson && resp.json.Some? ==> result == Ok(ProxyResponse(resp.status, resp.json.value))) &&
              (!asJson ==> result == Ok(ProxyResponse(resp.status, JStr(resp.text))))
  {
    var token := GetAccessToken(creds);
    if token.Err? {
      return None, Err(token.error);
    }
    var url := cfg.backendUrl + "/" + path;
    var body := JNull;
    if request.json.Some? {
      body := request.json.value;
    }
    var headers := request.headers;
    headers := headers["Authorization" := "Bearer " + token.value];
    sent := Some(BackendCall(request.verb, url, request.query, body, headers));
    match reply {
      case Raised =>
        result := Err(Unhandled(Transport));
      case Received(resp) =>
        var contentType := if resp.contentType.Some? then resp.contentType.value else "";
        if StartsWith(contentType, "application/json") {
          match JsonOf(resp) {
            case Err(e) => result := Err(e);
            case Ok(content) => result := Ok(ProxyResponse(resp.status, content));
          }
        } else {
          result := Ok(ProxyResponse(resp.status, JStr(resp.text)));
        }
    }
  }
}
