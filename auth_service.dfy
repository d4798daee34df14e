/** The routes of the auth service: the authorization URL, the code-for-token
    exchange (section 4.1.3 of RFC 6749) and the userinfo lookup. Each takes
    the outcome of `get_oidc_metadata()` and the reply of its one outbound
    call as inputs, and returns what it sent and what it answers. */
module AuthService {
  import opened Http
  import opened Discovery
  import opened ClientFactory

  const HeaderMissing := JStr("Missing or invalid authorization header")

  /** `get_token_from_header`: the credential HTTPBearer found, or 401. */
  function GetTokenFromHeader(creds: Option<Credentials>): (r: Result<string, Failure>)
    ensures r.Err? <==> creds.None?
    ensures r.Err? ==> r.error == HttpError(401, HeaderMissing)
    ensures r.Ok? ==> r.value == creds.value.credentials
  {
    match creds
    case None => Err(HttpError(401, HeaderMissing))
    case Some(c) => Ok(c.credentials)
  }

  /** The arguments of Authlib's `create_authorization_url`, once the
      endpoint is known to be a string. How Authlib encodes them into a query
      string is not modelled: it is the `encode` parameter of GetAuthorizeUrl. */
  datatype AuthorizationRequest = AuthorizationRequest(
    client: OidcClient, url: string, redirectUri: string, state: string, nonce: string)

  datatype AuthorizeUrlResponse = AuthorizeUrlResponse(authorizeUrl: string, state: string, nonce: string)

  /** `GET /auth/authorize`. `freshState` and `freshNonce` stand for the values
      `secrets.token_urlsafe(32)` would produce (section 4.1.1 of RFC 6749,
      section 3.1.2.1 of OpenID Connect Core 1.0). An authorization endpoint
      that is not a JSON string makes `create_authorization_url` raise inside
      `urllib.parse`, outside any `try`. */
  function GetAuthorizeUrl(
    cfg: Config, discovery: Result<Json, Failure>,
    redirectUri: string, state: Option<string>, nonce: Option<string>,
    freshState: string, freshNonce: string,
    encode: AuthorizationRequest -> string): (r: Result<AuthorizeUrlResponse, Failure>)
    ensures var client := GetOidcClient(cfg, discovery, Some(redirectUri));
            (client.Err? ==> r == Err(client.error)) &&
            (client.Ok? && !client.value.authorizationEndpoint.JStr? ==>
              r == Err(Unhandled(NotAUrlString))) &&
            (client.Ok? && client.value.authorizationEndpoint.JStr? ==>
              (r.Ok? &&
               r.value.state == (if Provided(state) then state.value else freshState) &&
               r.value.nonce == (if Provided(nonce) then nonce.value else freshNonce) &&
               r.value.authorizeUrl == encode(AuthorizationRequest(
                 client.value, client.value.authorizationEndpoint.s, redirectUri, r.value.state, r.value.nonce))))
  {
    var st := OrElse(state, freshState);
    var nc := OrElse(nonce, freshNonce);
    match GetOidcClient(cfg, discovery, Some(redirectUri))
    case Err(e) => Err(e)
    case Ok(client) =>
      match client.authorizationEndpoint
      case JStr(endpoint) =>
        var url := encode(AuthorizationRequest(client, endpoint, redirectUri, st, nc));
        Ok(AuthorizeUrlResponse(url, st, nc))
      case _ => Err(Unhandled(NotAUrlString))
  }

  /** Caller-supplied state and nonce come back unchanged; when the caller
      gives either, the freshly generated value is not used for it, so the
      answer, failure included, does not depend on it. */
  lemma AuthorizeKeepsCallerValues(
    cfg: Config, discovery: Result<Json, Failure>, redirectUri: string,
    state: string, nonce: string, fs1: string, fn1: string, fs2: string, fn2: string,
    encode: AuthorizationRequest -> string)
    requires state != "" && nonce != ""
    requires GetOidcClient(cfg, discovery, Some(redirectUri)).Ok?
    ensures var r := GetAuthorizeUrl(cfg, discovery, redirectUri, Some(state), Some(nonce), fs1, fn1, encode);
            (r.Ok? <==> GetOidcClient(cfg, discovery, Some(redirectUri)).value.authorizationEndpoint.JStr?) &&
            (r.Ok? ==> r.value.state == state && r.value.nonce == nonce) &&
            r == GetAuthorizeUrl(cfg, discovery, redirectUri, Some(state), Some(nonce), fs2, fn2, encode)
  {
  }

  /** The body of `POST /authenticate`. */
  datatype AuthenticateRequest = AuthenticateRequest(
    code: string, redirectUri: string, state: Option<string>, nonce: Option<string>)

  /** The arguments of Authlib's `fetch_token`; its client authentication and
      wire encoding are Authlib's. */
  datatype TokenRequest = TokenRequest(client: OidcClient, url: Json, code: string, redirectUri: string)

  /** What `fetch_token` yields: the token response, or an exception (an error
      response, a body that is not a token, a transport failure). */
  datatype TokenReply = Granted(token: Json) | Rejected

  /** `POST /authenticate`. `errText` stands for `str(e)` of whatever was raised. */
  function Authenticate(
    cfg: Config, discovery: Result<Json, Failure>, body: AuthenticateRequest,
    reply: TokenReply, errText: string): (x: Exchange<TokenRequest, Json>)
    ensures var client := GetOidcClient(cfg, discovery, Some(body.redirectUri));
            (client.Err? ==> x.sent == None && x.result == Err(client.error)) &&
            (client.Ok? ==>
              x.sent == Some(TokenRequest(client.value, client.value.tokenEndpoint, body.code, body.redirectUri)) &&
              (reply.Granted? ==> x.result == Ok(reply.token)) &&
              (reply.Rejected? ==> x.result == Err(HttpError(401, ErrorDetail("token_exchange_failed", errText)))))
  {
    match GetOidcClient(cfg, discovery, Some(body.redirectUri))
    case Err(e) => Exchange(None, Err(e))
    case Ok(client) =>
      var request := TokenRequest(client, client.tokenEndpoint, body.code, body.redirectUri);
      match reply
      case Granted(token) => Exchange(Some(request), Ok(token))
      case Rejected => Exchange(Some(request), Err(HttpError(401, ErrorDetail("token_exchange_failed", errText))))
  }

  /** The exchange never looks at `state` or `nonce`: any values, or none,
      give the same request and the same answer. */
  lemma AuthenticateIgnoresStateAndNonce(
    cfg: Config, discovery: Result<Json, Failure>, body: AuthenticateRequest,
    state: Option<string>, nonce: Option<string>, reply: TokenReply, errText: string)
    ensures Authenticate(cfg, discovery, body.(state := state, nonce := nonce), reply, errText)
            == Authenticate(cfg, discovery, body, reply, errText)
  {
  }

  /** The userinfo call: the endpoint and the token Authlib attaches as
      `Authorization: Bearer <access token>`. */
  datatype UserinfoRequest = UserinfoRequest(client: OidcClient, url: Json, accessToken: string, tokenType: string)

  const Unsupported := ErrorDetail("userinfo_unsupported", "IdP has no userinfo endpoint")

  /** `GET /userinfo`, once HTTPBearer has produced `creds`. The header check
      comes first, then the client, then the endpoint check, then one call. */
  function Userinfo(
    cfg: Config, creds: Option<Credentials>, discovery: Result<Json, Failure>,
    reply: Reply, errText: string): (x: Exchange<UserinfoRequest, Json>)
    ensures creds.None? ==> x == Exchange(None, Err(HttpError(401, HeaderMissing)))
    ensures var client := GetOidcClient(cfg, discovery, None);
            creds.Some? ==>
            (client.Err? ==> x == Exchange(None, Err(client.error))) &&
            (client.Ok? && !Truthy(client.value.userinfoEndpoint) ==>
               x == Exchange(None, Err(HttpError(501, Unsupported)))) &&
            (client.Ok? && Truthy(client.value.userinfoEndpoint) ==>
               x.sent == Some(UserinfoRequest(client.value, client.value.userinfoEndpoint,
                                              creds.value.credentials, "Bearer")) &&
               (x.result.Ok? <==> reply.Received? && IsSuccess(reply.response.status) && reply.response.json.Some?) &&
               (x.result.Ok? ==> x.result.value == reply.response.json.value) &&
               (x.result.Err? ==> x.result.error == HttpError(401, ErrorDetail("userinfo_failed", errText))))
  {
    match GetTokenFromHeader(creds)
    case Err(e) => Exchange(None, Err(e))
    case Ok(accessToken) =>
      match GetOidcClient(cfg, discovery, None)
      case Err(e) => Exchange(None, Err(e))
      case Ok(client) =>
        if !Truthy(client.userinfoEndpoint) then
          Exchange(None, Err(HttpError(501, Unsupported)))
        else
          var request := UserinfoRequest(client, client.userinfoEndpoint, accessToken, "Bearer");
          var failed := Err(HttpError(401, ErrorDetail("userinfo_failed", errText)));
          match reply
          case Raised => Exchange(Some(request), failed)
          case Received(resp) =>
            if !IsSuccess(resp.status) then Exchange(Some(request), failed)
            else match resp.json
              case None => Exchange(Some(request), failed)
              case Some(claims) => Exchange(Some(request), Ok(claims))
  }

  /** `GET /userinfo` exactly as written: `client.get(endpoint, token=token)`
      raises before any request leaves, because httpx's `AsyncClient.get`
      accepts no `token` keyword (and the Authlib client, built without a
      token, would refuse to send one anyway). The `except` then turns every
      request that reaches the call into 401 `userinfo_failed`; the checks
      before the call answer as in `Userinfo`. */
  function UserinfoAsWritten(cfg: Config, creds: Option<Credentials>, discovery: Result<Json, Failure>, errText: string)
    : (x: Exchange<UserinfoRequest, Json>)
    ensures x.sent == None && x.result.Err?
    ensures Userinfo(cfg, creds, discovery, Raised, errText).sent.None? ==>
              x == Userinfo(cfg, creds, discovery, Raised, errText)
    ensures Userinfo(cfg, creds, discovery, Raised, errText).sent.Some? ==>
              x.result == Err(HttpError(401, ErrorDetail("userinfo_failed", errText)))
  {
    Exchange(None, Userinfo(cfg, creds, discovery, Raised, errText).result)
  }

  /** A discovery document with a userinfo endpoint and an IdP that would
      answer 200 with claims: the route as written answers 401, the route
      that attaches the token returns the claims. */
  lemma UserinfoAsWrittenRejectsValidToken(claims: Json, errText: string)
    ensures var doc := JObj(map["authorization_endpoint" := JStr("https://idp.example/authorize"),
                                "token_endpoint" := JStr("https://idp.example/token"),
                                "userinfo_endpoint" := JStr("https://idp.example/userinfo")]);
            var creds := Some(Credentials("Bearer", "t0k3n"));
            var ok := Received(Response(200, Some("application/json"), "{}", Some(claims)));
            UserinfoAsWritten(DefaultConfig, creds, Ok(doc), errText).result
              == Err(HttpError(401, ErrorDetail("userinfo_failed", errText))) &&
            Userinfo(DefaultConfig, creds, Ok(doc), ok, errText).result == Ok(claims)
  {
    var doc := JObj(map["authorization_endpoint" := JStr("https://idp.example/authorize"),
                        "token_endpoint" := JStr("https://idp.example/token"),
                        "userinfo_endpoint" := JStr("https://idp.example/userinfo")]);
    assert HasEndpoints(doc);
  }

  /** Without a userinfo endpoint every token gets the same 501 and no call is
      made, whatever the userinfo server would have replied. */
  lemma UnsupportedForEveryToken(
    cfg: Config, discovery: Result<Json, Failure>, c1: Credentials, c2: Credentials,
    r1: Reply, r2: Reply, e1: string, e2: string)
    requires GetOidcClient(cfg, discovery, None).Ok?
    requires !Truthy(GetOidcClient(cfg, discovery, None).value.userinfoEndpoint)
    ensures Userinfo(cfg, Some(c1), discovery, r1, e1) == Userinfo(cfg, Some(c2), discovery, r2, e2)
    ensures Userinfo(cfg, Some(c1), discovery, r1, e1) == Exchange(None, Err(HttpError(501, Unsupported)))
  {
  }

  /** The userinfo endpoint is missing exactly when the discovery document has
      no truthy `userinfo_endpoint` entry. */
  lemma UnsupportedIffNoEndpoint(cfg: Config, doc: Json, c: Credentials, reply: Reply, errText: string)
    requires HasEndpoints(doc)
    ensures Userinfo(cfg, Some(c), Ok(doc), reply, errText).result == Err(HttpError(501, Unsupported))
            <==> !("userinfo_endpoint" in doc.fields && Truthy(doc.fields["userinfo_endpoint"]))
  {
    var client := GetOidcClient(cfg, Ok(doc), None);
    if "userinfo_endpoint" in doc.fields && Truthy(doc.fields["userinfo_endpoint"]) {
      assert Truthy(client.value.userinfoEndpoint);
      assert Unsupported != ErrorDetail("userinfo_failed", errText) by {
        assert Unsupported.fields["error"] == JStr("userinfo_unsupported");
      }
    }
  }

  /** The corrected route, run through the cache: the header check first, so
      a missing header makes no discovery fetch; then `get_oidc_metadata()`
      through the cache; then `Userinfo` on that outcome. */
  method ServeUserinfo(
    cache: MetadataCache, creds: Option<Credentials>, discoveryReply: Reply,
    reply: Reply, errText: string)
    returns (x: Exchange<UserinfoRequest, Json>, fetched: Option<string>)
    requires cache.Valid()
    modifies cache
    ensures cache.Valid()
    ensures creds.None? ==>
              x.result == Err(HttpError(401, HeaderMissing)) && x.sent == None &&
              fetched == None && cache.cached == old(cache.cached)
    ensures creds.Some? && old(cache.cached).Some? ==>
              fetched == None && cache.cached == old(cache.cached) &&
              x == Userinfo(cache.config, creds, Ok(old(cache.cached).value), reply, errText)
    ensures creds.Some? && old(cache.cached).None? ==>
              fetched == Some(DiscoveryUrl(cache.config.issuer)) &&
              cache.cached == Stored(Fetched(discoveryReply)) &&
              x == Userinfo(cache.config, creds, Fetched(discoveryReply), reply, errText)
  {
    var token := GetTokenFromHeader(creds);
    if token.Err? {
      return Exchange(None, Err(token.error)), None;
    }
    var discovery;
    discovery, fetched := cache.Get(discoveryReply);
    x := Userinfo(cache.config, creds, discovery, reply, errText);
  }
}
