/** The gateway's routes fed with what the auth service answers. The auth
    service's outcome reaches the gateway as FastAPI renders it (WireStatus,
    WireJson); how HTTPBearer and pydantic read the gateway's request on the
    other side is taken as given in each lemma's requires. */
module EndToEnd {
  import opened Http
  import opened Discovery
  import opened ClientFactory
  import opened AuthService
  import opened Gateway

  /** The reply `resp` carries the auth service's outcome `out`. */
  predicate Carries(resp: Response, out: Result<Json, Failure>)
  {
    resp.status == WireStatus(out) && resp.json == WireJson(out)
  }

  /** An IdP without a userinfo endpoint makes `/me` answer 501 with the auth
      service's `userinfo_unsupported` body, whatever the token. */
  lemma MeReportsUnsupportedUserinfo(
    gcfg: GatewayConfig, acfg: Config, discovery: Result<Json, Failure>,
    creds: Option<Credentials>, seen: Credentials, reply: Reply, errText: string, resp: Response)
    requires GetAccessToken(creds).Ok?
    requires GetOidcClient(acfg, discovery, None).Ok?
    requires !Truthy(GetOidcClient(acfg, discovery, None).value.userinfoEndpoint)
    requires Carries(resp, Userinfo(acfg, Some(seen), discovery, reply, errText).result)
    ensures resp.status == 501
    ensures Me(gcfg, creds, Received(resp)).result == Err(HttpError(501, JObj(map["detail" := Unsupported])))
  {
    UnsupportedForEveryToken(acfg, discovery, seen, seen, reply, reply, errText, errText);
  }

  /** A code the IdP rejects, whatever status the IdP used, reaches the
      caller of `/auth/callback` as 401 with the `token_exchange_failed` body. */
  lemma CallbackReportsRejectedCode(
    gcfg: GatewayConfig, acfg: Config, discovery: Result<Json, Failure>,
    code: string, state: Option<string>, nonce: Option<string>, errText: string, resp: Response)
    requires GetOidcClient(acfg, discovery, Some(gcfg.callbackUrl)).Ok?
    requires Carries(resp, Authenticate(acfg, discovery,
                                        AuthenticateRequest(code, gcfg.callbackUrl, state, nonce), Rejected, errText).result)
    ensures AuthCallback(gcfg, code, state, nonce, Received(resp)).result
            == Err(HttpError(401, JObj(map["detail" := ErrorDetail("token_exchange_failed", errText)])))
  {
  }

  /** A granted code reaches the caller of `/auth/callback` as the IdP's token
      response, unchanged. */
  lemma CallbackReturnsTokens(
    gcfg: GatewayConfig, acfg: Config, discovery: Result<Json, Failure>,
    code: string, state: Option<string>, nonce: Option<string>, token: Json, errText: string, resp: Response)
    requires GetOidcClient(acfg, discovery, Some(gcfg.callbackUrl)).Ok?
    requires Carries(resp, Authenticate(acfg, discovery,
                                        AuthenticateRequest(code, gcfg.callbackUrl, state, nonce), Granted(token), errText).result)
    ensures AuthCallback(gcfg, code, state, nonce, Received(resp)).result == Ok(token)
  {
  }

  /** A discovery document without the required endpoints makes the auth
      service answer 500, and the login route fails without mirroring that
      status as an HTTPException. */
  lemma LoginFailsOnBrokenDiscovery(
    gcfg: GatewayConfig, acfg: Config, doc: Json, redirectUri: string,
    state: Option<string>, nonce: Option<string>, fs: string, fn: string,
    encode: AuthorizationRequest -> string, resp: Response)
    requires !HasEndpoints(doc)
    requires var out := GetAuthorizeUrl(acfg, Ok(doc), redirectUri, state, nonce, fs, fn, encode);
             resp.status == (if out.Ok? then 200 else WireStatus(Err(out.error)))
    ensures resp.status == 500
    ensures Login(gcfg, Some(redirectUri), Received(resp)).result == Err(Unhandled(StatusError(500)))
  {
  }
}
