/** `get_oidc_client`: the Authlib client the auth service builds afresh for
    every request, bound to one redirect URI and carrying the endpoints of
    the discovery document. */
module ClientFactory {
  import opened Text
  import opened Http
  import opened Discovery

  /** The fields of the AsyncOAuth2Client the handlers use. The endpoints are
      whatever JSON values the discovery document holds; an absent userinfo
      endpoint is `JNull` (`dict.get` gives `None`). */
  datatype OidcClient = OidcClient(
    clientId: string,
    clientSecret: string,
    redirectUri: string,
    scope: string,
    authorizationEndpoint: Json,
    tokenEndpoint: Json,
    userinfoEndpoint: Json)

  const Scope := "openid profile email"

  /** The redirect URI used when the caller gives none: the configured base
      without trailing slashes, then `/callback`. */
  function DefaultRedirect(cfg: Config): (r: string)
    ensures var base := cfg.redirectUriBase;
            var n := |r| - |"/callback"|;
            0 <= n <= |base| && r[..n] == base[..n] && r[n..] == "/callback" &&
            (n == 0 || r[n - 1] != '/') &&
            forall i :: n <= i < |base| ==> base[i] == '/'
  {
    RStrip(cfg.redirectUriBase, '/') + "/callback"
  }

  /** `doc[key]` on a JSON value. */
  function Lookup(doc: Json, key: string): (r: Result<Json, Failure>)
    ensures r.Ok? <==> doc.JObj? && key in doc.fields
    ensures r.Ok? ==> r.value == doc.fields[key]
    ensures r.Err? ==> r.error == (if doc.JObj? then Unhandled(MissingKey(key)) else Unhandled(NotAnObject))
  {
    if !doc.JObj? then Err(Unhandled(NotAnObject))
    else if key in doc.fields then Ok(doc.fields[key])
    else Err(Unhandled(MissingKey(key)))
  }

  /** `doc.get(key)` on a JSON object. */
  function GetOrNull(fields: map<string, Json>, key: string): Json
  {
    if key in fields then fields[key] else JNull
  }

  /** The discovery document holds both required endpoints. */
  predicate HasEndpoints(doc: Json)
  {
    doc.JObj? && "authorization_endpoint" in doc.fields && "token_endpoint" in doc.fields
  }

  /** `get_oidc_client(redirect_uri)`, given what `get_oidc_metadata()` returned. */
  function GetOidcClient(cfg: Config, discovery: Result<Json, Failure>, redirectUri: Option<string>): (r: Result<OidcClient, Failure>)
    ensures discovery.Err? ==> r == Err(discovery.error)
    ensures r.Ok? <==> discovery.Ok? && HasEndpoints(discovery.value)
    ensures discovery.Ok? && !HasEndpoints(discovery.value) ==>
              r == Err(Unhandled(
                if !discovery.value.JObj? then NotAnObject
                else if "authorization_endpoint" !in discovery.value.fields then MissingKey("authorization_endpoint")
                else MissingKey("token_endpoint")))
    ensures r.Ok? ==>
              var c := r.value;
              var fields := discovery.value.fields;
              c.clientId == cfg.clientId && c.clientSecret == cfg.clientSecret &&
              c.scope == "openid profile email" &&
              (Provided(redirectUri) ==> c.redirectUri == redirectUri.value) &&
              (!Provided(redirectUri) ==> c.redirectUri == DefaultRedirect(cfg)) &&
              c.authorizationEndpoint == fields["authorization_endpoint"] &&
              c.tokenEndpoint == fields["token_endpoint"] &&
              c.userinfoEndpoint == (if "userinfo_endpoint" in fields then fields["userinfo_endpoint"] else JNull)
  {
    match discovery
    case Err(e) => Err(e)
    case Ok(metadata) =>
      var redirect := OrElse(redirectUri, DefaultRedirect(cfg));
      var client := OidcClient(cfg.clientId, cfg.clientSecret, redirect, Scope, JNull, JNull, JNull);
      match Lookup(metadata, "authorization_endpoint")
      case Err(e) => Err(e)
      case Ok(authorization) =>
        match Lookup(metadata, "token_endpoint")
        case Err(e) => Err(e)
        case Ok(token) =>
          Ok(client.(authorizationEndpoint := authorization,
                     tokenEndpoint := token,
                     userinfoEndpoint := GetOrNull(metadata.fields, "userinfo_endpoint")))
  }

  /** Clients built for two redirect URIs differ in that field alone. */
  lemma ClientsDifferOnlyInRedirect(cfg: Config, discovery: Result<Json, Failure>, a: Option<string>, b: Option<string>)
    requires GetOidcClient(cfg, discovery, a).Ok?
    ensures GetOidcClient(cfg, discovery, b).Ok?
    ensures GetOidcClient(cfg, discovery, a).value.(redirectUri := GetOidcClient(cfg, discovery, b).value.redirectUri)
            == GetOidcClient(cfg, discovery, b).value
    ensures Provided(a) && Provided(b) && a != b ==>
              GetOidcClient(cfg, discovery, a).value.redirectUri != GetOidcClient(cfg, discovery, b).value.redirectUri
  {
  }

  /** An empty redirect URI counts as none, and the default ignores trailing
      slashes on the configured base. */
  lemma DefaultRedirectIgnoresTrailingSlashes(cfg: Config, discovery: Result<Json, Failure>, n: nat)
    requires GetOidcClient(cfg, discovery, None).Ok?
    ensures GetOidcClient(cfg, discovery, Some("")) == GetOidcClient(cfg, discovery, None)
    ensures GetOidcClient(cfg.(redirectUriBase := cfg.redirectUriBase + Repeat('/', n)), discovery, None)
            == GetOidcClient(cfg, discovery, None)
  {
    RStripAbsorbs(cfg.redirectUriBase, '/', n);
  }
}
