# chinta: OIDC login and authenticated gateway, modelled in Dafny

Two small Python services form the system's authentication core.

- **chinta-auth** is an OpenID Connect relying party built on Authlib. It discovers the identity
  provider's endpoints once and caches them for the life of the process. It builds an OAuth2
  client for every request. It serves three routes: the authorization URL, the code-for-token
  exchange, and the userinfo lookup.
- **chinta-gateway** is the edge service. It extracts bearer tokens and redirects `/` to the web
  or mobile UI. Its login, callback and `/me` routes delegate to chinta-auth. It reverse-proxies
  `/api/{path}` to the backend with the caller's token attached.

The model has one module per component:

- **Text** holds the Python string operations the services use.
- **Http** holds JSON values, upstream replies, credentials and failures.
- **Discovery** holds the configuration and the metadata cache. The cache is a class whose one
  field stands for the `_oidc_metadata` global.
- **ClientFactory** holds `get_oidc_client`.
- **AuthService** and **Gateway** hold the routes.
- **EndToEnd** chains the gateway's routes to what the auth service answers.

Every outbound HTTP call is modelled the same way. A handler takes the reply the call would get
(`Reply`, `TokenReply`) as an input. It returns the request it sent (`sent`, or `None` when it
sent nothing) and its outcome.

An outcome is a `Result` over `Failure`.

- `HttpError(status, detail)` is an `HTTPException`. FastAPI answers it with that status and the
  body `{"detail": detail}`, or with no body for a status below 200 or 204, 205 or 304.
  `Http.NewHttpException` builds one as Starlette does: a `None` detail becomes the status's
  reason phrase, and a status Python's `http.HTTPStatus` does not define raises ValueError instead.
- `Unhandled(cause)` is any other exception (an httpx error, `raise_for_status`, a `KeyError`).
  FastAPI answers it with 500.

`WireStatus` and `WireJson` state this rendering. The EndToEnd lemmas use them.

In these places the model keeps what the code does:

- **Callback status.** A rejected code does not reach the gateway's caller with the IdP's own
  status, such as 400. The auth service maps every token-exchange failure to 401, and the gateway
  mirrors that 401 (`EndToEnd.CallbackReportsRejectedCode`).
- **Login errors are not mirrored.** Login does not pass upstream errors through. A non-2xx reply
  raises httpx's `HTTPStatusError`, which FastAPI answers with 500. Only callback and `/me` mirror
  the upstream status, and only status 200 counts as success there.
- **Empty state and nonce.** An empty `state` or `nonce` is replaced just as an absent one is
  (Python's `or`).
- **A `null` discovery document.** A 2xx discovery reply whose body is JSON `null` is returned,
  but it leaves the cache empty. Python's `None` is the "not cached" marker.
- **The redirect URI shown to the IdP.** `get_authorize_url` hands Authlib the caller's
  `redirect_uri` argument itself, even when it is empty. The client's own redirect URI falls back
  to the default in that case.
- **The state/nonce gap.** The token exchange never compares `state` or `nonce` with the values
  issued (`AuthService.AuthenticateIgnoresStateAndNonce`). This is a CSRF and replay gap, and the model
  keeps it.
- **The proxy's body.** When `request.json()` raises, the forwarded body is Python's `None`.
  A text reply from the backend is sent back by `JSONResponse` as a JSON string.

## Model

| member | source | states |
|---|---|---|
| Text.RStrip | chinta-auth/app.py:63 | `rstrip("/")` gives the prefix of its argument that does not end in the character, and everything after that prefix is that character |
| Text.RStripAbsorbs | chinta-auth/app.py:63 | appending any number of the stripped character leaves the result of `rstrip` unchanged |
| Text.LowerEqualsIff | chinta-gateway/app.py:30 | lower-casing a string and comparing it with a lower-case word holds exactly when the string spells that word in some mix of letter cases |
| Text.ContainsLowerIff | chinta-gateway/app.py:50-51 | `word in s.lower()` holds exactly when `s` contains the word, in some mix of cases, at some index |
| Http.OrElse | chinta-auth/app.py:105-106 | Python's `v or fallback` on a `str \| None`: a present non-empty value is kept, and an absent or empty one gives the fallback |
| Http.JsonOf | chinta-auth/app.py:68 | `resp.json()` succeeds exactly when the body parses, with the parsed value, and otherwise raises a non-HTTP error |
| Discovery.DiscoveryUrl | chinta-auth/app.py:63-64 | the discovery URL is a prefix of the issuer that does not end in `/`, then `/.well-known/openid-configuration`, and the issuer past that prefix is only slashes, so exactly one slash stands at the join |
| Discovery.DiscoveryUrlIgnoresTrailingSlashes | chinta-auth/app.py:63-64 | issuers differing only in trailing slashes give the same discovery URL |
| Discovery.Fetched | chinta-auth/app.py:65-68 | one discovery GET fails with a transport error, with `raise_for_status`'s error for a status outside 2xx, or with a JSON error for a 2xx body that does not parse, and otherwise gives the parsed document |
| Discovery.Stored | chinta-auth/app.py:68 | after a fetch the global holds a document exactly when the fetch succeeded with a non-`null` value, and then holds that value |
| Discovery.MetadataCache.constructor | chinta-auth/app.py:32 | the process starts with nothing cached |
| Discovery.MetadataCache.Get | chinta-auth/app.py:57-69 | with a document cached, it returns that document, makes no request and leaves the cache alone; otherwise it requests the discovery URL once, fails on a transport error, a non-2xx status or a non-JSON body, and afterwards the cache holds exactly the fetched document on success (a `null` document leaves it empty) and nothing on failure; the cache never holds `null` |
| Discovery.GetTwice | chinta-auth/app.py:57-69 | on an empty cache the first call requests the discovery URL and gives that fetch's outcome; after a first fetch that stored a document, the second call returns the same document, makes no request and the cache keeps it; after a first fetch that failed or gave `null`, the second call requests the discovery URL again, returns what that fetch gives, and the cache ends as that fetch leaves it; the cache never holds `null` |
| ClientFactory.DefaultRedirect | chinta-auth/app.py:76 | the default redirect URI is a prefix of the configured base that does not end in `/`, then `/callback`, and the base past that prefix is only slashes |
| ClientFactory.Lookup | chinta-auth/app.py:83-84 | `doc[key]` gives the value when the document is an object holding the key, a `KeyError` when the object lacks the key, and a `TypeError` when the document is not an object |
| ClientFactory.GetOidcClient | chinta-auth/app.py:72-86 | a discovery failure comes back unchanged; otherwise the client exists exactly when the document holds both required endpoints, and the error names the first one missing; the client has the configured id and secret, scope `openid profile email`, the given non-empty redirect URI or else the stripped base plus `/callback`, both endpoints copied from the document, and the userinfo endpoint or `None` |
| ClientFactory.ClientsDifferOnlyInRedirect | chinta-auth/app.py:76-85 | clients built for two redirect URIs are equal except in `redirect_uri`, and two distinct non-empty URIs give distinct fields |
| ClientFactory.DefaultRedirectIgnoresTrailingSlashes | chinta-auth/app.py:76 | an empty redirect URI counts as none, and trailing slashes on the configured base do not change the default |
| AuthService.GetTokenFromHeader | chinta-auth/app.py:89-92 | it fails with 401 exactly when HTTPBearer found no credentials, and otherwise returns the credential unchanged |
| AuthService.GetAuthorizeUrl | chinta-auth/app.py:97-118 | a client failure comes back unchanged; an authorization endpoint that is not a JSON string gives a non-HTTP error (500); otherwise the returned state and nonce are the caller's non-empty values or else the fresh ones, and the returned URL is the encoding of exactly those values with the client, its authorization endpoint and the caller's redirect URI |
| AuthService.AuthorizeKeepsCallerValues | chinta-auth/app.py:105-106 | with non-empty caller values, the route succeeds exactly when the authorization endpoint is a string, returns those values unchanged, and its answer, failure included, does not depend on the fresh values |
| AuthService.Authenticate | chinta-auth/app.py:121-136 | a client failure (discovery included) sends nothing and is not mapped to 401; otherwise it sends one token request with the client, its token endpoint, the code and the caller's redirect URI, returns the token response unchanged on success, and fails with 401 `token_exchange_failed` on any failure |
| AuthService.AuthenticateIgnoresStateAndNonce | chinta-auth/app.py:121-136 | the request sent and the answer are the same for every `state` and `nonce` |
| AuthService.Userinfo | chinta-auth/app.py:139-157 | the route with the token attached to the call: a missing header gives 401 and a client failure comes back unchanged, both with no request; a falsy userinfo endpoint gives 501 `userinfo_unsupported` with no request; otherwise it sends one request with the endpoint and the token, and succeeds with the claims unchanged exactly when the reply is 2xx JSON, failing with 401 `userinfo_failed` in every other case |
| AuthService.UnsupportedForEveryToken | chinta-auth/app.py:142-147 | without a userinfo endpoint, every token and every possible reply give the same 501 and no request |
| AuthService.UnsupportedIffNoEndpoint | chinta-auth/app.py:143-147 | for a document with both required endpoints, the answer is the 501 exactly when the document has no truthy `userinfo_endpoint` |
| AuthService.ServeUserinfo | chinta-auth/app.py:139-157 | the corrected route, run through the cache: the header dependency runs before discovery: a missing header gives 401 with no discovery fetch and an unchanged cache; a cached document is used without a fetch and the cache is unchanged; on an empty cache the discovery URL is requested once, the answer is the userinfo route's answer for that fetch's outcome, and the cache ends holding that fetch's document (nothing on failure or `null`) |
| AuthService.UserinfoAsWritten | chinta-auth/app.py:139-157 | as written, no userinfo request is ever sent and the route never succeeds: every request that reaches `client.get(..., token=token)` gets 401 `userinfo_failed`, and the checks before the call answer as in the corrected route |
| AuthService.UserinfoAsWrittenRejectsValidToken | chinta-auth/app.py:148-151 | for a document with a userinfo endpoint and an IdP that would answer 200 with claims, the route as written answers 401 `userinfo_failed` while the corrected route returns the claims |
| Http.NewHttpException | chinta-gateway/app.py:104 | an `HTTPException` keeps the given status and a non-null detail; a `null` detail becomes `http.HTTPStatus`'s reason phrase for the status, and a status it does not define gives a non-HTTP error (ValueError, so 500) instead; an HTTPException never carries a `null` detail |
| Http.NullDetailTakesPhrase | chinta-gateway/app.py:104 | a `null` detail becomes `Continue`, `Created`, `Not Found` and `Network Authentication Required` for 100, 201, 404 and 511, and status 299 raises instead |
| Gateway.AuthenticateBody | chinta-gateway/app.py:95-100 | the callback's body has exactly the keys `code`, `redirect_uri`, `state` and `nonce`, the first two as strings and an absent state or nonce as `null` |
| Gateway.GetAccessToken | chinta-gateway/app.py:26-32 | it succeeds exactly when credentials are present and the scheme is `bearer` in some mix of letter cases, and then returns the credential unchanged; otherwise it fails with 401 |
| Gateway.BearerSpellings | chinta-gateway/app.py:30 | `Bearer`, `BEARER` and `bearer` are accepted and `Basic` is refused |
| Gateway.Root | chinta-gateway/app.py:40-53 | `target=mobile` and `target=web` pick their UI whatever the User-Agent; otherwise the mobile UI is chosen exactly when the User-Agent holds `mobile`, `android` or `iphone` in some mix of cases, and a missing User-Agent gives the web UI |
| Gateway.MobileAgentIff | chinta-gateway/app.py:50-51 | the three keyword tests on the lower-cased User-Agent hold exactly when a keyword occurs in it in some mix of cases |
| Gateway.Login | chinta-gateway/app.py:56-77 | it always asks `{auth}/auth/authorize` with the caller's non-empty redirect URI or else the fixed callback URL; it succeeds with the body exactly on a 2xx JSON reply, and every failure is a non-HTTP exception, so a non-2xx status is never mirrored |
| Gateway.AuthCallback | chinta-gateway/app.py:80-105 | it always posts the code, the fixed callback URL and the given state and nonce (or `null`) to `{auth}/authenticate`; status 200 returns the body; any other status, other 2xx codes included, is raised with that same status and body when the body is not `null`, and a `null` body goes through `Http.NewHttpException` (reason phrase, or 500 for an undefined status); a body that is not JSON is a non-HTTP error |
| Gateway.DefaultLoginMatchesCallback | chinta-gateway/app.py:88-97 | a login without a redirect URI and the callback that follows send the auth service the same redirect URI |
| Gateway.Me | chinta-gateway/app.py:108-123 | a refused token gives 401 with no request; otherwise it sends `Authorization: Bearer <token>` to `{auth}/userinfo`, returns the body on 200, and raises any other status with the same status and body when the body is not `null`, a `null` body going through `Http.NewHttpException`; a body that is not JSON is a non-HTTP error |
| Gateway.ProxyApi | chinta-gateway/app.py:126-164 | a refused token gives 401 with no request; otherwise it sends one request to the backend URL plus `/` plus the path, with the same method and query, the parsed body or none, and the inbound headers in which only the literal key `Authorization` is set to `Bearer <token>`; the answer has the backend's status, with the parsed JSON when the Content-Type starts with `application/json` (a missing one counts as empty) and the raw text otherwise |
| EndToEnd.MeReportsUnsupportedUserinfo | chinta-gateway/app.py:121-123 | when the IdP has no userinfo endpoint, `/me` answers 501 with the auth service's `userinfo_unsupported` body, whatever the token |
| EndToEnd.CallbackReportsRejectedCode | chinta-gateway/app.py:103-104 | a code the IdP rejects reaches the caller of `/auth/callback` as 401 with the `token_exchange_failed` body |
| EndToEnd.CallbackReturnsTokens | chinta-gateway/app.py:103-105 | a granted code reaches the caller of `/auth/callback` as the unchanged token response |
| EndToEnd.LoginFailsOnBrokenDiscovery | chinta-gateway/app.py:75-77 | a discovery document without the required endpoints makes the auth service answer 500, and login then fails with a non-HTTP error rather than re-raising that status |

## Left out

- Network I/O, timeouts and httpx itself are not modelled: every outbound call is an input reply, and the request a handler would send is an output.
- Concurrency is not modelled. The routes are async, and two requests could both miss the cache and both fetch; the cache is modelled for one request at a time.
- AuthService.GetAuthorizeUrl: the URL text is not modelled. Authlib's query encoding in `create_authorization_url` is the `encode` parameter, so the contract ties the URL to the exact values it encodes, not to its characters.
- AuthService.GetAuthorizeUrl: for a string endpoint, `create_authorization_url` is treated as never raising, so `urlparse`'s ValueError on a malformed bracketed host is not modelled. A non-string endpoint is modelled as raising whether it is truthy or falsy. A truthy one fails in `urllib.parse`'s `.decode`. A falsy one becomes empty bytes, and the later `urlunparse` then mixes bytes with `str`.
- AuthService.Authenticate: Authlib's `fetch_token` (client authentication, the form encoding, what it treats as an error) is not modelled. Its result is the input `TokenReply`.
- Gateway.GetAccessToken: what HTTPBearer does is not modelled. It splits the header into `Credentials` and already drops non-bearer schemes and empty credentials. The model takes its output as an input.
- Gateway.Root: Starlette's query and header lookups are taken as given. The inputs are the `target` value and the User-Agent value.
- Gateway.ProxyApi: Starlette turns the request's query and headers into dicts. That step (lower-cased header names, repeated keys) is taken as given, and the inputs are the resulting maps. Because the real header dict has lower-case names, an inbound `authorization` entry is forwarded next to the added `Authorization` one.
- Gateway.ProxyApi: the proxy's error body and the HTTP framing of `JSONResponse` are not modelled.
- `secrets.token_urlsafe(32)` is not modelled. The fresh state and nonce are inputs, so their entropy is not stated.
- `str(e)` is not modelled. Each handler takes the text of the exception it raises as an opaque `errText`.
- Discovery.DiscoveryUrl: `urljoin` is modelled as string concatenation. The model agrees with CPython's `urljoin` only for `http` or `https` issuers that meet all of these conditions:
  - a lower-case scheme;
  - no query and no fragment;
  - no empty, `.` or `..` path segment;
  - no tab, CR or LF anywhere, and no leading space or control character;
  - no bracketed host, and a host that NFKC normalisation leaves unchanged.

  The cases outside that class are not modelled:
  - `urljoin` lower-cases the scheme.
  - For a scheme outside `uses_relative`, it returns the bare relative path `.well-known/openid-configuration`.
  - It drops empty interior path segments, so `https://host//realm` gives `https://host/realm/.well-known/openid-configuration`.
  - It resolves `.` and `..` segments, and it drops the issuer's query and fragment.
  - `urlsplit` deletes every tab, CR and LF, and strips leading C0 control characters and spaces.
  - `urlsplit` raises ValueError for an unbalanced or invalid bracketed host, such as `https://[::1/realm`, and for a host that NFKC normalisation breaks. That error escapes `get_oidc_metadata` outside any `try`, so every auth route would answer 500; the model requests the concatenated URL instead.
- Text.LowerChar: `str.lower()` is modelled for ASCII letters only. Other Unicode case mappings are not.
- JSON numbers are integers only. Floating point is not modelled.
- The model treats the environment as constant and does not model it. `get_config()` runs on every call, and so does the gateway's lookup of `CHINTA_AUTH_CALLBACK_URL` in login and the callback. The environment is assumed not to change while the process runs. `config.py` becomes the `Discovery.Config` record (with `DefaultConfig`), and the gateway's variables become `Gateway.GatewayConfig` (with `DefaultGatewayConfig`).
- FastAPI's response framing (headers, and the 307 status of `RedirectResponse`) is not modelled beyond `WireStatus` and `WireJson`.
- Http.StatusPhrase: the reason phrases are those of Python 3.12's `http.HTTPStatus`. Later versions renamed a few of them (413, 414, 416, 422), and those names are not modelled.
- The OpenAPI routes (`chinta-auth/app.py:162-184`), the health routes and the uvicorn startup are not modelled. They have no decision logic.
- `chinta/src/daemon.cpp` is not part of this model. It is process daemonisation: fork, signals, syslog and a sleep loop.
- `lib/http/include/service/server.hpp` is not part of this model. It is an abstract C++ server interface with no bodies.

## Findings

| source | as written | input that shows it | evidently intended | confidence | as-written member | corrected member |
|---|---|---|---|---|---|---|
| chinta-auth/app.py:150 | `client.get(client.userinfo_endpoint, token=token)` passes `token=` to httpx's `AsyncClient.get`, which takes no such keyword, and the Authlib client was built without a token; the call raises before any request, and the `except` answers 401 | a valid `Bearer` header and a discovery document with `userinfo_endpoint` set, with an IdP that would answer 200: the route answers 401 `userinfo_failed` | the access token is attached to the userinfo request (for example by setting `client.token` before the call), so a 2xx JSON reply returns the claims | medium, not executed | AuthService.UserinfoAsWritten, AuthService.UserinfoAsWrittenRejectsValidToken | AuthService.Userinfo |
