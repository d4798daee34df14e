/** The OIDC discovery cache of the auth service: the issuer's
    `.well-known/openid-configuration` document (section 4 of OpenID Connect
    Discovery 1.0), fetched on first need and kept for the life of the process. */
module Discovery {
  import opened Text
  import opened Http

  /** The auth service's configuration, as `get_config()` reads it from the
      environment on every call; the environment is taken as constant. */
  datatype Config = Config(issuer: string, clientId: string, clientSecret: string, redirectUriBase: string)

  /** The configuration when no environment variable is set. */
  const DefaultConfig := Config("https://accounts.google.com", "", "", "http://localhost:8083")

  const WellKnownPath := ".well-known/openid-configuration"

  /** The discovery URL: a prefix of the issuer that does not end in `/`,
      followed by `/.well-known/openid-configuration`, where the issuer past
      that prefix is nothing but slashes: exactly one slash stands at the join. */
  function DiscoveryUrl(issuer: string): (url: string)
    ensures var n := |url| - |WellKnownPath| - 1;
            0 <= n <= |issuer| && url[..n] == issuer[..n] &&
            url[n..] == "/" + WellKnownPath &&
            (n == 0 || url[n - 1] != '/') &&
            forall i :: n <= i < |issuer| ==> issuer[i] == '/'
  {
    RStrip(issuer, '/') + "/" + WellKnownPath
  }

  /** Trailing slashes on the configured issuer make no difference. */
  lemma DiscoveryUrlIgnoresTrailingSlashes(issuer: string, n: nat)
    ensures DiscoveryUrl(issuer + Repeat('/', n)) == DiscoveryUrl(issuer)
  {
    RStripAbsorbs(issuer, '/', n);
  }

  /** What one GET of the discovery URL yields, given its reply: a transport
      error, a status outside 2xx (`raise_for_status`) or a body that is not
      JSON fails; otherwise the parsed document. */
  function Fetched(reply: Reply): (r: Result<Json, Failure>)
    ensures reply.Raised? ==> r == Err(Unhandled(Transport))
    ensures reply.Received? && !IsSuccess(reply.response.status) ==>
              r == Err(Unhandled(StatusError(reply.response.status)))
    ensures reply.Received? && IsSuccess(reply.response.status) ==> r == JsonOf(reply.response)
  {
    match reply
    case Raised => Err(Unhandled(Transport))
    case Received(resp) =>
      if !IsSuccess(resp.status) then Err(Unhandled(StatusError(resp.status))) else JsonOf(resp)
  }

  /** What `_oidc_metadata` holds after a fetch with outcome `r`: the document
      on success, except that a `null` document is Python's `None`; nothing
      on failure. */
  function Stored(r: Result<Json, Failure>): (c: Option<Json>)
    ensures c.Some? <==> r.Ok? && r.value != JNull
    ensures c.Some? ==> c.value == r.value
  {
    if r.Ok? && r.value != JNull then Some(r.value) else None
  }

  /** The process-wide `_oidc_metadata` global: empty until a discovery fetch succeeds. */
  class MetadataCache {
    const config: Config
    var cached: Option<Json>

    /** A stored document is never `null`: `None` is the "not cached" marker. */
    ghost predicate Valid()
      reads this
    {
      cached != Some(JNull)
    }

    constructor (config: Config)
      ensures Valid() && this.config == config && cached == None
    {
      this.config := config;
      cached := None;
    }

    /** `get_oidc_metadata()`: the cached document when there is one, with no
        fetch; otherwise one GET of the discovery URL, whose reply is `reply`.
        `fetched` is the URL requested, if any. */
    method Get(reply: Reply) returns (r: Result<Json, Failure>, fetched: Option<string>)
      requires Valid()
      modifies this
      ensures Valid()
      ensures old(cached).Some? ==> r == Ok(old(cached).value) && fetched == None && cached == old(cached)
      ensures old(cached).None? ==>
                fetched == Some(DiscoveryUrl(config.issuer)) && r == Fetched(reply) && cached == Stored(r)
    {
      if cached.Some? {
        return Ok(cached.value), None;
      }
      fetched := Some(DiscoveryUrl(config.issuer));
      match reply {
        case Raised =>
          r := Err(Unhandled(Transport));
        case Received(resp) =>
          if !IsSuccess(resp.status) {
            r := Err(Unhandled(StatusError(resp.status)));
          } else {
            r := JsonOf(resp);
            if r.Ok? && r.value != JNull {
              cached := Some(r.value);
            }
          }
      }
    }
  }

  /** Two calls in a row on an empty cache: once the first fetch has stored a
      document, the second call makes no request and returns the same
      document; after a failed fetch, or one that gave `null`, the second call
      fetches again and the cache ends as that second fetch leaves it. */
  method GetTwice(cache: MetadataCache, first: Reply, second: Reply)
      returns (r1: Result<Json, Failure>, fetched1: Option<string>, r2: Result<Json, Failure>, fetched2: Option<string>)
    requires cache.Valid() && cache.cached == None
    modifies cache
    ensures cache.Valid()
    ensures fetched1 == Some(DiscoveryUrl(cache.config.issuer)) && r1 == Fetched(first)
    ensures Stored(r1).Some? ==> r2 == r1 && fetched2 == None && cache.cached == Stored(r1)
    ensures Stored(r1).None? ==>
              fetched2 == Some(DiscoveryUrl(cache.config.issuer)) && r2 == Fetched(second) && cache.cached == Stored(r2)
  {
    r1, fetched1 := cache.Get(first);
    r2, fetched2 := cache.Get(second);
  }
}
