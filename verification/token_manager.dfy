/** The process-wide access-token cache of the proxy and its expiry-based
    refresh through the OAuth2 client-credentials exchange. The clock and the
    identity provider's answer are inputs; calls are strictly sequential. */
module TokenManager {
  import opened Wrappers

  /** The cached token. An empty `accessToken` stands for the absent (falsy)
      token of the initial `{}`; `expiresAt` is in milliseconds since the epoch. */
  datatype TokenCache = TokenCache(accessToken: string, expiresAt: int)

  /** The cache as the process starts: no token at all. */
  const Initial: TokenCache := TokenCache("", 0)

  /** The token endpoint reports lifetimes in seconds, the clock counts milliseconds. */
  const MillisPerSecond: int := 1000

  /** What one client-credentials exchange yields: the granted token and its
      lifetime in seconds, with the clock reading taken once the response has
      arrived; or the message of the error the POST was rejected with. */
  datatype Grant =
    | Granted(accessToken: string, expiresIn: int, receivedAt: int)
    | Refused(message: string)

  /** The effect of one call: the cache afterwards, the token returned or the
      error thrown, and whether the token endpoint was contacted. */
  datatype TokenStep = TokenStep(cache: TokenCache, token: Result<string, string>, exchanged: bool)

  /** The cache holds a usable token at time `now`: a non-empty token whose
      expiry lies strictly in the future. */
  predicate Valid(c: TokenCache, now: int) {
    c.accessToken != "" && now < c.expiresAt
  }

  /** One exchange with the identity provider. On success the whole cache is
      replaced and the token just cached is returned; on failure the error is
      rethrown before the cache is touched. */
  function GetAccessToken(cache: TokenCache, grant: Grant): (r: TokenStep)
    ensures r.exchanged
    ensures r.token.Success? <==> grant.Granted?
    ensures grant.Granted? ==>
      && r.cache.accessToken == grant.accessToken
      && r.cache.expiresAt - grant.receivedAt == grant.expiresIn * MillisPerSecond
      && r.token == Success(r.cache.accessToken)
    ensures grant.Refused? ==> r.cache == cache && r.token == Failure(grant.message)
  {
    match grant
    case Granted(token, expiresIn, receivedAt) =>
      var renewed := TokenCache(token, receivedAt + expiresIn * MillisPerSecond);
      TokenStep(renewed, Success(renewed.accessToken), true)
    case Refused(message) =>
      TokenStep(cache, Failure(message), true)
  }

  /** The token every Graph call uses: the cached one while it is valid at
      `now`, otherwise the result of a fresh exchange. */
  function GetValidAccessToken(cache: TokenCache, now: int, grant: Grant): (r: TokenStep)
    ensures r.exchanged <==> !Valid(cache, now)
    ensures !r.exchanged ==> r.cache == cache && r.token == Success(cache.accessToken)
    ensures r.exchanged ==> r == GetAccessToken(cache, grant)
    ensures r.token.Success? ==> r.token.value == r.cache.accessToken
    ensures r.token.Failure? ==> r.cache == cache && grant.Refused?
  {
    if cache.accessToken == "" || now >= cache.expiresAt then
      GetAccessToken(cache, grant)
    else
      TokenStep(cache, Success(cache.accessToken), false)
  }

  /** The expiry instant itself already counts as expired: a non-empty token
      is reused one millisecond before `expiresAt` and refreshed at it. */
  lemma ExpiryIsExclusive(cache: TokenCache, grant: Grant)
    requires cache.accessToken != ""
    ensures GetValidAccessToken(cache, cache.expiresAt, grant).exchanged
    ensures !GetValidAccessToken(cache, cache.expiresAt - 1, grant).exchanged
  {
  }

  /** Once a cache is unusable it stays unusable at every later instant, so a
      refused exchange is retried on the next call. */
  lemma InvalidStaysInvalid(cache: TokenCache, now: int, later: int, grant: Grant)
    requires !Valid(cache, now) && now <= later
    ensures GetValidAccessToken(cache, later, grant).exchanged
  {
  }

  /** While the cache is valid, what the identity provider would answer is
      irrelevant: no exchange takes place. */
  lemma ValidCacheIgnoresProvider(cache: TokenCache, now: int, g1: Grant, g2: Grant)
    requires Valid(cache, now)
    ensures GetValidAccessToken(cache, now, g1) == GetValidAccessToken(cache, now, g2)
  {
  }

  /** A successful refresh replaces the cache wholly: what was cached before
      leaves no trace in the result. */
  lemma RefreshForgetsOldCache(c1: TokenCache, now1: int, c2: TokenCache, now2: int, grant: Grant)
    requires grant.Granted?
    requires !Valid(c1, now1) && !Valid(c2, now2)
    ensures GetValidAccessToken(c1, now1, grant) == GetValidAccessToken(c2, now2, grant)
  {
  }

  /** The refreshed token is returned without checking it again: it is valid
      at the time of the call exactly when the provider granted a non-empty
      token whose lifetime reaches past that time. */
  lemma RefreshedTokenNotRechecked(cache: TokenCache, now: int, grant: Grant)
    requires !Valid(cache, now) && grant.Granted?
    ensures var r := GetValidAccessToken(cache, now, grant);
      r.token.Success? &&
      (Valid(r.cache, now) <==>
        grant.accessToken != "" && now < grant.receivedAt + grant.expiresIn * MillisPerSecond)
  {
  }
}
