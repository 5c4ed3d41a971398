/** A run of sequential calls to the token manager, each at its own clock
    reading and with the answer the identity provider would give if asked. */
module TokenSession {
  import opened Wrappers
  import opened TokenManager

  /** One call of the token manager. */
  datatype Call = Call(now: int, grant: Grant)

  /** The cache after a run, the token or error of each call, and how many
      exchanges the run performed. */
  datatype Run = Run(cache: TokenCache, tokens: seq<Result<string, string>>, exchanges: nat)

  /** Threads the cache through `calls` in order. */
  function Session(cache: TokenCache, calls: seq<Call>): (s: Run)
    ensures |s.tokens| == |calls|
    ensures s.exchanges <= |calls|
    ensures |calls| > 0 && !Valid(cache, calls[0].now) ==> s.exchanges >= 1
    decreases |calls|
  {
    if |calls| == 0 then Run(cache, [], 0)
    else
      var step := GetValidAccessToken(cache, calls[0].now, calls[0].grant);
      var rest := Session(step.cache, calls[1..]);
      Run(rest.cache, [step.token] + rest.tokens, rest.exchanges + (if step.exchanged then 1 else 0))
  }

  /** A token that stays valid through every call is handed out by every call,
      and no call contacts the identity provider. */
  lemma {:induction false} ValidTokenIsReused(cache: TokenCache, calls: seq<Call>)
    requires cache.accessToken != ""
    requires forall i :: 0 <= i < |calls| ==> calls[i].now < cache.expiresAt
    ensures Session(cache, calls).exchanges == 0
    ensures Session(cache, calls).cache == cache
    ensures forall i :: 0 <= i < |calls| ==> Session(cache, calls).tokens[i] == Success(cache.accessToken)
  {
    if |calls| > 0 {
      ValidTokenIsReused(cache, calls[1..]);
      var rest := Session(cache, calls[1..]);
      forall i | 0 <= i < |calls|
        ensures Session(cache, calls).tokens[i] == Success(cache.accessToken)
      {
        if i > 0 {
          assert Session(cache, calls).tokens[i] == rest.tokens[i - 1];
        }
      }
    }
  }

  /** Refusals never damage the cache: when the identity provider refuses
      every exchange, the cache ends as it began, each call succeeds exactly
      when the original cache is valid at its time, and every other call
      performs an exchange of its own (there is no back-off). */
  lemma {:induction false} RefusalsKeepCache(cache: TokenCache, calls: seq<Call>)
    requires forall i :: 0 <= i < |calls| ==> calls[i].grant.Refused?
    ensures Session(cache, calls).cache == cache
    ensures forall i :: 0 <= i < |calls| ==>
      (Session(cache, calls).tokens[i].Success? <==> Valid(cache, calls[i].now))
    ensures (forall i :: 0 <= i < |calls| ==> !Valid(cache, calls[i].now)) ==>
      Session(cache, calls).exchanges == |calls|
  {
    if |calls| > 0 {
      RefusalsKeepCache(cache, calls[1..]);
      var rest := Session(cache, calls[1..]);
      forall i | 0 < i < |calls|
        ensures Session(cache, calls).tokens[i] == rest.tokens[i - 1]
      {
      }
      if forall i :: 0 <= i < |calls| ==> !Valid(cache, calls[i].now) {
        assert forall i :: 0 <= i < |calls[1..]| ==> !Valid(cache, calls[1..][i].now) by {
          forall i | 0 <= i < |calls[1..]|
            ensures !Valid(cache, calls[1..][i].now)
          {
            assert calls[1..][i] == calls[i + 1];
          }
        }
      }
    }
  }

  /** Starting with no token, the first call performs exactly one exchange;
      when it grants a non-empty token, no later call before that token's
      expiry exchanges again, and each of them is handed the granted token. */
  lemma FirstGrantServesUntilExpiry(first: Call, later: seq<Call>)
    requires first.grant.Granted? && first.grant.accessToken != ""
    requires forall i :: 0 <= i < |later| ==>
      later[i].now < first.grant.receivedAt + first.grant.expiresIn * MillisPerSecond
    ensures Session(Initial, [first] + later).exchanges == 1
    ensures forall i :: 0 <= i < |later| + 1 ==>
      Session(Initial, [first] + later).tokens[i] == Success(first.grant.accessToken)
  {
    var calls := [first] + later;
    var step := GetValidAccessToken(Initial, first.now, first.grant);
    assert calls[1..] == later;
    ValidTokenIsReused(step.cache, later);
  }
}
