/** The helper every route handler goes through: it obtains a valid token,
    shapes the authenticated request to the Microsoft Graph API and relays its
    answer or its failure. The Graph API's answer is an input. */
module GraphClient {
  import opened Wrappers
  import opened Json
  import opened TokenManager

  /** The HTTP methods, lower-case in the source (`'get'`, `'post'`, ...). */
  datatype Method = Get | Post | Put | Patch | Delete

  /** Every upstream URL is this root followed by the endpoint. */
  const GraphRoot: string := "https://graph.microsoft.com/v1.0"

  /** The scheme word in front of the token in the Authorization header. */
  const BearerPrefix: string := "Bearer "

  datatype Header = Header(name: string, value: string)

  /** The request handed to the HTTP client: verb, URL, headers and the body
      it carries, `None` when the request has no body. */
  datatype UpstreamRequest = UpstreamRequest(verb: Method, url: string, headers: seq<Header>, data: Body)

  /** What the Graph API did with a request: answered with a 2xx body, or
      failed (a non-2xx status or a network error) with a message. */
  datatype UpstreamResult = Responded(data: Value) | Failed(message: string)

  /** The effect of one Graph call: the token cache afterwards, the body
      returned or the error thrown, the request sent (none when no token could
      be obtained), and whether a token exchange took place. */
  datatype GraphStep = GraphStep(cache: TokenCache, result: Result<Value, string>, sent: Option<UpstreamRequest>, exchanged: bool)

  /** The methods for which a body is attached at all. */
  predicate WritesBody(m: Method) {
    m == Post || m == Put || m == Patch
  }

  /** The value of the first header named `name`, if any. */
  function HeaderValue(headers: seq<Header>, name: string): (v: Option<string>)
    ensures v.None? ==> forall i :: 0 <= i < |headers| ==> headers[i].name != name
    ensures v.Some? ==> exists i :: 0 <= i < |headers| && headers[i] == Header(name, v.value)
  {
    if |headers| == 0 then None
    else if headers[0].name == name then Some(headers[0].value)
    else
      var v := HeaderValue(headers[1..], name);
      assert v.None? ==> forall i :: 1 <= i < |headers| ==> headers[i] == headers[1..][i - 1];
      assert v.Some? ==> exists i :: 1 <= i < |headers| && headers[i] == Header(name, v.value) by {
        if v.Some? {
          var j :| 0 <= j < |headers[1..]| && headers[1..][j] == Header(name, v.value);
          assert headers[j + 1] == Header(name, v.value);
        }
      }
      v
  }

  /** The request configuration built for one Graph call with `token`. */
  function BuildRequest(verb: Method, endpoint: string, data: Body, token: string): (q: UpstreamRequest)
    ensures q.verb == verb
    ensures |q.headers| == 2
    ensures |q.url| == |GraphRoot| + |endpoint|
    ensures q.url[..|GraphRoot|] == GraphRoot && q.url[|GraphRoot|..] == endpoint
    ensures HeaderValue(q.headers, "Authorization") == Some(BearerPrefix + token)
    ensures HeaderValue(q.headers, "Content-Type") == Some("application/json")
    ensures q.data.Some? <==> Truthy(data) && WritesBody(verb)
    ensures q.data.Some? ==> q.data == data
  {
    var headers := [Header("Authorization", BearerPrefix + token), Header("Content-Type", "application/json")];
    UpstreamRequest(verb, GraphRoot + endpoint, headers, if Truthy(data) && WritesBody(verb) then data else None)
  }

  /** One authenticated Graph call: refresh the token if needed, send the
      request, return the Graph body. A failed exchange aborts before anything
      is sent; a failed request leaves any refreshed token cached. */
  function CallGraphApi(cache: TokenCache, now: int, grant: Grant, verb: Method, endpoint: string,
                        data: Body, upstream: UpstreamResult): (r: GraphStep)
    ensures r.exchanged <==> !Valid(cache, now)
    ensures r.cache == GetValidAccessToken(cache, now, grant).cache
    ensures r.sent.None? <==> r.exchanged && grant.Refused?
    ensures r.sent.None? ==> r.cache == cache && r.result == Failure(grant.message)
    ensures r.sent.Some? ==> r.sent.value == BuildRequest(verb, endpoint, data, r.cache.accessToken)
    ensures r.sent.Some? ==> r.result == (match upstream
                                          case Responded(v) => Success(v)
                                          case Failed(m) => Failure(m))
  {
    var t := GetValidAccessToken(cache, now, grant);
    match t.token
    case Failure(e) => GraphStep(t.cache, Failure(e), None, t.exchanged)
    case Success(token) =>
      var request := BuildRequest(verb, endpoint, data, token);
      var result := match upstream
                    case Responded(v) => Success(v)
                    case Failed(m) => Failure(m);
      GraphStep(t.cache, result, Some(request), t.exchanged)
  }

  /** The authorization header always carries the token the cache holds after
      the call, and a call that does not exchange uses the token cached before. */
  lemma SentTokenIsCachedToken(cache: TokenCache, now: int, grant: Grant, verb: Method,
                               endpoint: string, data: Body, upstream: UpstreamResult)
    ensures var r := CallGraphApi(cache, now, grant, verb, endpoint, data, upstream);
      r.sent.Some? ==>
        && HeaderValue(r.sent.value.headers, "Authorization") == Some(BearerPrefix + r.cache.accessToken)
        && (Valid(cache, now) ==>
              HeaderValue(r.sent.value.headers, "Authorization") == Some(BearerPrefix + cache.accessToken))
  {
  }

  /** `get` and `delete` never carry a body, whatever the caller passed. */
  lemma ReadsAndDeletesCarryNoBody(verb: Method, endpoint: string, data: Body, token: string)
    requires verb == Get || verb == Delete
    ensures BuildRequest(verb, endpoint, data, token).data == None
  {
  }

  /** For a writing verb the body is attached verbatim exactly when it is
      truthy: objects and arrays, even empty, always; `null`, `false`, `0`
      and the empty string never. */
  lemma WritesAttachTruthyBodies(verb: Method, endpoint: string, v: Value, token: string)
    requires WritesBody(verb)
    ensures v.Object? || v.Array? ==> BuildRequest(verb, endpoint, Some(v), token).data == Some(v)
    ensures v == Null || v == Bool(false) || v == Number(0) || v == Str("") ==>
      BuildRequest(verb, endpoint, Some(v), token).data == None
  {
  }

  /** The upstream answer only decides the result: the cache and the request
      sent are the same whatever the Graph API does. */
  lemma UpstreamLeavesCacheAlone(cache: TokenCache, now: int, grant: Grant, verb: Method,
                                 endpoint: string, data: Body, u1: UpstreamResult, u2: UpstreamResult)
    ensures var r1 := CallGraphApi(cache, now, grant, verb, endpoint, data, u1);
      var r2 := CallGraphApi(cache, now, grant, verb, endpoint, data, u2);
      r1.cache == r2.cache && r1.sent == r2.sent && r1.exchanged == r2.exchanged
  {
  }
}
