# Microsoft Graph proxy: token cache and route table

This project is a Dafny model of the two pieces of logic in a small HTTP proxy
for the Microsoft Graph API. The rest of the proxy is forwarding glue.

- **The token manager** (`TokenManager`, `TokenSession`). There is one
  process-wide cache `{accessToken, expiresAt}`. A token is fetched through the
  OAuth2 client-credentials exchange when the cache holds no token, or when the
  clock has reached `expiresAt`. Otherwise the cached token is reused. The cache
  is an immutable record threaded through pure functions. The clock reading and
  the identity provider's answer (`Grant`) are inputs. Calls are strictly
  sequential.
- **The Graph forwarder** (`GraphClient`, `Routes`, `RouteProperties`).
  `callGraphAPI` builds an authenticated request to
  `https://graph.microsoft.com/v1.0` + endpoint. It attaches the body only for
  `post`/`put`/`patch` and only when the body is truthy in JavaScript's sense.
  The route table maps each registered `(method, path)` to one Graph method and
  endpoint. The health check replies `{status: 'ok'}`. Every other handler
  replies in one of three fixed shapes: the Graph body verbatim,
  `{success: true}`, or status 500 with `{error: message}`. The Graph
  API's answer (`UpstreamResult`) is an input.

Modules: `Wrappers` (Option/Result), `Json` (bodies and truthiness),
`TokenManager`, `TokenSession` (runs of sequential calls), `GraphClient`,
`Routes` (router, endpoints, handlers) and `RouteProperties` (table-wide lemmas).

Two behaviours of the code are easy to misread:

- The expiry is `Date.now() + expires_in * 1000`. The clock is read a second
  time, after the token response arrives (server.js:38). It is not the reading
  used for the validity check (server.js:52). So `Granted` carries its own
  `receivedAt` clock reading.
- Write routes do not always forward the inbound body. A falsy body (absent,
  `null`, `false`, `0`, `""`) is dropped. The wipe route sends `{}` whatever
  the inbound body was.

## Model

| member | source | states |
|---|---|---|
| Json.Truthy | server.js:74 | The `data &&` test: a body is truthy exactly when it is present and is none of `null`, `false`, `0` and `""`. So every object and array, even empty, is truthy. |
| TokenManager.GetAccessToken | server.js:19-46 | A successful exchange replaces the cache wholly: the new token, with expiry `expires_in * 1000` ms after the response time. The returned token is the one now cached. A refused exchange is rethrown with its message and leaves the cache as it was. |
| TokenManager.GetValidAccessToken | server.js:51-56 | An exchange happens exactly when the cache is not valid at `now` (empty token or `now >= expiresAt`). Without an exchange, the cached token is returned and the cache is unchanged. A returned token is always the token cached afterwards. A failure implies a refused exchange and an untouched cache. |
| TokenManager.ExpiryIsExclusive | server.js:52 | A non-empty token is still reused one millisecond before `expiresAt`. At `expiresAt` itself it is refreshed, because the comparison is `>=`. |
| TokenManager.InvalidStaysInvalid | server.js:52-54 | A cache that is unusable at some time is unusable at every later time. So after a refused exchange, the next call exchanges again. |
| TokenManager.ValidCacheIgnoresProvider | server.js:51-56 | While the cache is valid, the result does not depend on the identity provider's answer: no exchange is made. |
| TokenManager.RefreshForgetsOldCache | server.js:36-39 | When a refresh happens and succeeds, the result does not depend on the previous cache contents or on the call time. |
| TokenManager.RefreshedTokenNotRechecked | server.js:52-55 | A refreshed token is returned without a second validity check. It is valid at the call time exactly when it is non-empty and its lifetime reaches past that time. |
| TokenSession.Session | server.js:51-56 | A run of calls yields one token or error per call. It performs at most one exchange per call, and at least one when the first call finds the cache invalid. |
| TokenSession.ValidTokenIsReused | server.js:52-55 | If the cached token is non-empty and every call comes before its expiry, the run makes no exchange, keeps the cache, and every call gets that token. |
| TokenSession.RefusalsKeepCache | server.js:30-45 | If every exchange is refused, the cache ends as it began. A call succeeds exactly when the original cache is valid at its time. When it is never valid, every call makes its own exchange, with no back-off. |
| TokenSession.FirstGrantServesUntilExpiry | server.js:14-56 | From the initial empty cache, the first call makes exactly one exchange. A granted non-empty token then serves every later call before its expiry, with no further exchange. |
| GraphClient.BuildRequest | server.js:65-76 | The URL is `https://graph.microsoft.com/v1.0` followed by the endpoint. Exactly two headers are sent: `Authorization: Bearer <token>` and `Content-Type: application/json`. A body is attached, unchanged, exactly when the data is truthy and the method is post, put or patch. |
| GraphClient.CallGraphApi | server.js:61-84 | A refused exchange aborts before any request is sent and leaves the cache unchanged. Otherwise exactly the request built with the token now cached is sent. The result is the Graph body, or the Graph failure message. |
| GraphClient.SentTokenIsCachedToken | server.js:63-70 | The Authorization header carries the token the cache holds after the call. When no exchange was needed, that is the token cached before the call. |
| GraphClient.ReadsAndDeletesCarryNoBody | server.js:74-76 | `get` and `delete` requests never carry a body, whatever data is passed. |
| GraphClient.WritesAttachTruthyBodies | server.js:74-76 | For post, put and patch, objects and arrays (even empty ones) are attached. `null`, `false`, `0` and `""` are not. |
| GraphClient.UpstreamLeavesCacheAlone | server.js:78-83 | The Graph API's answer affects only the result. The cache, the request sent and the exchange flag are the same whatever it answers. |
| Routes.Lookup | server.js:89-391 | The router finds a handler exactly when one is registered under the inbound method and path, and then finds that handler. |
| Routes.Endpoint | server.js:96-386 | Every endpoint starts with its collection's Graph path. The endpoint is exactly that path for list and create, and longer for the single-item operations. |
| Routes.UpstreamData | server.js:96-386 | Create and update pass the inbound body. Wipe passes the truthy literal `{}`. List, get and delete pass no data. |
| Routes.Dispatch | server.js:89-391 | The health check replies 200 `{status: 'ok'}` and touches neither the token nor the Graph API. Any other handler exchanges a token exactly when the cache is invalid and leaves the cache as `getValidAccessToken` does. It sends nothing exactly when that exchange is refused. Otherwise it sends exactly the request `callGraphAPI` builds from its operation's method, endpoint and data, with the token now cached. It replies 200 with the Graph body (list/get/create) or `{success: true}` (update/delete/wipe). On a refused exchange or a failed Graph call it replies 500 `{error: message}`. |
| Routes.Handle | server.js:86-391 | A request gets a reply exactly when some registered handler matches its method and path. The reply is that handler's. |
| RouteProperties.EndpointLayout | server.js:93-391 | An endpoint is the collection's Graph path. Single-item operations add `/` and the id. A wipe also adds `/wipe`. |
| RouteProperties.EndpointsDistinct | server.js:93-391 | No two registered handlers produce the same Graph method and endpoint string, for any ids. Equal method and endpoint strings mean the same collection, operation and id. |
| RouteProperties.IdIsTrailingSegment | server.js:204-221 | The `:id` parameter is the last path segment of a single-item endpoint, or the one before `/wipe`. Before it comes exactly the collection's Graph path. |
| RouteProperties.WipeSendsEmptyObject | server.js:213-221 | A wipe sends the body `{}` whatever the inbound body. An empty object is truthy, so it is attached. |
| RouteProperties.BodyForwardingRule | server.js:113-141 | List, get and delete never forward a body. Create and update forward the inbound body verbatim exactly when it is truthy. |
| RouteProperties.ReplyIgnoresAcknowledgedBody | server.js:123-141 | Update, delete and wipe replies do not depend on the Graph body. List, get and create replies are the Graph body. |
| RouteProperties.RefreshSurvivesUpstreamFailure | server.js:61-84 | If the token is refreshed and the Graph call then fails, the reply is 500 `{error: message}`, but the new token stays cached. |

## Left out

- Real HTTP traffic is out of scope. This covers the token POST (server.js:21-34) and the Graph requests (server.js:78). Each becomes an abstract answer (`Grant`, `UpstreamResult`). The same goes for the token endpoint URL and its form body (tenant, client id, secret, scope).
- Server bootstrap, listening and `process.exit` (server.js:394-404) are I/O plumbing.
- Environment configuration (server.js:4-11) and logging (server.js:43, 81) are side effects with no contract.
- Concurrent requests refreshing the shared cache at the same time are not modelled. The source has no locking, and calls here are strictly sequential.
- TokenManager.GetAccessToken: `expires_in` and the clock are integers. JavaScript floating point is not modelled. Neither is a response with no `expires_in`, whose `NaN` expiry would never compare as expired. A response with no `access_token` is modelled as the empty token.
- GraphClient.BuildRequest: a token response with no `access_token` caches `undefined`, and the template literal then sends `Authorization: Bearer undefined`. The model caches the empty token and sends `Bearer ` followed by nothing.
- Json.Truthy: numbers are integers, so `NaN` and `-0` are not represented.
- Routes.Handle: when no handler matches, the result is `None`. The framework's 404 reply and its automatic HEAD routes come from the web framework, not from this file. So does its 400 reply to a JSON request whose body is empty or malformed, which comes before any handler runs: the model's request body is already parsed.
- Percent-decoding of the `:id` parameter is done by the router before the handler runs. The model takes `id` as an already decoded string. The handler inserts the decoded id into the URL without re-encoding it. The HTTP client's URL resolution (`#`, `?`, `..`) is not modelled either. So distinct endpoint strings may still reach the same Graph resource, for example an id `x#a` and an id `x#b`.
- The demo clients `examples/client.js` and `examples/python_client.py` are thin wrappers over HTTP libraries. They are not part of this model.
