/** The proxy's route table: which (method, path) pairs have a handler, the
    Graph endpoint each handler calls, and the fixed shape of its reply. */
module Routes {
  import opened Wrappers
  import opened Json
  import opened TokenManager
  import opened GraphClient

  /** The collections the proxy exposes, by proxy path:
      `/users`, `/groups`, `/devices`, `/device-compliance-policies`,
      `/device-configuration-profiles`, `/mobile-apps`,
      `/conditional-access-policies`. */
  datatype Resource =
    | Users
    | Groups
    | Devices
    | CompliancePolicies
    | ConfigurationProfiles
    | MobileApps
    | ConditionalAccessPolicies

  /** The Graph path of each collection. */
  function GraphBase(res: Resource): string {
    match res
    case Users => "/users"
    case Groups => "/groups"
    case Devices => "/deviceManagement/managedDevices"
    case CompliancePolicies => "/deviceManagement/deviceCompliancePolicies"
    case ConfigurationProfiles => "/deviceManagement/deviceConfigurations"
    case MobileApps => "/deviceAppManagement/mobileApps"
    case ConditionalAccessPolicies => "/identity/conditionalAccess/policies"
  }

  /** Collections with create, update and delete routes; devices and mobile
      apps are read-only apart from the device wipe. */
  predicate Editable(res: Resource) {
    res != Devices && res != MobileApps
  }

  /** What a handler does; `id` is the `:id` path parameter. */
  datatype Op =
    | List
    | Create
    | Fetch(id: string)
    | Update(id: string)
    | Remove(id: string)
    | Wipe(id: string)

  /** A registered handler: the health check, or an operation on a collection. */
  datatype Route = Health | Api(res: Resource, op: Op)

  /** The path of an inbound request, with its path parameter already split
      off by the router: `/health`, `/<collection>`, `/<collection>/:id`,
      `/<collection>/:id/wipe`. */
  datatype ProxyPath =
    | HealthPath
    | Collection(res: Resource)
    | Item(res: Resource, id: string)
    | ItemWipe(res: Resource, id: string)

  /** An inbound request to the proxy. */
  datatype ProxyRequest = ProxyRequest(verb: Method, path: ProxyPath, body: Body)

  /** The proxy's reply: status code and JSON body. */
  datatype Reply = Reply(status: int, body: Value)

  /** The effect of one handled request: token cache afterwards, reply, the
      Graph request sent if any, and whether a token exchange took place. */
  datatype Handled = Handled(cache: TokenCache, reply: Reply, sent: Option<UpstreamRequest>, exchanged: bool)

  /** The handlers the server registers. */
  predicate Registered(route: Route) {
    match route
    case Health => true
    case Api(res, op) =>
      match op
      case List => true
      case Fetch(_) => true
      case Create => Editable(res)
      case Update(_) => Editable(res)
      case Remove(_) => Editable(res)
      case Wipe(_) => res == Devices
  }

  /** The method and path under which a handler is registered. */
  function RegisteredAt(route: Route): (Method, ProxyPath) {
    match route
    case Health => (Get, HealthPath)
    case Api(res, op) =>
      match op
      case List => (Get, Collection(res))
      case Create => (Post, Collection(res))
      case Fetch(id) => (Get, Item(res, id))
      case Update(id) => (Patch, Item(res, id))
      case Remove(id) => (Delete, Item(res, id))
      case Wipe(id) => (Post, ItemWipe(res, id))
  }

  /** The router: the handler for an inbound method and path, if one is
      registered. It finds exactly the registered handlers, each under the
      method and path it was registered with. */
  function Lookup(verb: Method, path: ProxyPath): (r: Option<Route>)
    ensures r.Some? ==> Registered(r.value) && RegisteredAt(r.value) == (verb, path)
    ensures forall route :: Registered(route) && RegisteredAt(route) == (verb, path) ==> r == Some(route)
  {
    match path
    case HealthPath => if verb == Get then Some(Health) else None
    case Collection(res) =>
      if verb == Get then Some(Api(res, List))
      else if verb == Post && Editable(res) then Some(Api(res, Create))
      else None
    case Item(res, id) =>
      if verb == Get then Some(Api(res, Fetch(id)))
      else if verb == Patch && Editable(res) then Some(Api(res, Update(id)))
      else if verb == Delete && Editable(res) then Some(Api(res, Remove(id)))
      else None
    case ItemWipe(res, id) =>
      if verb == Post && res == Devices then Some(Api(res, Wipe(id))) else None
  }

  /** The Graph method each operation uses. */
  function UpstreamMethod(op: Op): Method {
    match op
    case List => Get
    case Fetch(_) => Get
    case Create => Post
    case Wipe(_) => Post
    case Update(_) => Patch
    case Remove(_) => Delete
  }

  /** The Graph endpoint of an operation: the collection path, followed by
      `/` and the id for single-item operations, and by `/wipe` for a wipe. */
  function Endpoint(res: Resource, op: Op): (e: string)
    ensures |GraphBase(res)| <= |e| && e[..|GraphBase(res)|] == GraphBase(res)
    ensures op.List? || op.Create? <==> |e| == |GraphBase(res)|
  {
    match op
    case List => GraphBase(res)
    case Create => GraphBase(res)
    case Fetch(id) => GraphBase(res) + "/" + id
    case Update(id) => GraphBase(res) + "/" + id
    case Remove(id) => GraphBase(res) + "/" + id
    case Wipe(id) => GraphBase(res) + "/" + id + "/wipe"
  }

  /** The data argument each operation passes: the request body for create
      and update, the literal `{}` for a wipe, nothing otherwise. */
  function UpstreamData(op: Op, body: Body): (d: Body)
    ensures op.Create? || op.Update? ==> d == body
    ensures op.Wipe? ==> Truthy(d) && d == Some(EmptyObject)
    ensures op.List? || op.Fetch? || op.Remove? ==> !Truthy(d)
  {
    match op
    case Create => body
    case Update(_) => body
    case Wipe(_) => Some(EmptyObject)
    case _ => None
  }

  /** Operations whose reply is the Graph body itself; the others reply
      `{ success: true }`. */
  predicate Echoes(op: Op) {
    op.List? || op.Fetch? || op.Create?
  }

  /** Runs a registered handler. The health check answers by itself; every
      other handler makes one Graph call and replies the Graph body or the
      acknowledgement, or status 500 with the error message on any failure. */
  function Dispatch(route: Route, body: Body, cache: TokenCache, now: int, grant: Grant,
                    upstream: UpstreamResult): (r: Handled)
    requires Registered(route)
    ensures route.Health? ==> r == Handled(cache, Reply(200, HealthOk), None, false)
    ensures r.reply.status == 200 || r.reply.status == 500
    ensures r.cache == cache || r.exchanged
    ensures r.exchanged ==> route.Api? && !Valid(cache, now)
    ensures route.Api? ==> (r.exchanged <==> !Valid(cache, now))
    ensures route.Api? ==> r.cache == GetValidAccessToken(cache, now, grant).cache
    ensures route.Api? ==> (r.sent.None? <==> r.exchanged && grant.Refused?)
    ensures route.Api? ==>
      r.sent == CallGraphApi(cache, now, grant, UpstreamMethod(route.op), Endpoint(route.res, route.op),
                             UpstreamData(route.op, body), upstream).sent
    ensures r.sent.None? && route.Api? ==>
      grant.Refused? && r.cache == cache && r.reply == Reply(500, ErrorBody(grant.message))
    ensures r.sent.Some? ==>
      && route.Api?
      && r.sent.value.verb == UpstreamMethod(route.op)
      && r.sent.value.url == GraphRoot + Endpoint(route.res, route.op)
      && HeaderValue(r.sent.value.headers, "Authorization") == Some(BearerPrefix + r.cache.accessToken)
    ensures r.sent.Some? && upstream.Failed? ==> r.reply == Reply(500, ErrorBody(upstream.message))
    ensures r.sent.Some? && upstream.Responded? ==>
      r.reply == Reply(200, if Echoes(route.op) then upstream.data else Ack)
  {
    match route
    case Health => Handled(cache, Reply(200, HealthOk), None, false)
    case Api(res, op) =>
      var g := CallGraphApi(cache, now, grant, UpstreamMethod(op), Endpoint(res, op),
                            UpstreamData(op, body), upstream);
      var reply := match g.result
                   case Success(v) => Reply(200, if Echoes(op) then v else Ack)
                   case Failure(m) => Reply(500, ErrorBody(m));
      Handled(g.cache, reply, g.sent, g.exchanged)
  }

  /** The whole server for one request: route it, run the handler. `None`
      means no handler is registered for the method and path. */
  function Handle(request: ProxyRequest, cache: TokenCache, now: int, grant: Grant,
                  upstream: UpstreamResult): (r: Option<Handled>)
    ensures r.None? <==> forall route :: Registered(route) ==> RegisteredAt(route) != (request.verb, request.path)
    ensures r.Some? ==>
      exists route ::
        && Registered(route)
        && RegisteredAt(route) == (request.verb, request.path)
        && r.value == Dispatch(route, request.body, cache, now, grant, upstream)
  {
    match Lookup(request.verb, request.path)
    case None => None
    case Some(route) => Some(Dispatch(route, request.body, cache, now, grant, upstream))
  }
}
