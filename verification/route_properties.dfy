/** Properties of the route table as a whole: the mapping from handlers to
    Graph requests is one-to-one, ids land as trailing path segments, and the
    body and reply rules hold for every handler. */
module RouteProperties {
  import opened Wrappers
  import opened Json
  import opened TokenManager
  import opened GraphClient
  import opened Routes

  /** A position inside both Graph paths of two different collections at
      which they disagree; so neither path, with or without a trailing `/`
      and id, extends the other. */
  function Discriminant(a: Resource, b: Resource): (k: nat)
    requires a != b
    ensures k < |GraphBase(a)| && k < |GraphBase(b)| && GraphBase(a)[k] != GraphBase(b)[k]
  {
    // Users, groups and conditional-access policies stand apart at index 1,
    // mobile apps at index 7, managed devices at 18, the two policy kinds at 26.
    match a
    case Users => 1
    case Groups => 1
    case ConditionalAccessPolicies => 1
    case MobileApps => if IsDevicePath(b) then 7 else 1
    case Devices =>
      if !IsDevicePath(b) then 1 else if b == MobileApps then 7 else 18
    case CompliancePolicies =>
      if !IsDevicePath(b) then 1 else if b == MobileApps then 7 else if b == Devices then 18 else 26
    case ConfigurationProfiles =>
      if !IsDevicePath(b) then 1 else if b == MobileApps then 7 else if b == Devices then 18 else 26
  }

  /** The collections whose Graph path starts with `/device`. */
  predicate IsDevicePath(res: Resource) {
    res == Devices || res == CompliancePolicies || res == ConfigurationProfiles || res == MobileApps
  }

  /** The id of a single-item operation, if it has one. */
  function IdOf(op: Op): Option<string> {
    match op
    case List => None
    case Create => None
    case Fetch(id) => Some(id)
    case Update(id) => Some(id)
    case Remove(id) => Some(id)
    case Wipe(id) => Some(id)
  }

  /** The endpoint is the collection path, then for single-item operations a
      `/` and the id, then for a wipe `/wipe`; nothing else. */
  lemma EndpointLayout(res: Resource, op: Op)
    ensures var e, n := Endpoint(res, op), |GraphBase(res)|;
      match IdOf(op)
      case None => e == GraphBase(res)
      case Some(id) =>
        && |e| == n + 1 + |id| + (if op.Wipe? then 5 else 0)
        && e[n] == '/'
        && e[n + 1..n + 1 + |id|] == id
        && (op.Wipe? ==> e[n + 1 + |id|..] == "/wipe")
  {
    var e, n := Endpoint(res, op), |GraphBase(res)|;
    match IdOf(op)
    case None =>
    case Some(id) =>
      assert e[n + 1..n + 1 + |id|] == id;
      if op.Wipe? {
        assert e[n + 1 + |id|..] == "/wipe";
      }
  }

  /** No two registered handlers produce the same Graph method and endpoint
      string: equal method and endpoint strings mean the same collection, the
      same operation and the same id, whatever characters the ids contain. */
  lemma {:induction false} EndpointsDistinct(a: Resource, p: Op, b: Resource, q: Op)
    requires Registered(Api(a, p)) && Registered(Api(b, q))
    requires UpstreamMethod(p) == UpstreamMethod(q)
    requires Endpoint(a, p) == Endpoint(b, q)
    ensures a == b && p == q
  {
    if a != b {
      var k := Discriminant(a, b);
      assert false;
    }
    EndpointLayout(a, p);
    EndpointLayout(b, q);
    match IdOf(p)
    case None =>
      assert IdOf(q).None?;
    case Some(i) =>
      var j := IdOf(q).value;
      assert |i| == |j|;
  }

  /** The `:id` parameter is the trailing segment of every single-item
      endpoint (before `/wipe` for a wipe), after the collection path. */
  lemma IdIsTrailingSegment(res: Resource, op: Op)
    requires IdOf(op).Some?
    ensures var e, id := Endpoint(res, op), IdOf(op).value;
      var tail := if op.Wipe? then "/" + id + "/wipe" else "/" + id;
      |tail| <= |e| && e[..|e| - |tail|] == GraphBase(res) && e[|e| - |tail|..] == tail
  {
  }

  /** A wipe always sends the body `{}`, whatever the inbound body was,
      because an empty object is truthy. */
  lemma WipeSendsEmptyObject(id: string, body: Body, cache: TokenCache, now: int, grant: Grant,
                             upstream: UpstreamResult)
    ensures var r := Dispatch(Api(Devices, Wipe(id)), body, cache, now, grant, upstream);
      r.sent.Some? ==> r.sent.value.data == Some(EmptyObject)
  {
  }

  /** Listing, fetching and deleting never forward a body; creating and
      updating forward the inbound body verbatim exactly when it is truthy. */
  lemma BodyForwardingRule(route: Route, body: Body, cache: TokenCache, now: int, grant: Grant,
                           upstream: UpstreamResult)
    requires Registered(route) && route.Api?
    ensures var r := Dispatch(route, body, cache, now, grant, upstream);
      r.sent.Some? ==>
        && (route.op.List? || route.op.Fetch? || route.op.Remove? ==> r.sent.value.data == None)
        && (route.op.Create? || route.op.Update? ==>
              r.sent.value.data == (if Truthy(body) then body else None))
  {
  }

  /** Update, delete and wipe reply `{ success: true }` whatever the Graph
      body was; list, fetch and create reply the Graph body itself. */
  lemma ReplyIgnoresAcknowledgedBody(route: Route, body: Body, cache: TokenCache, now: int,
                                     grant: Grant, v1: Value, v2: Value)
    requires Registered(route) && route.Api?
    ensures var r1 := Dispatch(route, body, cache, now, grant, Responded(v1));
      var r2 := Dispatch(route, body, cache, now, grant, Responded(v2));
      (!Echoes(route.op) ==> r1 == r2) &&
      (Echoes(route.op) && r1.sent.Some? ==> r1.reply.body == v1 && r2.reply.body == v2)
  {
  }

  /** A failing Graph call after a successful refresh still replies 500, yet
      the refreshed token stays cached for the next request. */
  lemma RefreshSurvivesUpstreamFailure(route: Route, body: Body, cache: TokenCache, now: int,
                                       grant: Grant, message: string)
    requires Registered(route) && route.Api?
    requires !Valid(cache, now) && grant.Granted?
    ensures var r := Dispatch(route, body, cache, now, grant, Failed(message));
      && r.reply == Reply(500, ErrorBody(message))
      && r.cache.accessToken == grant.accessToken
      && r.exchanged
  {
  }
}
