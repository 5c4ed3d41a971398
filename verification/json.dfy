/** JSON bodies as the proxy receives and relays them, and the JavaScript
    truthiness test the forwarder applies to a body. */
module Json {
  import opened Wrappers

  /** A JSON value. Numbers are integers in this model. */
  datatype Value =
    | Null
    | Bool(b: bool)
    | Number(n: int)
    | Str(s: string)
    | Array(items: seq<Value>)
    | Object(members: seq<(string, Value)>)

  /** A request body as a handler sees it: `None` is JavaScript `undefined`
      (no body) or the `null` default of an omitted argument. */
  type Body = Option<Value>

  /** JavaScript's ToBoolean on a body: `undefined`, `null`, `false`, `0` and
      the empty string are falsy; every array and object, even an empty one,
      is truthy. */
  predicate Truthy(body: Body)
    ensures Truthy(body) <==>
      body.Some? && body.value != Null && body.value != Bool(false)
      && body.value != Number(0) && body.value != Str("")
  {
    match body
    case None => false
    case Some(v) =>
      match v
      case Null => false
      case Bool(b) => b
      case Number(n) => n != 0
      case Str(s) => s != ""
      case Array(_) => true
      case Object(_) => true
  }

  /** The literal `{}`. */
  const EmptyObject: Value := Object([])

  /** `{ success: true }`, the acknowledgement of update, delete and wipe. */
  const Ack: Value := Object([("success", Bool(true))])

  /** `{ status: 'ok' }`, the health-check reply. */
  const HealthOk: Value := Object([("status", Str("ok"))])

  /** `{ error: message }`, the body of every failure reply. */
  function ErrorBody(message: string): Value {
    Object([("error", Str(message))])
  }
}
