/** Decoded JSON values as the handler sees them after `response.json()`,
    with the Python semantics of the few operations the handler applies. */
module PyJson {
  import opened Wrappers

  /** A JSON document decoded into Python objects (None, bool, float, str, list, dict). */
  datatype Json =
    | JNull
    | JBool(b: bool)
    | JNum(n: real)
    | JStr(s: string)
    | JArr(items: seq<Json>)
    | JObj(fields: map<string, Json>)

  /** Python truthiness, `bool(v)`: None, False, zero and empty containers are false. */
  predicate Truthy(v: Json) {
    match v
    case JNull => false
    case JBool(b) => b
    case JNum(n) => n != 0.0
    case JStr(s) => s != ""
    case JArr(items) => |items| > 0
    case JObj(fields) => |fields| > 0
  }

  /** The exceptions that can reach the handler's `except` clauses. */
  datatype Exc =
    | HttpStatusError(status: int)  // httpx.HTTPStatusError raised by raise_for_status
    | RequestError                  // httpx.RequestError: connection, timeout or transport failure
    | DecodeError                   // response.json() on a body that is not JSON (a ValueError)
    | KeyError(key: string)         // `d[key]` on a dict without that key
    | TypeError                     // `v[key]` on a value that is not a dict
    | AttributeError                // `v.get(...)` on a value that is not a dict

  /** `v.get(key, default)`: only a dict has a `get` method. */
  function Get(v: Json, key: string, default: Json): Result<Json, Exc> {
    match v
    case JObj(fields) => Success(if key in fields then fields[key] else default)
    case _ => Failure(AttributeError)
  }

  /** `v[key]` with a string key: a dict looks the key up, every other value refuses. */
  function Subscript(v: Json, key: string): Result<Json, Exc> {
    match v
    case JObj(fields) => if key in fields then Success(fields[key]) else Failure(KeyError(key))
    case _ => Failure(TypeError)
  }
}
