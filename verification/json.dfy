/** JSON values, as `JSON.parse` produces them and `JSON.stringify` consumes them. */
module Json {
  import opened Wrappers

  /** A JSON value. Numbers are reals: JSON has no NaN or infinities. */
  datatype Value =
    | JNull
    | JBool(b: bool)
    | JNumber(n: real)
    | JString(s: string)
    | JArray(items: seq<Value>)
    | JObject(members: seq<(string, Value)>)

  /** `v[key]` for an object: the value of the first member named `key`, `None` for `undefined`. */
  function Member(v: Value, key: string): Option<Value> {
    if v.JObject? then Find(v.members, key) else None
  }

  function Find(members: seq<(string, Value)>, key: string): Option<Value> {
    if members == [] then None
    else if members[0].0 == key then Some(members[0].1)
    else Find(members[1..], key)
  }

  /** JavaScript truthiness, the test `a || b` applies to `a`. */
  predicate Truthy(v: Value) {
    match v
    case JNull => false
    case JBool(b) => b
    case JNumber(n) => n != 0.0
    case JString(s) => s != ""
    case JArray(_) => true
    case JObject(_) => true
  }
}
