/**
 * A decoded JSON document, as `encoding/json` produces it for an
 * `interface{}` field: nil, bool, float64, string, []interface{} or
 * map[string]interface{}. `encoding/json` decodes a number to a float64;
 * here a number is only its literal text, which does not matter because no
 * operation of the model inspects numbers and marshalling is a parameter.
 */
module Json {
  import opened Wrappers

  datatype Value =
    | Null
    | Bool(b: bool)
    | Number(literal: string)
    | String(text: string)
    | Array(items: seq<Value>)
    | Object(members: map<string, Value>)

  /** The value reached from `v` by following the object keys of `path`, if every step finds an object holding the key. */
  function Lookup(v: Value, path: seq<string>): Option<Value>
    decreases |path|
  {
    if path == [] then Some(v)
    else match v
      case Object(members) =>
        if path[0] in members then Lookup(members[path[0]], path[1..]) else None
      case _ => None
  }

  /** The string at `path`, or "" when nothing is there or it is not a string. */
  function StringAt(v: Value, path: seq<string>): string
  {
    match Lookup(v, path)
    case Some(String(s)) => s
    case _ => ""
  }
}
