/** JavaScript values as the plugin handles them: message fields, secret values,
    replies and error descriptors. */
module Js {

  datatype Option<+T> = None | Some(value: T)

  /** A JavaScript value. Numbers are integers here (milliseconds, counts). */
  datatype Json =
    | Undefined
    | Null
    | Bool(b: bool)
    | Num(n: int)
    | Str(s: string)
    | Arr(items: seq<Json>)
    | Obj(fields: map<string, Json>)

  /** JavaScript truthiness: what `if (v)` and `v || w` test. */
  predicate Truthy(v: Json) {
    match v
    case Undefined => false
    case Null => false
    case Bool(b) => b
    case Num(n) => n != 0
    case Str(s) => s != ""
    case Arr(_) => true
    case Obj(_) => true
  }

  /** Property access `v[key]`: undefined when `v` is not an object or lacks the key. */
  function Field(v: Json, key: string): Json {
    if v.Obj? && key in v.fields then v.fields[key] else Undefined
  }
}
