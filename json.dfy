/** The values `JSON.parse` produces, and the JavaScript truthiness and property
    access the client applies to them. */
module Json {
  import opened Wrappers

  /** A parsed JSON value. `JSON.parse` keeps the last of duplicate keys, so an
      object is a map from key to value. */
  datatype Json =
    | Null
    | Bool(b: bool)
    | Num(n: real)
    | Str(s: string)
    | Arr(items: seq<Json>)
    | Obj(fields: map<string, Json>)

  /** JavaScript truthiness: `null`, `false`, `0` and `""` are falsy, every array
      and every object (even empty) is truthy. */
  predicate Truthy(j: Json) {
    match j
    case Null => false
    case Bool(b) => b
    case Num(n) => n != 0.0
    case Str(s) => s != ""
    case Arr(_) => true
    case Obj(_) => true
  }

  /** Property access `j.key` on a value that is not `null`; `None` is `undefined`.
      Strings, numbers, booleans and arrays have none of the keys the client reads. */
  function Field(j: Json, key: string): Option<Json> {
    if j.Obj? && key in j.fields then Some(j.fields[key]) else None
  }
}
