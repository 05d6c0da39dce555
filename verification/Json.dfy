/** JSON values as trees (section 4 of RFC 8259 for objects); bytes are not modelled. */
module Json {
  import opened Wrappers

  datatype Json =
    | Null
    | Bool(b: bool)
    | Number(n: real)
    | Str(s: string)
    | Arr(items: seq<Json>)
    | Obj(fields: map<string, Json>)

  type Path = seq<string>

  /** The subtree found by following object members along a path. */
  function At(j: Json, path: Path): Option<Json> {
    if path == [] then Some(j)
    else if j.Obj? && path[0] in j.fields then At(j.fields[path[0]], path[1..])
    else None
  }
}
