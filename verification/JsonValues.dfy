/** JSON values as the daemon and the bridges hold them in memory: an object is a
    finite map from field names to values. */
module JsonValues {
  import opened Common

  datatype Json =
    | Null
    | Bool(b: bool)
    | Int(n: int)
    | Float(text: string)
    | Str(s: string)
    | Arr(items: seq<Json>)
    | Obj(fields: map<string, Json>)

  /** `value.get(field)`: a field of an object, nothing for any other value. */
  function Get(v: Json, field: string): Option<Json> {
    if v.Obj? && field in v.fields then Some(v.fields[field]) else None
  }

  /** `value.get(field).and_then(as_str)` */
  function GetStr(v: Json, field: string): Option<string> {
    match Get(v, field)
    case Some(Str(s)) => Some(s)
    case _ => None
  }

  /** An optional field as serde reads it: absent and null are the same. */
  function GetNonNull(v: Json, field: string): Option<Json> {
    match Get(v, field)
    case Some(Null) => None
    case other => other
  }

  function GetOr(v: Json, field: string, default: Json): Json {
    match Get(v, field)
    case Some(x) => x
    case None => default
  }
}
