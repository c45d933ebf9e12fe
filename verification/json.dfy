/** JSON values with the lookup semantics of `serde_json::Value`. */
module Json {
  import opened Outcomes

  /** `serde_json::Value`. Numbers are kept as integers: no operation of the
      model inspects a number. */
  datatype Value =
    | Null
    | Bool(b: bool)
    | Number(n: int)
    | String(s: string)
    | Array(items: seq<Value>)
    | Object(fields: map<string, Value>)

  /** `value[key]` for a string key: the member of an object, and `Null` for a
      missing key or for a value that is not an object. */
  function Index(v: Value, key: string): (r: Value)
    ensures v.Object? && key in v.fields ==> r == v.fields[key]
    ensures !(v.Object? && key in v.fields) ==> r == Null
  {
    if v.Object? && key in v.fields then v.fields[key] else Null
  }

  /** `value.as_str()`. */
  function AsStr(v: Value): (r: Option<string>)
    ensures r.Some? <==> v.String?
    ensures r.Some? ==> v == String(r.value)
  {
    if v.String? then Some(v.s) else None
  }

  /** A member is present under `key` and is the string `s`. Stated on the
      object's fields directly, independently of `Index` and `AsStr`. */
  ghost predicate HasString(v: Value, key: string, s: string)
  {
    v.Object? && key in v.fields && v.fields[key] == String(s)
  }
}
