/** The values JSON.parse can produce, and JavaScript's optional property
    read `v?.k` on them. */
module Json {
  import opened Wrappers

  datatype Json =
    | JNull
    | JBool(b: bool)
    | JNum(n: real)
    | JStr(str: string)
    | JArr(items: seq<Json>)
    | JObj(fields: map<string, Json>)

  /** `v?.k` for a key that is neither an index numeral nor a built-in
      property name such as "length" (the model reads only group names and
      "mqtt"): only an object that has the key as its own property yields a
      value. An absent `v` (undefined), null, and values of every other kind
      yield undefined. */
  function Member(v: Option<Json>, k: string): (r: Option<Json>)
    ensures r.Some? <==> (v.Some? && v.value.JObj? && k in v.value.fields)
    ensures r.Some? ==> r.value == v.value.fields[k]
  {
    match v
    case Some(JObj(m)) => if k in m then Some(m[k]) else None
    case _ => None
  }
}
