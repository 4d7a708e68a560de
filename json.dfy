/** The part of serde_json's `Value` that the scraper navigates: a JSON tree, and the
    indexing operators `v["key"]` and `v[i]`, which never fail but give `Null` when the
    key or index is missing or the value has the wrong shape, and `as_str`. */
module Json {
  import opened Wrappers

  /** A JSON value. Numbers are integers here: floating point is not modelled. */
  datatype Value =
    | Null
    | Bool(b: bool)
    | Number(n: int)
    | Str(s: string)
    | Array(items: seq<Value>)
    | Object(fields: map<string, Value>)

  /** `v[key]`: the member `key` of an object, or `Null`. */
  function Get(v: Value, key: string): Value {
    if v.Object? && key in v.fields then v.fields[key] else Null
  }

  /** `v[i]`: the `i`-th element of an array, or `Null`. */
  function At(v: Value, i: nat): Value {
    if v.Array? && i < |v.items| then v.items[i] else Null
  }

  /** `v.as_str()`: the text of a string value, `None` for every other value. */
  function AsStr(v: Value): Option<string> {
    if v.Str? then Some(v.s) else None
  }
}
