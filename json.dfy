/**
 * JSON values as the Python `json` module produces them after parsing.
 * Objects are dictionaries; their key order is not modelled.
 */
module Json {
  import opened Wrappers

  datatype Value =
    | Null
    | Bool(b: bool)
    | Num(n: int)
    | Str(s: string)
    | Arr(items: seq<Value>)
    | Obj(fields: map<string, Value>)

  /** Python's `dict.get(key)`: `None` when the key is absent. */
  function Get(fields: map<string, Value>, key: string): (r: Option<Value>)
    ensures r.Some? <==> key in fields
    ensures r.Some? ==> r.value == fields[key]
  {
    if key in fields then Some(fields[key]) else None
  }
}
