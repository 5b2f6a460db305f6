/** JSON-shaped values as the resource metadata dictionary holds them,
    with Python's truthiness and `dict.get`. */
module Values {

  /** A JSON-compatible value: what a metadata field, a schema or a remote
      reply can hold (floating-point numbers are not modelled). */
  datatype Value =
    | Null
    | Bool(b: bool)
    | Int(i: int)
    | Str(s: string)
    | Arr(items: seq<Value>)
    | Obj(fields: map<string, Value>)

  /** One parsed CSV row: column name to cell text. */
  type Row = map<string, string>

  /** Python's `bool(v)`: None, False, 0, "", [] and {} are false. */
  predicate Truthy(v: Value)
  {
    match v
    case Null => false
    case Bool(b) => b
    case Int(i) => i != 0
    case Str(s) => s != ""
    case Arr(items) => items != []
    case Obj(fields) => fields != map[]
  }

  /** Python's `d.get(key, None)`: the stored value, or None when the key is absent. */
  function Get(d: map<string, Value>, key: string): Value
  {
    if key in d then d[key] else Null
  }
}
