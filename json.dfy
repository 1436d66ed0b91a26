/** Parsed JSON documents, as the dashboard receives them from `json.load`,
    and the two Python dictionary operations the extractor relies on:
    `dict.get(key, default)` and truthiness (`if x:`). */
module Json {

  /** A JSON value. Numbers are only passed through by the extractor, so a
      `real` is enough to carry them. Objects are Python dicts: only key
      lookup is used, never their iteration order. */
  datatype Value =
    | Null
    | Bool(b: bool)
    | Num(r: real)
    | Str(s: string)
    | Arr(items: seq<Value>)
    | Obj(fields: map<string, Value>)

  /** Python truthiness of a JSON value: None, False, 0, "", [] and {} are falsy. */
  predicate Truthy(v: Value)
  {
    match v
    case Null => false
    case Bool(b) => b
    case Num(r) => r != 0.0
    case Str(s) => s != ""
    case Arr(items) => items != []
    case Obj(fields) => fields != map[]
  }

  /** `obj.get(key, default)` on a dict. */
  function Get(obj: Value, key: string, default: Value): Value
    requires obj.Obj?
  {
    if key in obj.fields then obj.fields[key] else default
  }

  /** True when `obj.get(key, [])` is a list: the key is absent or holds an array. */
  predicate OptArray(obj: Value, key: string)
    requires obj.Obj?
  {
    key in obj.fields ==> obj.fields[key].Arr?
  }

  /** The elements of `obj.get(key, [])`. */
  function Items(obj: Value, key: string): seq<Value>
    requires obj.Obj? && OptArray(obj, key)
  {
    Get(obj, key, Arr([])).items
  }
}
