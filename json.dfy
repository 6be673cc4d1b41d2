/**
 * The values that Python's json module produces when it loads the data files
 * (floating-point numbers are not modelled), with Python's notion of truthiness
 * and the `dict.get(key, default)` lookup the recording code relies on.
 */
module Json {
  datatype Value =
    | Null
    | Bool(b: bool)
    | Int(i: int)
    | Str(s: string)
    | Arr(items: seq<Value>)
    | Obj(fields: map<string, Value>)

  /** A JSON object as a Python dict. */
  type Dict = map<string, Value>

  /** `bool(v)` in Python: None, False, 0, "", [] and {} are false. */
  predicate Truthy(v: Value) {
    match v
    case Null => false
    case Bool(b) => b
    case Int(i) => i != 0
    case Str(s) => s != ""
    case Arr(items) => items != []
    case Obj(fields) => fields != map[]
  }

  /** `d.get(key, default)`. */
  function Get(d: Dict, key: string, default: Value): Value {
    if key in d then d[key] else default
  }
}
