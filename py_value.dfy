/** Python values as `json.loads` produces them, and the two Python idioms every
    stage applies to them: truthiness (`if not x:`) and `dict.get(key, default)`. */
module PyValue {

  datatype Option<+T> = None | Some(value: T)

  /** A decoded JSON value. `Null` is Python's `None`; numbers are integers
      (floating point is not modelled). An object is a Python dict. */
  datatype Json =
    | Null
    | Bool(b: bool)
    | Num(n: int)
    | Str(s: string)
    | Arr(items: seq<Json>)
    | Obj(fields: map<string, Json>)

  /** Python truthiness: `None`, `False`, `0`, `""`, `[]` and `{}` are false. */
  predicate Truthy(v: Json) {
    match v
    case Null => false
    case Bool(b) => b
    case Num(n) => n != 0
    case Str(s) => s != ""
    case Arr(items) => items != []
    case Obj(fields) => fields != map[]
  }

  /** `d.get(key, default)` on a dict. */
  function Get(d: Json, key: string, default: Json): Json
    requires d.Obj?
  {
    if key in d.fields then d.fields[key] else default
  }

  /** The inputs a stage may call `.get` on: Python raises `AttributeError`
      for any other truthy value. */
  predicate DictOrFalsy(v: Json) {
    !Truthy(v) || v.Obj?
  }
}
