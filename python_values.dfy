/**
 * Python values as they arrive from JSON columns (`metadata`, `writes`), with the
 * two dynamic operations the decoder relies on: truthiness and `dict.get`.
 */
module PyValues {
  import opened Wrappers

  /** A JSON-shaped Python value. Numbers are integers only. */
  datatype Value =
    | Null                      // None
    | Bool(b: bool)
    | Num(n: int)
    | Str(s: string)
    | Arr(items: seq<Value>)    // list
    | Obj(fields: map<string, Value>)  // dict

  /** Python exceptions the decoder can raise. */
  datatype PyError =
    | AttributeError   // `.get` called on something that is not a dict
    | ValidationError  // pydantic rejected a field of the constructed model

  const EmptyDict: Value := Obj(map[])

  /** Python truthiness: `bool(v)`. */
  predicate Truthy(v: Value) {
    match v
    case Null => false
    case Bool(b) => b
    case Num(n) => n != 0
    case Str(s) => s != []
    case Arr(items) => items != []
    case Obj(fields) => fields != map[]
  }

  /** `d.get(key, default)` on a value known to be a dict. */
  function Lookup(d: map<string, Value>, key: string, default: Value): Value {
    if key in d then d[key] else default
  }

  /** `obj.get(key, default)`: only a dict has `get`. */
  function Get(obj: Value, key: string, default: Value): (r: Result<Value, PyError>)
    ensures r.Ok? <==> obj.Obj?
    ensures r.Ok? ==> r.value == Lookup(obj.fields, key, default)
  {
    match obj
    case Obj(fields) => Ok(Lookup(fields, key, default))
    case _ => Err(AttributeError)
  }

  /** `next(iter(items), default)`: the first element of a list, or the default. */
  function FirstOr(items: seq<Value>, default: Value): Value {
    if items == [] then default else items[0]
  }

  /** `a or b`. */
  function Or(a: Value, b: Value): (r: Value)
    ensures Truthy(a) ==> r == a
    ensures !Truthy(a) ==> r == b
  {
    if Truthy(a) then a else b
  }
}
