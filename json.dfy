/** Values as a request handler sees them: parsed JSON bodies, product records,
    and JavaScript's `undefined` for a property that is not there. */
module Json {

  datatype Option<+T> = None | Some(value: T)

  /** A JavaScript value as it can occur in a request body or a product record.
      Numbers are integers here: fractional numbers and NaN are not modelled. */
  datatype Value =
    | Undefined
    | Null
    | Bool(b: bool)
    | Num(n: int)
    | Str(s: string)
    | Arr(items: seq<Value>)
    | Obj(fields: map<string, Value>)

  /** A plain object (a product record, a parsed request body): an open set of keys. */
  type Record = map<string, Value>

  /** JavaScript's ToBoolean: `!v` is true exactly when `v` is not truthy. */
  predicate Truthy(v: Value) {
    match v
    case Undefined => false
    case Null => false
    case Bool(b) => b
    case Num(n) => n != 0
    case Str(s) => s != ""
    case Arr(_) => true
    case Obj(_) => true
  }

  /** The property read `r.k` (or a destructuring of `k` out of `r`): a key that is
      absent reads as `undefined`. */
  function Property(r: Record, k: string): Value {
    if k in r then r[k] else Undefined
  }
}
