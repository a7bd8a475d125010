/** Parsed JSON values and the comparisons Python makes between them. */
module Json {
  import opened Prelude

  type Fields = map<string, Value>

  datatype Value =
    | Null
    | Bool(b: bool)
    | Int(n: int)
    | Float(x: real)
    /** A numeral too large for a float. */
    | Infinite(positive: bool)
    | Str(s: string)
    | List(items: seq<Value>)
    | Dict(fields: Fields)

  /** `value.get(key)`: a missing key reads as null. */
  function Get(fields: Fields, key: string): Value {
    if key in fields then fields[key] else Null
  }

  /** The finite number a value compares as; booleans are 0 and 1. */
  function Number(v: Value): Option<real> {
    match v
    case Bool(b) => Some(if b then 1.0 else 0.0)
    case Int(n) => Some(n as real)
    case Float(x) => Some(x)
    case _ => None
  }

  predicate Numeric(v: Value) { Number(v).Some? || v.Infinite? }

  /** `a >= b` between numbers. */
  predicate AtLeast(a: Value, b: Value)
    requires Numeric(a) && Numeric(b)
  {
    a == Infinite(true) || b == Infinite(false)
    || (Number(a).Some? && Number(b).Some? && Number(a).value >= Number(b).value)
  }

  /** `a == b` between parsed JSON values: numbers compare across types, containers element by element. */
  predicate Equal(a: Value, b: Value)
    decreases a
  {
    match (a, b)
    case (Null, Null) => true
    case (Str(s), Str(t)) => s == t
    case (Infinite(p), Infinite(q)) => p == q
    case (List(xs), List(ys)) => |xs| == |ys| && forall i | 0 <= i < |xs| :: Equal(xs[i], ys[i])
    case (Dict(m), Dict(k)) => m.Keys == k.Keys && forall f | f in m :: Equal(m[f], k[f])
    case _ => Number(a).Some? && Number(a) == Number(b)
  }

  predicate EqualsInt(v: Value, n: int) { Number(v) == Some(n as real) }
}
