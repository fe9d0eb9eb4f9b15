/** The JSON scalars (null, booleans, integers, strings) that reach the orchestrator's decisions. */
module PyValue {
  import opened Text

  datatype Value = Null | Bool(b: bool) | Int(i: int) | Str(s: string)

  /** Python truthiness: `None`, `False`, `0` and `""` are falsy. */
  predicate IsTruthy(v: Value) {
    match v
    case Null => false
    case Bool(b) => b
    case Int(i) => i != 0
    case Str(s) => s != ""
  }

  /** Python's `str(v)`. */
  function ToStr(v: Value): (r: string)
    ensures v.Str? ==> r == v.s
    ensures v.Int? ==> r == IntToString(v.i)
    ensures !v.Str? ==> r != ""
  {
    match v
    case Null => "None"
    case Bool(b) => if b then "True" else "False"
    case Int(i) => IntToString(i)
    case Str(s) => s
  }
}
