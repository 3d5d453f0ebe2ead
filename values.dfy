/**
 * The Python objects that flow through a stream when the code inspects the items
 * themselves: `filter(None, ...)` asks for their truthiness, the async filter asks
 * whether they are `None`.
 */
module Values {

  datatype Value =
    | NoneValue
    | Bool(b: bool)
    | Int(i: int)
    | Str(s: string)
    | List(items: seq<Value>)

  /** Python's `bool(v)`: `None`, `False`, `0`, `""` and `[]` are falsy. */
  predicate Truthy(v: Value) {
    match v
    case NoneValue => false
    case Bool(b) => b
    case Int(i) => i != 0
    case Str(s) => |s| > 0
    case List(items) => |items| > 0
  }

  /** `v is not None`. */
  predicate IsNotNone(v: Value) {
    !v.NoneValue?
  }
}
