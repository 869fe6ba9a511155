/** JavaScript values as the client receives them from JSON responses, and the
    few language rules the client code relies on: truthiness, property access,
    strict equality and object spread. */
module Js {

  datatype Option<+T> = None | Some(value: T)

  datatype Result<+T, +E> = Success(value: T) | Failure(error: E)

  /** A decoded JSON value (plus `undefined`). Numbers are integers here. */
  datatype Value =
    | Undefined
    | Null
    | Bool(b: bool)
    | Num(n: int)
    | Str(s: string)
    | Arr(items: seq<Value>)
    | Obj(props: map<string, Value>)

  /** The own enumerable properties of a plain object. */
  type Object = map<string, Value>

  /** JavaScript's `!!v`. */
  predicate Truthy(v: Value) {
    match v
    case Undefined => false
    case Null => false
    case Bool(b) => b
    case Num(n) => n != 0
    case Str(s) => s != ""
    case Arr(_) => true
    case Obj(_) => true
  }

  /** `v && typeof v === 'string'`. */
  predicate IsTruthyString(v: Value) {
    v.Str? && Truthy(v)
  }

  /** `o.key` on a plain object: `undefined` for a missing property. */
  function Get(o: Object, key: string): (r: Value)
    ensures key !in o ==> r == Undefined
    ensures key in o ==> r == o[key]
  {
    if key in o then o[key] else Undefined
  }

  /** `v.key` on any value: only objects carry the properties the client reads. */
  function Prop(v: Value, key: string): (r: Value)
    ensures !v.Obj? ==> r == Undefined
  {
    if v.Obj? then Get(v.props, key) else Undefined
  }

  /** `a === b`: primitives compare by value; two objects or arrays are
      identical only by reference, which this model does not have. */
  predicate StrictEquals(a: Value, b: Value) {
    !a.Obj? && !a.Arr? && a == b
  }

  /** `{ ...a, ...b }`: every property of `b`, and those of `a` that `b` lacks. */
  function Spread(a: Object, b: Object): (r: Object)
    ensures r.Keys == a.Keys + b.Keys
    ensures forall k :: k in b ==> r[k] == b[k]
    ensures forall k :: k in a && k !in b ==> r[k] == a[k]
  {
    a + b
  }

  /** The properties `{ ...v }` copies from an object; other values add none. */
  function OwnProps(v: Value): (r: Object)
    ensures v.Obj? ==> r == v.props
    ensures !v.Obj? ==> r == map[]
  {
    if v.Obj? then v.props else map[]
  }

  /** `(v || d)` for a counter field holding a number or nothing. */
  function CountOr(v: Value, d: int): (r: int)
    ensures Truthy(v) && v.Num? ==> r == v.n
    ensures !Truthy(v) ==> r == d
  {
    if v.Num? && v.n != 0 then v.n else d
  }
}
