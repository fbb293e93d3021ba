/** Values that cross the boundary between the language model, the
    dispatcher and the remote store, with JavaScript's truthiness rules
    written out. */
module Values {

  datatype Option<+T> = None | Some(value: T) {

    /** Returns the value in `Some`, or `default` when `None`. */
    function GetOr(default: T): T {
      match this
      case Some(v) => v
      case None => default
    }
  }

  /** A scalar or opaque value as it appears in a parsed argument object.
      Objects and arrays are kept opaque: the dispatcher only forwards them. */
  datatype Value = Null | Bool(b: bool) | Num(n: int) | Str(s: string) | Composite

  /** JavaScript truthiness, `!!v`. */
  predicate Truthy(v: Value) {
    match v
    case Null => false
    case Bool(b) => b
    case Num(n) => n != 0
    case Str(s) => s != ""
    case Composite => true
  }

  /** `v || fallback`, where `None` stands for `undefined`. */
  function OrElse(v: Option<Value>, fallback: Value): Value {
    if v.Some? && Truthy(v.value) then v.value else fallback
  }

  /** What a `throw` or a rejected promise carries: an `Error` instance with
      its message, or some other value. */
  datatype Thrown = ErrorWith(message: string) | OtherValue

  /** `error instanceof Error ? error.message : fallback` */
  function MessageOr(t: Thrown, fallback: string): string {
    match t
    case ErrorWith(m) => m
    case OtherValue => fallback
  }

  /** A boolean, number or string: the values whose `typeof` is not
      `'object'`. */
  type Primitive = v: Value | !v.Null? && !v.Composite? witness Bool(false)

  /** The `args` of a model-proposed call: `undefined` or `null`, a primitive,
      or an object with named fields (an absent key reads as `undefined`).
      An array is an object whose only keys are its indices, none of which
      the dispatcher reads. */
  datatype Args = Missing(isNull: bool) | Scalar(v: Primitive) | Fields(m: map<string, Value>)

  /** Reads `params.key`; `None` is `undefined`. Reading from a primitive
      yields `undefined` for every key the dispatcher uses. */
  function Lookup(a: Args, key: string): Option<Value> {
    if a.Fields? && key in a.m then Some(a.m[key]) else None
  }

  /** `!!params.key` */
  predicate Given(a: Args, key: string) {
    Lookup(a, key).Some? && Truthy(Lookup(a, key).value)
  }

  /** `!!params`: false for `undefined` and `null` and for falsy primitives. */
  predicate ArgsTruthy(a: Args) {
    match a
    case Missing(_) => false
    case Scalar(v) => Truthy(v)
    case Fields(_) => true
  }

  /** The message of the `TypeError` that `const { key, ... } = params`
      raises when `params` is `undefined` or `null` (V8's wording). */
  function DestructureError(a: Args, key: string): string
    requires a.Missing?
  {
    "Cannot destructure property '" + key + "' of 'params' as it is "
    + (if a.isNull then "null" else "undefined") + "."
  }
}
