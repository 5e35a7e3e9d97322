/** The small part of JavaScript's value model that the compression plugin
    relies on: loose comparison against `null` and truthiness. */
module JsValues {

  /** The conventional Some/None datatype. */
  datatype Option<+T> = None | Some(value: T)

  /** A JavaScript value, as far as the plugin can tell values apart.
      Numbers are finite (IEEE-754 rounding and the infinities are not
      modelled); every object (a Buffer, an Error, a function, ...) is known
      by its identity and by whether `Buffer.from` accepts it: a Buffer, an
      ArrayBuffer, an array or array-like object, an object whose `valueOf()`
      yields a string or another object, or one whose `Symbol.toPrimitive`
      yields a string does; any other object makes it throw. BigInt and
      Symbol values are not modelled. */
  datatype JsValue =
    | Undefined
    | Null
    | Bool(b: bool)
    | Num(x: real)
    | NaN
    | Str(s: string)
    | Obj(id: nat, bufferSource: bool)

  /** `v == null` under JavaScript's loose equality: true exactly for
      `null` and `undefined`. */
  predicate IsNullish(v: JsValue) {
    v.Undefined? || v.Null?
  }

  /** JavaScript's ToBoolean, the test an `if (v)` performs. */
  predicate Truthy(v: JsValue) {
    match v
    case Undefined => false
    case Null => false
    case Bool(b) => b
    case Num(x) => x != 0.0
    case NaN => false
    case Str(s) => s != ""
    case Obj(_, _) => true
  }

  /** Whether Node's `Buffer.from(v)` returns a buffer rather than throwing
      a TypeError: strings and buffer sources are accepted; numbers,
      booleans, NaN, null and undefined are not. */
  predicate BufferAccepts(v: JsValue) {
    match v
    case Str(_) => true
    case Obj(_, source) => source
    case _ => false
  }
}
