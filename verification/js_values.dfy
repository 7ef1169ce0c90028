/**
 * The fragment of JavaScript values both reactors touch: the callables,
 * `this` arguments, call arguments and timeouts they store, and the
 * truthiness test they apply to `fn` and `event.timeout`.
 */
module JsValues {

  /** A JavaScript value. Numbers are integers here; functions and other
      objects are references, identified by an opaque address. */
  datatype JsValue =
    | Undefined
    | Null
    | Bool(b: bool)
    | Number(n: int)
    | Str(s: string)
    | Object(address: nat)

  /** JavaScript's `if (v)` / `v ? … : …` test. */
  predicate Truthy(v: JsValue)
  {
    match v
    case Undefined => false
    case Null => false
    case Bool(b) => b
    case Number(n) => n != 0
    case Str(s) => s != ""
    case Object(_) => true
  }

  /** A deferred call `fn.apply(thisArg, args)`, as handed to the timer queue. */
  datatype Call = Call(fn: JsValue, thisArg: JsValue, args: seq<JsValue>)
}
