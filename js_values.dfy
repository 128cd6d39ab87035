/**
 * The slice of the JavaScript runtime that the exporter's two classes observe:
 * decoded JSON values, `typeof`, truthiness (for `||` defaults) and thrown
 * exceptions.
 */
module JsValues {

  datatype Option<+T> = None | Some(value: T)

  /** A decoded JavaScript value. Numbers are reals: NaN, the infinities and
      negative zero are not modelled. Objects and arrays are never looked into
      by the code modelled here, so they are one opaque case. */
  datatype JsValue =
    | Undefined
    | Null
    | Bool(b: bool)
    | Num(n: real)
    | Str(s: string)
    | Obj

  /** The string that `typeof v` evaluates to. */
  function TypeOf(v: JsValue): string {
    match v
    case Undefined => "undefined"
    case Null => "object"
    case Bool(_) => "boolean"
    case Num(_) => "number"
    case Str(_) => "string"
    case Obj => "object"
  }

  /** JavaScript truthiness: `false`, `0`, `""`, `null` and `undefined` are falsy. */
  predicate Truthy(v: JsValue) {
    match v
    case Undefined => false
    case Null => false
    case Bool(b) => b
    case Num(n) => n != 0.0
    case Str(s) => s != ""
    case Obj => true
  }

  /** The expression `a || b`. */
  function Or(a: JsValue, b: JsValue): JsValue {
    if Truthy(a) then a else b
  }

  /** The exceptions the modelled code can raise. */
  datatype Exception =
    | TypeError       // a property read or a call on `null` / `undefined`
    | SocketNotOpen   // the socket library refusing a send

  /** How a call ends: normally, or by throwing. */
  datatype Outcome = Completed | Threw(error: Exception)
}
