/** JavaScript values, as far as the dispatch layer and the result objects
    look at them: truthiness (`a || b`, `if (x)`), `typeof`, property lookup
    on a plain object, and the string conversion used by `+` and template
    literals when an error message is built. */
module JsValues {

  datatype Option<+T> = None | Some(value: T)

  /** A JavaScript value. Numbers are integers; functions never appear as
      values here (the places where the source tests `typeof ... === 'function'`
      carry their own datatypes). */
  datatype JsVal =
    | Undefined
    | Null
    | Bool(b: bool)
    | Num(n: int)
    | Str(s: string)
    | Obj(fields: map<string, JsVal>)
    | ErrorObj(name: string, message: string)

  /** JavaScript's ToBoolean. */
  predicate Truthy(v: JsVal) {
    match v
    case Undefined => false
    case Null => false
    case Bool(b) => b
    case Num(n) => n != 0
    case Str(s) => s != ""
    case Obj(_) => true
    case ErrorObj(_, _) => true
  }

  /** `a || b` */
  function Or(a: JsVal, b: JsVal): JsVal {
    if Truthy(a) then a else b
  }

  /** `o[k]` on a plain object: a missing property reads as `undefined`. */
  function Get(m: map<string, JsVal>, k: string): JsVal {
    if k in m then m[k] else Undefined
  }

  /** `new Error(message)` */
  function NewError(message: string): JsVal {
    ErrorObj("Error", message)
  }

  /** The `typeof` operator (note `typeof null === 'object'`). */
  function TypeOf(v: JsVal): string {
    match v
    case Undefined => "undefined"
    case Null => "object"
    case Bool(_) => "boolean"
    case Num(_) => "number"
    case Str(_) => "string"
    case Obj(_) => "object"
    case ErrorObj(_, _) => "object"
  }

  function DigitChar(d: nat): char
    requires d < 10
  {
    "0123456789"[d]
  }

  /** Decimal notation of a natural number. */
  function NatToString(n: nat): (r: string)
    ensures |r| > 0
    decreases n
  {
    if n < 10 then [DigitChar(n)] else NatToString(n / 10) + [DigitChar(n % 10)]
  }

  /** JavaScript's String(v), the conversion applied to a value concatenated
      into a message. */
  function ToString(v: JsVal): string {
    match v
    case Undefined => "undefined"
    case Null => "null"
    case Bool(b) => if b then "true" else "false"
    case Num(n) => if n < 0 then "-" + NatToString(-n) else NatToString(n)
    case Str(s) => s
    case Obj(_) => "[object Object]"
    case ErrorObj(name, message) =>
      if name == "" then message
      else if message == "" then name
      else name + ": " + message
  }
}
