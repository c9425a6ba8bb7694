/** JavaScript values as the route handlers see them, and the HTTP reply they send. */
module JsValues {

  datatype Option<+T> = None | Some(value: T)

  /** A value decoded from an upstream JSON payload or a request body.
      NaN is not representable; everything else JavaScript can hold there is. */
  datatype Json = Undefined | Null | Bool(b: bool) | Number(n: real) | Str(s: string) | Object

  /** JavaScript truthiness: `undefined`, `null`, `false`, `0` and `""` are falsy. */
  predicate Truthy(v: Json) {
    match v
    case Undefined => false
    case Null => false
    case Bool(b) => b
    case Number(n) => n != 0.0
    case Str(s) => s != ""
    case Object => true
  }

  /** Truthiness of a numeric column or body field that may be absent (NULL / undefined). */
  predicate TruthyNum(o: Option<real>) {
    o.Some? && o.value != 0.0
  }

  /** Truthiness of a text column or body field that may be absent. */
  predicate TruthyText(o: Option<string>) {
    o.Some? && o.value != ""
  }

  /** A NULL column used in arithmetic: JavaScript coerces `null` to 0. */
  function NullAsZero(o: Option<real>): real {
    match o
    case None => 0.0
    case Some(x) => x
  }

  /** What a handler sends: a status with a body, or a status with an error message. */
  datatype Reply<+T> = Ok(status: int, body: T) | Fail(status: int, message: string)
}
