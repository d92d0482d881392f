/** JavaScript values as the connector sees them: a property can be undefined,
    null or hold a value, and `a || b` picks by truthiness. */
module JsValues {

  datatype Option<+T> = None | Some(value: T)

  /** What the connector throws: a lookup that found nothing, or a property read
      on `null`/`undefined`. */
  datatype Error = MethodNotFound(message: string) | TypeError(message: string)

  datatype Result<+T> = Ok(value: T) | Err(error: Error)

  /** A property read: `undefined`, `null`, or a present value. */
  datatype Js<+T> = Undef | Null | Val(v: T)

  /** JSON-shaped data handed to and returned from the serialisers.
      Numbers are modelled as integers. */
  datatype Json =
    | JNull
    | JBool(b: bool)
    | JNum(n: int)
    | JStr(s: string)
    | JArr(items: seq<Json>)
    | JObj(fields: map<string, Json>)

  /** JavaScript truthiness of a string property: undefined, null and "" are falsy. */
  predicate StrTruthy(x: Js<string>) {
    x.Val? && x.v != ""
  }

  /** `a || b` on string properties. */
  function StrOr(a: Js<string>, b: Js<string>): (r: Js<string>)
    ensures StrTruthy(a) ==> r == a
    ensures !StrTruthy(a) ==> r == b
    ensures StrTruthy(r) <==> StrTruthy(a) || StrTruthy(b)
  {
    if StrTruthy(a) then a else b
  }

  /** `String(x)` as used by `x + '?wsdl'`. */
  function StrText(x: Js<string>): string {
    match x
    case Undef => "undefined"
    case Null => "null"
    case Val(s) => s
  }

  /** JavaScript truthiness of a JSON value; `None` stands for `undefined`. */
  predicate Truthy(x: Option<Json>) {
    match x
    case None => false
    case Some(JNull) => false
    case Some(JBool(b)) => b
    case Some(JNum(n)) => n != 0
    case Some(JStr(s)) => s != ""
    case Some(JArr(_)) => true
    case Some(JObj(_)) => true
  }

  /** `obj[key]` on a plain object: undefined when the key is missing. */
  function Lookup(obj: map<string, Json>, key: string): (r: Option<Json>)
    ensures r.Some? <==> key in obj
    ensures r.Some? ==> r.value == obj[key]
  {
    if key in obj then Some(obj[key]) else None
  }
}
