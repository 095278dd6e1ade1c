/**
 * The JavaScript values the two list pages hold in their state and send as
 * JSON: form fields, rows received from the server, chosen dates, and the
 * outcome of pressing a submit button.
 */
module PageValues {
  import opened Base
  import opened Js

  /** A field of a JavaScript object: `undefined`, `null`, a string or a number. */
  datatype Value = Undefined | Null | Str(s: string) | Num(x: real)

  /** A JavaScript object, as a map from its own keys to their values. */
  type Obj = map<string, Value>

  /** `obj[key]`: `undefined` for a key the object does not have. */
  function Field(obj: Obj, key: string): (v: Value)
    ensures key !in obj ==> v == Undefined
  {
    if key in obj then obj[key] else Undefined
  }

  /** JavaScript truthiness: everything but `undefined`, `null`, `""` and `0`. */
  predicate Truthy(v: Value) {
    match v
    case Undefined => false
    case Null => false
    case Str(s) => s != ""
    case Num(x) => x != 0.0
  }

  /** `Math.trunc`: rounding toward zero. */
  function TruncToward0(x: real): (n: int)
    ensures x >= 0.0 ==> n as real <= x < n as real + 1.0
    ensures x < 0.0 ==> n as real - 1.0 < x <= n as real
  {
    if x >= 0.0 then x.Floor else -((-x).Floor)
  }

  /**
   * `parseInt(v)`: a string is read by `parseInt`, a number by the digits its
   * decimal form starts with, and `undefined` or `null` give NaN (`None`).
   */
  function ParseValue(v: Value): Option<int> {
    match v
    case Str(s) => ParseInt(s)
    case Num(x) => Some(TruncToward0(x))
    case _ => None
  }

  /** `JSON.stringify` of a parsed integer: NaN is sent as `null`. */
  function IntJson(n: Option<int>): (v: Value)
    ensures n.None? <==> v == Null
    ensures n.Some? ==> v == Num(n.value as real)
  {
    match n
    case None => Null
    case Some(k) => Num(k as real)
  }

  /**
   * The date picker's value: cleared (`null`), an invalid `Date`, or a valid
   * `Date` given by the `YYYY-MM-DD` part of its `toISOString()`.
   */
  datatype PickedDate = NoDate | InvalidDate | Day(iso: string)

  /**
   * Pressing a submit button: blocked by the "Please fill in all fields."
   * alert, stopped by an exception thrown before the request, or a request
   * sent with its body.
   */
  datatype Submission<P> = Blocked | Crashed | Sent(payload: P)

  /** What a list fetch returns: a failed request, a body that is not an array, or the rows. */
  datatype FetchResponse<T> = FetchFailed | NotAnArray | Rows(rows: seq<T>)
}
