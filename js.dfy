/** The JavaScript values the cloner handles as data: thrown exceptions, the values
    `response.json()` can produce, their truthiness and their conversion to strings. */
module Js {

  datatype Option<+T> = None | Some(value: T)

  datatype Result<+T, +E> = Ok(value: T) | Err(error: E)

  /** Something thrown. `ErrorObject` is anything that is `instanceof Error`
      (TypeError, URIError, DOMException, `new Error(...)`); only its message matters here. */
  datatype Exception = ErrorObject(message: string) | NonErrorValue

  /** A value produced by `JSON.parse`. Numbers are restricted to integers. */
  datatype Json =
    | JNull
    | JBool(b: bool)
    | JNum(n: int)
    | JStr(s: string)
    | JArr(elems: seq<Json>)
    | JObj(fields: map<string, Json>)

  /** JavaScript truthiness of a JSON value: `null`, `false`, `0` and `""` are falsy. */
  predicate Truthy(j: Json)
  {
    match j
    case JNull => false
    case JBool(b) => b
    case JNum(n) => n != 0
    case JStr(s) => s != ""
    case JArr(_) => true
    case JObj(_) => true
  }

  function DigitChar(d: nat): (c: char)
    requires d < 10
    ensures '0' <= c <= '9'
  {
    "0123456789"[d]
  }

  /** Decimal rendering of a natural number, most significant digit first. */
  function NatToDecimal(n: nat): (s: string)
    ensures |s| >= 1
    ensures forall i :: 0 <= i < |s| ==> '0' <= s[i] <= '9'
    decreases n
  {
    if n < 10 then [DigitChar(n)] else NatToDecimal(n / 10) + [DigitChar(n % 10)]
  }

  /** Reads back a string of decimal digits. */
  function DecimalValue(s: string): nat
    requires forall i :: 0 <= i < |s| ==> '0' <= s[i] <= '9'
  {
    if s == [] then 0 else 10 * DecimalValue(s[..|s| - 1]) + (s[|s| - 1] - '0') as nat
  }

  /** The decimal rendering reads back as the number it renders: distinct attempt
      counts give distinct messages. */
  lemma {:induction false} NatToDecimalRoundTrip(n: nat)
    ensures DecimalValue(NatToDecimal(n)) == n
    decreases n
  {
    if n >= 10 {
      NatToDecimalRoundTrip(n / 10);
      var s := NatToDecimal(n);
      assert s[..|s| - 1] == NatToDecimal(n / 10);
    }
  }

  function IntToDecimal(n: int): (s: string)
  {
    if n < 0 then "-" + NatToDecimal(-n) else NatToDecimal(n)
  }

  /** `String(v)` throws on a JSON value exactly when it reaches an object that has its
      own `toString` member: that member is not callable, `valueOf` hands back the object
      itself, so no primitive comes out and a TypeError is thrown. `String` of an array
      converts every element that is not `null`. */
  predicate ConversionThrows(j: Json)
    decreases j
  {
    match j
    case JObj(fields) => "toString" in fields
    case JArr(elems) => exists k :: 0 <= k < |elems| && ConversionThrows(elems[k])
    case _ => false
  }

  /** The TypeError `String(v)` throws (V8's wording). */
  const ConversionError: Exception := ErrorObject("Cannot convert object to primitive value")

  /** JavaScript's `String(v)` for a JSON value; None when it throws. */
  function ToJsString(j: Json): (s: Option<string>)
    ensures s.None? <==> ConversionThrows(j)
    ensures j.JStr? ==> s == Some(j.s)
    decreases j, 1
  {
    match j
    case JNull => Some("null")
    case JBool(b) => Some(if b then "true" else "false")
    case JNum(n) => Some(IntToDecimal(n))
    case JStr(s) => Some(s)
    case JArr(elems) => JoinElements(elems, j)
    case JObj(fields) => if "toString" in fields then None else Some("[object Object]")
  }

  /** `Array.prototype.join(",")`, where a `null` element contributes the empty string;
      None when converting an element throws. */
  function JoinElements(elems: seq<Json>, ghost whole: Json): (s: Option<string>)
    requires forall k :: 0 <= k < |elems| ==> elems[k] < whole
    ensures s.None? <==> exists k :: 0 <= k < |elems| && ConversionThrows(elems[k])
    decreases whole, 0, |elems|
  {
    if elems == [] then Some("")
    else
      var head := if elems[0] == JNull then Some("") else ToJsString(elems[0]);
      if head.None? then None
      else if |elems| == 1 then head
      else
        var tail := JoinElements(elems[1..], whole);
        assert forall k :: 1 <= k < |elems| ==> elems[k] == elems[1..][k - 1];
        if tail.None? then None else Some(head.value + "," + tail.value)
  }

  /** What the `textContent` setter stores: `null` becomes the empty string, anything
      else is converted with `String`, which may throw. */
  function TextContent(j: Json): Option<string>
  {
    if j == JNull then Some("") else ToJsString(j)
  }
}
