/**
 * JavaScript values as the route handlers see them (the result of
 * `JSON.parse`, or of reading a property), and the handful of JavaScript
 * evaluation rules the handlers rely on: truthiness, `||`, `??`, property
 * reads that throw on `null` and `undefined`, optional chaining.
 */
module Js {

  datatype Option<T> = None | Some(value: T)

  /** The outcome of evaluating a JavaScript expression that may throw. */
  datatype Result<T> = Ok(value: T) | Throw(message: string) {
    predicate IsFailure() { Throw? }
    function PropagateFailure<U>(): Result<U> requires Throw? { Throw(message) }
    function Extract(): T requires Ok? { value }
  }

  /** NaN and negative zero are not modelled; numbers are mathematical reals. */
  datatype JsValue =
    | Undefined
    | Null
    | Bool(b: bool)
    | Num(n: real)
    | Str(s: string)
    | Arr(elems: seq<JsValue>)
    | Obj(props: map<string, JsValue>)

  /** JavaScript truthiness: `false`, `0`, `""`, `null` and `undefined` are falsy. */
  predicate Truthy(v: JsValue) {
    match v
    case Undefined => false
    case Null => false
    case Bool(b) => b
    case Num(n) => n != 0.0
    case Str(s) => s != ""
    case Arr(_) => true
    case Obj(_) => true
  }

  predicate Nullish(v: JsValue) {
    v.Undefined? || v.Null?
  }

  /** `a || b` */
  function Or(a: JsValue, b: JsValue): JsValue {
    if Truthy(a) then a else b
  }

  /** `a ?? b` */
  function Coalesce(a: JsValue, b: JsValue): JsValue {
    if Nullish(a) then b else a
  }

  /** The message of the TypeError thrown by reading property `k` of null or undefined. */
  function ReadError(v: JsValue, k: string): string {
    "Cannot read properties of " + (if v.Null? then "null" else "undefined") + " (reading '" + k + "')"
  }

  /**
   * `v.k`: throws on null and undefined, gives an object's own property,
   * and undefined for every other value (the prototype members of
   * primitives and arrays are never among the names the handlers read).
   */
  function Prop(v: JsValue, k: string): (r: Result<JsValue>)
    ensures r.Throw? <==> Nullish(v)
    ensures v.Obj? && k in v.props ==> r == Ok(v.props[k])
    ensures v.Obj? && k !in v.props ==> r == Ok(Undefined)
    ensures !v.Obj? && !Nullish(v) ==> r == Ok(Undefined)
  {
    match v
    case Undefined => Throw(ReadError(v, k))
    case Null => Throw(ReadError(v, k))
    case Obj(m) => Ok(if k in m then m[k] else Undefined)
    case _ => Ok(Undefined)
  }

  /** `v?.k` */
  function OptProp(v: JsValue, k: string): JsValue {
    if Nullish(v) then Undefined else Prop(v, k).value
  }

  /** `v[0]` */
  function First(v: JsValue): Result<JsValue> {
    match v
    case Undefined => Throw(ReadError(v, "0"))
    case Null => Throw(ReadError(v, "0"))
    case Arr(e) => Ok(if |e| > 0 then e[0] else Undefined)
    case Str(s) => Ok(if |s| > 0 then Str(s[..1]) else Undefined)
    case Obj(m) => Ok(if "0" in m then m["0"] else Undefined)
    case _ => Ok(Undefined)
  }

  /** The UTF-16 code units of a character: two for one above U+FFFF (a surrogate pair), else one. */
  function Utf16Units(c: char): nat {
    if c as int > 0xFFFF then 2 else 1
  }

  /** A string's `length`, which JavaScript counts in UTF-16 code units. */
  function Utf16Length(s: string): (n: nat)
    ensures |s| <= n <= 2 * |s|
    ensures (forall i | 0 <= i < |s| :: s[i] as int <= 0xFFFF) ==> n == |s|
    ensures (forall i | 0 <= i < |s| :: s[i] as int > 0xFFFF) ==> n == 2 * |s|
    decreases |s|
  {
    if s == [] then 0
    else
      assert forall i | 0 <= i < |s| - 1 :: s[1..][i] == s[i + 1];
      Utf16Units(s[0]) + Utf16Length(s[1..])
  }

  /** `v.length`, strings counted in UTF-16 code units. */
  function Length(v: JsValue): Result<JsValue> {
    match v
    case Arr(e) => Ok(Num(|e| as real))
    case Str(s) => Ok(Num(Utf16Length(s) as real))
    case _ => Prop(v, "length")
  }

  /** An optional string field of a TypeScript record, read as a JavaScript value. */
  function OptStr(o: Option<string>): JsValue {
    match o
    case None => Undefined
    case Some(s) => Str(s)
  }

  /** The truthiness of an optional string field. */
  predicate Present(o: Option<string>) {
    o.Some? && o.value != ""
  }

  /** A template literal `${o}` for an optional string: absent is written "undefined". */
  function TemplateText(o: Option<string>): string {
    match o
    case None => "undefined"
    case Some(s) => s
  }

  /** A value read from JSON stored in a string-typed field: only strings survive. */
  function AsOptString(v: JsValue): Option<string> {
    if v.Str? then Some(v.s) else None
  }

  /** Decimal digits of a natural number. */
  function NatText(n: nat): (r: string)
    ensures |r| > 0
    ensures forall i :: 0 <= i < |r| ==> '0' <= r[i] <= '9'
    decreases n
  {
    var d := [(('0' as int) + n % 10) as char];
    if n < 10 then d else NatText(n / 10) + d
  }

  function IntText(i: int): string {
    if i < 0 then "-" + NatText(-i) else NatText(i)
  }

  /**
   * `String(v)` as used by `+` with a string or number operand. Numbers
   * that are not integers are written by their integer part only.
   */
  function Text(v: JsValue): string
    decreases v, 1
  {
    match v
    case Undefined => "undefined"
    case Null => "null"
    case Bool(b) => if b then "true" else "false"
    case Num(n) => IntText(n.Floor)
    case Str(s) => s
    case Arr(e) => JoinText(e)
    case Obj(_) => "[object Object]"
  }

  /** `Array.prototype.join(",")`, where null and undefined elements give "". */
  function JoinText(e: seq<JsValue>): string
    decreases e, 0
  {
    if e == [] then ""
    else
      var head := if Nullish(e[0]) then "" else Text(e[0]);
      if |e| == 1 then head else head + "," + JoinText(e[1..])
  }

  /** `v + 1` for a value that is never undefined. */
  function PlusOne(v: JsValue): JsValue
    requires !v.Undefined?
  {
    match v
    case Null => Num(1.0)
    case Bool(b) => Num(if b then 2.0 else 1.0)
    case Num(n) => Num(n + 1.0)
    case _ => Str(Text(v) + "1")
  }
}
