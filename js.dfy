/** The JavaScript values a JSON request body can carry, and the few JavaScript
    operations the controllers apply to them: truthiness (`!x`), property reads,
    destructuring with a `= {}` default, `Number.isInteger`, and the string form
    a template literal gives a value. */
module Js {

  /** A value decoded from a JSON request body. Numbers are exact reals: JSON
      text cannot denote NaN, and the infinities a literal beyond the double
      range parses to are not represented. `Undefined` is an absent field. */
  datatype JsValue =
    | Undefined
    | Null
    | Bool(b: bool)
    | Num(n: real)
    | Str(s: string)
    | Arr(elems: seq<JsValue>)
    | Obj(props: map<string, JsValue>)

  /** Reading a property of `null` or `undefined` throws a TypeError. */
  predicate Nullish(v: JsValue) {
    v.Undefined? || v.Null?
  }

  /** ECMAScript ToBoolean: `!v` is true exactly when this is false. */
  predicate Truthy(v: JsValue) {
    match v
    case Undefined => false
    case Null => false
    case Bool(b) => b
    case Num(n) => n != 0.0
    case Str(s) => s != ""
    case Arr(_) => true
    case Obj(_) => true
  }

  /** `v[key]` on a value that is neither null nor undefined. None of the keys the
      controllers read is a property that strings, numbers, booleans or arrays
      carry, so on those the read gives `undefined`. */
  function Prop(v: JsValue, key: string): JsValue
    requires !Nullish(v)
  {
    if v.Obj? && key in v.props then v.props[key] else Undefined
  }

  /** The field `key` bound by `const { data: { key } = {} } = req.body`: an
      undefined `data` is replaced by `{}`; a null one throws (excluded here). */
  function BodyField(data: JsValue, key: string): JsValue
    requires !data.Null?
  {
    if data.Undefined? then Undefined else Prop(data, key)
  }

  /** `Number.isInteger(v)`: false for every value that is not a number. */
  predicate IsInteger(v: JsValue) {
    v.Num? && v.n == v.n.Floor as real
  }

  function Digit(d: nat): (c: char)
    requires d < 10
    ensures '0' <= c <= '9' && c as int - '0' as int == d
  {
    ('0' as int + d) as char
  }

  /** The number a string of decimal digits denotes (the last digit is the units). */
  function DecimalValue(s: string): nat
    requires forall k :: 0 <= k < |s| ==> '0' <= s[k] <= '9'
  {
    if s == [] then 0
    else DecimalValue(s[..|s| - 1]) * 10 + (s[|s| - 1] as int - '0' as int)
  }

  /** Decimal digits of `n`, without leading zeros: reading them back gives
      `n`, so distinct numbers have distinct decimal forms. */
  function NatToString(n: nat): (s: string)
    ensures |s| >= 1
    ensures forall k :: 0 <= k < |s| ==> '0' <= s[k] <= '9'
    ensures DecimalValue(s) == n
    ensures |s| >= 2 ==> s[0] != '0'
  {
    if n < 10 then [Digit(n)]
    else
      var prefix := NatToString(n / 10);
      var s := prefix + [Digit(n % 10)];
      assert s[..|s| - 1] == prefix;
      s
  }

  function IntToString(i: int): string {
    if i < 0 then "-" + NatToString(-i) else NatToString(i)
  }

  /** The string a template literal `${v}` produces for `v` (ECMAScript
      ToString): arrays join their elements with "," (null and undefined
      elements give ""), plain objects give "[object Object]". An object with
      its own `toString` key makes ToString throw in JavaScript; that case is
      not represented here, and such an object also gives "[object Object]". */
  function Display(v: JsValue): string
    decreases v, 1
  {
    match v
    case Undefined => "undefined"
    case Null => "null"
    case Bool(b) => if b then "true" else "false"
    case Num(n) => if n == n.Floor as real then IntToString(n.Floor) else "<fraction>"
    case Str(s) => s
    case Arr(elems) => JoinDisplay(v, 0)
    case Obj(_) => "[object Object]"
  }

  /** `elems.slice(from).join(",")` for the elements of the array `whole`. */
  function JoinDisplay(whole: JsValue, from: nat): string
    requires whole.Arr? && from <= |whole.elems|
    decreases whole, 0, |whole.elems| - from
  {
    if from == |whole.elems| then ""
    else
      var e := whole.elems[from];
      var first := if Nullish(e) then "" else Display(e);
      if from + 1 == |whole.elems| then first else first + "," + JoinDisplay(whole, from + 1)
  }
}
