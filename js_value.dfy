/** Optional values, for things the client may or may not have been given. */
module Wrappers {
  datatype Option<+T> = None | Some(value: T)
}

/**
 * The slice of JavaScript values that the request pipeline touches:
 * decoded JSON bodies, call payload fields and client options, together
 * with JavaScript's notion of truthiness, which the pipeline uses for
 * every "is it there?" test.
 */
module JsValue {

  /** A JavaScript value. Numbers are integers here. */
  datatype Value =
    | Undefined
    | Null
    | Bool(b: bool)
    | Num(n: int)
    | Str(s: string)
    | Arr(items: seq<Value>)
    | Obj(props: map<string, Value>)

  const EmptyObject: Value := Obj(map[])

  /** What `!!v` is. */
  predicate Truthy(v: Value) {
    match v
    case Undefined => false
    case Null => false
    case Bool(b) => b
    case Num(n) => n != 0
    case Str(s) => s != ""
    case Arr(_) => true
    case Obj(_) => true
  }

  /** Reading any property of these throws a TypeError. */
  predicate Nullish(v: Value) {
    v.Undefined? || v.Null?
  }

  /** `v[k]` on a value that is not nullish: an own property of an object, else undefined. */
  function Get(v: Value, k: string): Value {
    if v.Obj? && k in v.props then v.props[k] else Undefined
  }

  /** `a || b`. */
  function Or(a: Value, b: Value): Value {
    if Truthy(a) then a else b
  }

  /** The own enumerable properties that `extend({}, v)` copies out of `v`. */
  function OwnProps(v: Value): map<string, Value> {
    if v.Obj? then v.props else map[]
  }

  /** A JavaScript `x || default` with a truthy default is truthy, and is `x` exactly when `x` is truthy. */
  lemma OrDefault(x: Value, default: Value)
    requires Truthy(default)
    ensures Truthy(Or(x, default))
    ensures Or(x, default) == x <==> Truthy(x)
  {
  }

  /** A decimal digit. */
  function DigitChar(d: nat): (c: char)
    requires d < 10
    ensures '0' <= c <= '9' && c as int - '0' as int == d
  {
    ('0' as int + d) as char
  }

  predicate IsDecimal(s: string) {
    forall i :: 0 <= i < |s| ==> '0' <= s[i] <= '9'
  }

  /** The number a string of decimal digits denotes. */
  function DecimalValue(s: string): nat
    requires IsDecimal(s)
  {
    if s == [] then 0 else DecimalValue(s[..|s| - 1]) * 10 + (s[|s| - 1] as int - '0' as int)
  }

  /** `String(n)` for a natural number: its decimal digits, without leading zeros. */
  function NatToString(n: nat): (s: string)
    ensures |s| > 0 && IsDecimal(s) && DecimalValue(s) == n
    ensures s[0] == '0' ==> s == "0"
    decreases n
  {
    if n < 10 then [DigitChar(n)]
    else
      var prefix := NatToString(n / 10);
      var s := prefix + [DigitChar(n % 10)];
      assert s[..|s| - 1] == prefix;
      s
  }

  function IntToString(n: int): string {
    if n < 0 then "-" + NatToString(-n) else NatToString(n)
  }

  function Join(parts: seq<string>, sep: string): string {
    if parts == [] then ""
    else if |parts| == 1 then parts[0]
    else parts[0] + sep + Join(parts[1..], sep)
  }

  /** String conversion, as `'' + v` does it (an array joins its elements with commas). */
  function ToJsString(v: Value): (s: string)
    ensures v.Str? ==> s == v.s
    // a non-negative number is written as its decimal digits
    ensures v.Num? && v.n >= 0 ==> IsDecimal(s) && DecimalValue(s) == v.n
    ensures v.Undefined? ==> s == "undefined"
  {
    match v
    case Undefined => "undefined"
    case Null => "null"
    case Bool(b) => if b then "true" else "false"
    case Num(n) => IntToString(n)
    case Str(s) => s
    case Arr(items) =>
      Join(seq(|items|, i requires 0 <= i < |items| =>
        if Nullish(items[i]) then "" else ToJsString(items[i])), ",")
    case Obj(_) => "[object Object]"
  }
}
