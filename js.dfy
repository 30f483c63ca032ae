/**
  JavaScript values as the request layer sees them: the data handed back by
  the providers, the payloads of the envelopes, and the exceptions that
  interrupt a handler.
*/
module Js {

  /** A value that may be `undefined`, such as a missing path segment or query key. */
  datatype Option<+T> = None | Some(value: T)

  /** The outcome of JavaScript code that may throw: the value it returned, or an exception. */
  datatype Attempt<+T> = Returned(value: T) | Thrown

  /** A JavaScript value. Numbers are restricted to integers. */
  datatype Value =
    | Undefined
    | Null
    | Bool(b: bool)
    | Num(n: int)
    | Str(s: string)
    | Arr(items: seq<Value>)
    | Obj(fields: map<string, Value>)

  predicate Nullish(v: Value) {
    v.Undefined? || v.Null?
  }

  /** JavaScript truthiness (`if (v)`, `!v`): the falsy values are `undefined`, `null`, `false`, `0` and `""`. */
  function Truthy(v: Value): (b: bool)
    ensures !b <==> v in {Undefined, Null, Bool(false), Num(0), Str("")}
  {
    match v
    case Undefined => false
    case Null => false
    case Bool(b) => b
    case Num(n) => n != 0
    case Str(s) => s != ""
    case Arr(_) => true
    case Obj(_) => true
  }

  /** Truthiness of a string that may be `undefined`. */
  predicate Present(s: Option<string>) {
    s.Some? && s.value != ""
  }

  /** The key's value in a map built from query parameters, or `undefined`. */
  function Lookup(m: map<string, string>, key: string): Option<string> {
    if key in m then Some(m[key]) else None
  }

  /**
    Property access `v.key`: reading a property of `undefined` or `null`
    throws a TypeError; an absent property reads as `undefined`.
  */
  function Prop(v: Value, key: string): (r: Attempt<Value>)
    ensures r.Thrown? <==> Nullish(v)
    ensures v.Obj? && key !in v.fields ==> r == Returned(Undefined)
    ensures v.Obj? && key in v.fields ==> r == Returned(v.fields[key])
    ensures !Nullish(v) && !v.Obj? ==> r == Returned(Undefined)
  {
    match v
    case Undefined => Thrown
    case Null => Thrown
    case Obj(fields) => Returned(if key in fields then fields[key] else Undefined)
    case _ => Returned(Undefined)
  }

  /** The own enumerable properties that object spread (`{...v}`) copies. */
  function OwnProps(v: Value): map<string, Value> {
    if v.Obj? then v.fields else map[]
  }

  /** Decimal text of a natural number. */
  function NatToDecimal(n: nat): (r: string)
    ensures |r| >= 1
    decreases n
  {
    var digit := ['0' + (n % 10) as char];
    if n < 10 then digit else NatToDecimal(n / 10) + digit
  }

  /** Conversion to a string, as template literals (`${v}`) perform it. */
  function ToJsString(v: Value): string
    decreases v, 1
  {
    match v
    case Undefined => "undefined"
    case Null => "null"
    case Bool(b) => if b then "true" else "false"
    case Num(n) => if n < 0 then "-" + NatToDecimal(-n) else NatToDecimal(n)
    case Str(s) => s
    case Arr(items) => JoinElements(items)
    case Obj(_) => "[object Object]"
  }

  /** Array.prototype.join with a comma, where `null` and `undefined` elements become empty. */
  function JoinElements(items: seq<Value>): string
    decreases items, 0
  {
    if |items| == 0 then ""
    else
      var head := if Nullish(items[0]) then "" else ToJsString(items[0]);
      if |items| == 1 then head else head + "," + JoinElements(items[1..])
  }

  /** `${s}` for a string that may be `undefined`. */
  function OptionText(s: Option<string>): string {
    if s.Some? then s.value else "undefined"
  }
}
