/** The JavaScript values the transport layer handles, with the three pieces
    of the language its error resolution leans on: truthiness, the `||` and
    `&&` operators (which yield one of their operands, not a boolean) and the
    string conversion `new Error(x)` applies to its argument. */
module Js {

  /** A JavaScript value as `JSON.parse` or `res.text()` can produce it
      (`Undefined` is what reading a missing property gives). A number is
      carried by its canonical rendering, the text `String(n)` yields
      ("3.5", "0", "-12"); floating-point arithmetic is not modelled. */
  datatype Value =
    | Undefined
    | Null
    | Bool(b: bool)
    | Num(text: string)
    | Str(s: string)
    | Arr(items: seq<Value>)
    | Obj(fields: map<string, Value>)

  /** JavaScript truthiness: undefined, null, false, 0, NaN and "" are falsy. */
  predicate Truthy(v: Value)
  {
    match v
    case Undefined => false
    case Null => false
    case Bool(b) => b
    case Num(t) => t != "0" && t != "NaN"
    case Str(s) => s != ""
    case Arr(_) => true
    case Obj(_) => true
  }

  /** `a || b` */
  function Or(a: Value, b: Value): Value
  {
    if Truthy(a) then a else b
  }

  /** `a && b` */
  function And(a: Value, b: Value): Value
  {
    if Truthy(a) then b else a
  }

  /** `v[key]` for a property read on decoded data: an object's own field,
      `undefined` for a missing field and for every non-object value. */
  function Get(v: Value, key: string): Value
  {
    if v.Obj? && key in v.fields then v.fields[key] else Undefined
  }

  /** The strings of `parts` joined by `sep`, as `Array.prototype.join` does. */
  function Join(parts: seq<string>, sep: string): string
  {
    if parts == [] then ""
    else if |parts| == 1 then parts[0]
    else parts[0] + sep + Join(parts[1..], sep)
  }

  /** `String(v)`: the text `new Error(v)` stores as its message. An array
      prints its elements joined by "," with null and undefined printed as
      empty; every plain object prints as "[object Object]". */
  function ToJsString(v: Value): string
    decreases v
  {
    match v
    case Undefined => "undefined"
    case Null => "null"
    case Bool(b) => if b then "true" else "false"
    case Num(t) => t
    case Str(s) => s
    case Arr(items) =>
      Join(seq(|items|, i requires 0 <= i < |items| =>
             if items[i].Null? || items[i].Undefined? then "" else ToJsString(items[i])), ",")
    case Obj(_) => "[object Object]"
  }
}
