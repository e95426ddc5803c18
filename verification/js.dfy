/**
 The JavaScript values the handlers inspect: parsed JSON payloads (plus `undefined`
 for a missing property), JavaScript truthiness, the `||` operator, optional
 property access (`v?.key`, `v?.[0]`) and thrown exceptions.
 */
module Js {

  /** A JavaScript value as produced by `JSON.parse`, extended with `undefined`. */
  datatype Value =
    | Undefined
    | Null
    | Bool(b: bool)
    | Num(n: real)
    | Str(s: string)
    | Arr(items: seq<Value>)
    | Obj(fields: map<string, Value>)

  /** `null` or `undefined`: the values on which `?.` short-circuits and `.key` throws. */
  predicate Nullish(v: Value) {
    v.Undefined? || v.Null?
  }

  /** JavaScript's ToBoolean on the values a JSON payload can hold (JSON has no NaN). */
  predicate Truthy(v: Value)
    ensures Truthy(v) ==> !Nullish(v)
    ensures v.Str? ==> (Truthy(v) <==> v.s != "")
    ensures v.Bool? ==> (Truthy(v) <==> v.b)
    ensures v.Num? ==> (Truthy(v) <==> v.n != 0.0)
    ensures v.Arr? || v.Obj? ==> Truthy(v)
  {
    match v
    case Undefined => false
    case Null => false
    case Bool(b) => b
    case Num(n) => n != 0.0
    case Str(s) => s != ""
    case Arr(_) => true
    case Obj(_) => true
  }

  /** `a || b`: the left operand when it is truthy, the right one otherwise. */
  function Or(a: Value, b: Value): (r: Value)
    ensures Truthy(r) <==> Truthy(a) || Truthy(b)
    ensures Truthy(a) ==> r == a
    ensures !Truthy(a) ==> r == b
  {
    if Truthy(a) then a else b
  }

  /**
   `v?.key` for a key that no prototype defines (every key the handlers read:
   error, message, output, content, type, text, output_text, data, url).
   Only an object's own entry can supply such a property.
   */
  function Get(v: Value, key: string): (r: Value)
    ensures !v.Obj? ==> r == Undefined
    ensures v.Obj? && key !in v.fields ==> r == Undefined
    ensures v.Obj? && key in v.fields ==> r == v.fields[key]
  {
    match v
    case Obj(m) => if key in m then m[key] else Undefined
    case _ => Undefined
  }

  /** `v?.[0]`: the first element of an array, the first code unit of a string,
      or the entry named "0" of an object. */
  function First(v: Value): (r: Value)
    ensures v.Arr? && |v.items| > 0 ==> r == v.items[0]
    ensures v.Arr? && |v.items| == 0 ==> r == Undefined
    ensures Nullish(v) || v.Bool? || v.Num? ==> r == Undefined
    ensures v.Str? && |v.s| > 0 ==> r == Str([v.s[0]])
    ensures v.Str? && |v.s| == 0 ==> r == Undefined
    ensures v.Obj? && "0" in v.fields ==> r == v.fields["0"]
    ensures v.Obj? && "0" !in v.fields ==> r == Undefined
  {
    match v
    case Arr(xs) => if |xs| > 0 then xs[0] else Undefined
    case Str(s) => if |s| > 0 then Str([s[0]]) else Undefined
    case Obj(m) => if "0" in m then m["0"] else Undefined
    case _ => Undefined
  }

  /** A thrown value, seen through its `message` property (`err?.message`). */
  datatype Exception = Exception(message: Value)

  /** The TypeError the engine throws for a property read on null or a call of a
      non-function; the engine's wording is not modelled, only that it is non-empty. */
  const EngineTypeError: Exception := Exception(Str("TypeError"))

  /** The result of a step that may throw. */
  datatype Outcome<+T> = Done(value: T) | Throws(error: Exception)
}
