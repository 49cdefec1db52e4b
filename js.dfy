/** JavaScript values as the front ends see them: optional strings, JSON
    payloads and the truthiness tests (`!x`, `x || y`) the source relies on. */
module Js {

  datatype Option<+T> = None | Some(value: T)

  /** A JSON-compatible JavaScript value. Numbers are kept as integers:
      fractions, NaN and the implicit number conversions of `>` and `<`
      are not modelled. */
  datatype Value =
    | Undefined
    | Null
    | Bool(b: bool)
    | Num(n: int)
    | Str(s: string)
    | Arr(items: seq<Value>)
    | Obj(fields: seq<(string, Value)>)

  /** `!!v` in JavaScript. Arrays and objects are truthy even when empty. */
  predicate Truthy(v: Value) {
    match v
    case Undefined => false
    case Null => false
    case Bool(b) => b
    case Num(n) => n != 0
    case Str(s) => s != ""
    case Arr(_) => true
    case Obj(_) => true
  }

  /** A string-valued property that may be missing: `!!x`. */
  predicate Present(x: Option<string>) {
    x.Some? && x.value != ""
  }

  /** `x || fallback` for a string-valued property that may be missing. */
  function Or(x: Option<string>, fallback: string): (r: string)
    ensures Present(x) ==> r == x.value
    ensures !Present(x) ==> r == fallback
  {
    if Present(x) then x.value else fallback
  }

  /** `x || y`, both possibly missing. */
  function OrElse(x: Option<string>, y: Option<string>): (r: Option<string>)
    ensures Present(r) <==> Present(x) || Present(y)
    ensures Present(x) ==> r == x
    ensures !Present(x) ==> r == y
  {
    if Present(x) then x else y
  }

  /** `Object.keys(o)` for an object, in the order of `fields`. JavaScript
      lists integer-like keys first, ascending, and then the others in
      insertion order; a value built from parsed JSON must list its fields
      in that order for the two to agree. */
  function Keys(fields: seq<(string, Value)>): (ks: seq<string>)
    ensures |ks| == |fields|
    ensures forall i :: 0 <= i < |fields| ==> ks[i] == fields[i].0
  {
    if fields == [] then [] else [fields[0].0] + Keys(fields[1..])
  }

  /** `o[key]`: the value stored under `key`, or undefined. */
  function Get(fields: seq<(string, Value)>, key: string): (v: Value)
    ensures v != Undefined ==> exists i :: 0 <= i < |fields| && fields[i] == (key, v)
  {
    if fields == [] then Undefined
    else if fields[0].0 == key then fields[0].1
    else Get(fields[1..], key)
  }

  /** `Array.isArray(v)`. */
  predicate IsArray(v: Value) {
    v.Arr?
  }

  /** `typeof v === 'object'`: true for null, arrays and objects. */
  predicate TypeofObject(v: Value) {
    v.Null? || v.Arr? || v.Obj?
  }
}
