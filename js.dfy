/** The JavaScript values that yt-dlp's JSON output and the Discord payloads
    are made of, and the operators the source applies to them: optional
    property access `v?.k`, indexing, `??`, truthiness and `typeof`. */
module Js {

  datatype Value =
    | Undefined
    | Null
    | Bool(b: bool)
    | Num(n: real)
    | Str(s: string)
    | Arr(items: seq<Value>)
    | Obj(props: map<string, Value>)

  /** `v === null || v === undefined`: the values `??` and `?.` skip. */
  predicate Nullish(v: Value)
  {
    v.Undefined? || v.Null?
  }

  /** `a ?? b`. */
  function Coalesce(a: Value, b: Value): Value
  {
    if Nullish(a) then b else a
  }

  /** `v?.key` for a named property: only objects have the properties read here. */
  function Get(v: Value, key: string): Value
  {
    if v.Obj? && key in v.props then v.props[key] else Undefined
  }

  /** `v?.[i]`: an array element, or undefined outside the array. */
  function At(v: Value, i: int): Value
  {
    if v.Arr? && 0 <= i < |v.items| then v.items[i] else Undefined
  }

  /** `v?.at(-1)`: the last element of an array, undefined for an empty one. */
  function Last(v: Value): Value
  {
    if v.Arr? && v.items != [] then v.items[|v.items| - 1] else Undefined
  }

  /** JavaScript truthiness (NaN is not modelled). */
  predicate Truthy(v: Value)
  {
    match v
    case Undefined => false
    case Null => false
    case Bool(b) => b
    case Num(n) => n != 0.0
    case Str(s) => s != ""
    case Arr(_) => true
    case Obj(_) => true
  }

  /** `v && typeof v === "object"`: a non-null object or an array. */
  predicate IsObjectLike(v: Value)
  {
    v.Arr? || v.Obj?
  }

  /** `a ?? b` returns `a` exactly when `a` is neither null nor undefined,
      so an empty string or `false` is kept; and the result is nullish only
      when both are. */
  lemma CoalesceKeeps(a: Value, b: Value)
    ensures Coalesce(a, b) == a <==> !Nullish(a) || a == b
    ensures Nullish(Coalesce(a, b)) <==> Nullish(a) && Nullish(b)
    ensures a == Str("") ==> Coalesce(a, b) == Str("")
  {
  }
}
