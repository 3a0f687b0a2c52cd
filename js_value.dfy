/** Values produced by `JSON.parse` and read through JavaScript property access. */
module JsValue {

  /** A JavaScript value as far as parsed JSON goes, plus `undefined` for a missing property.
      Objects keep their members in source order; a repeated key is allowed. */
  datatype Value =
    | Undefined
    | Null
    | Bool(b: bool)
    | Num(n: real)
    | Str(s: string)
    | Arr(items: seq<Value>)
    | Obj(fields: seq<Field>)

  datatype Field = Field(key: string, value: Value)

  /** JavaScript truthiness (NaN does not arise from JSON). */
  predicate Truthy(v: Value)
  {
    match v
    case Undefined => false
    case Null => false
    case Bool(b) => b
    case Num(n) => n != 0.0
    case Str(s) => s != ""
    case Arr(_) => true
    case Obj(_) => true
  }

  /** `null` or `undefined`: reading a property of these throws a TypeError. */
  predicate IsNullish(v: Value)
  {
    v.Undefined? || v.Null?
  }

  /** The member `key` of an object's fields; as with `JSON.parse`, the last of several
      members with the same key is the one kept. */
  function LastBinding(fields: seq<Field>, key: string): (r: Value)
    ensures r != Undefined ==> exists k :: 0 <= k < |fields| && fields[k].key == key && fields[k].value == r
    ensures (forall k :: 0 <= k < |fields| ==> fields[k].key != key) ==> r == Undefined
  {
    if fields == [] then Undefined
    else if fields[|fields| - 1].key == key then fields[|fields| - 1].value
    else LastBinding(fields[..|fields| - 1], key)
  }

  /** `v?.key`: a missing member, or any property of a non-object, reads as `undefined`.
      (The built-in properties of strings and arrays, such as `length`, are never read by
      the code modelled here.) */
  function Get(v: Value, key: string): Value
  {
    if v.Obj? then LastBinding(v.fields, key) else Undefined
  }

  /** `v ?? d`: the default replaces exactly `null` and `undefined`. */
  function Coalesce(v: Value, d: Value): (r: Value)
    ensures !IsNullish(v) ==> r == v
    ensures IsNullish(v) ==> r == d
  {
    if IsNullish(v) then d else v
  }

  /** A number with no fractional part, as `Number.isInteger` decides. */
  predicate IsInteger(n: real)
  {
    n == n.Floor as real
  }
}
