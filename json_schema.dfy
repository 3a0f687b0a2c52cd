/** The fragment of JSON Schema that the tool manifests use, and what it means for a
    parsed JSON value to conform to a schema. */
module JsonSchema {
  import opened Wrappers
  import opened JsValue

  datatype Schema =
    | SObject(properties: seq<Prop>, required: seq<string>, additionalProperties: bool)
    | SString(minLength: nat)
    | SInteger(minimum: Option<int>, maximum: Option<int>)
    | SBoolean
    | SArray(items: Schema, minItems: nat)
    | SAnyOf(options: seq<Schema>)
    | SAny

  /** One entry of `properties`, with its `description`. */
  datatype Prop = Prop(name: string, schema: Schema, description: string)

  predicate Declares(props: seq<Prop>, key: string)
  {
    exists i :: 0 <= i < |props| && props[i].name == key
  }

  /** JSON Schema validation of `v` against `s`. A member is present when it reads as
      something other than `undefined`, which parsed JSON never holds. */
  predicate Conforms(v: Value, s: Schema)
    decreases s
  {
    match s
    case SObject(props, required, additional) =>
      && v.Obj?
      && (forall r :: r in required ==> Get(v, r) != Undefined)
      && (forall i :: 0 <= i < |props| ==>
            Get(v, props[i].name) != Undefined ==> Conforms(Get(v, props[i].name), props[i].schema))
      && (!additional ==> forall k :: 0 <= k < |v.fields| ==> Declares(props, v.fields[k].key))
    case SString(minLength) => v.Str? && |v.s| >= minLength
    case SInteger(minimum, maximum) =>
      && v.Num? && IsInteger(v.n)
      && (minimum.Some? ==> v.n >= minimum.value as real)
      && (maximum.Some? ==> v.n <= maximum.value as real)
    case SBoolean => v.Bool?
    case SArray(items, minItems) =>
      && v.Arr? && |v.items| >= minItems
      && forall k :: 0 <= k < |v.items| ==> Conforms(v.items[k], items)
    case SAnyOf(options) => exists i :: 0 <= i < |options| && Conforms(v, options[i])
    case SAny => true
  }
}
