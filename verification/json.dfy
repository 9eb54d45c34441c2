/** The conventional optional value, standing in for JavaScript's `null` / `undefined`. */
module Options {

  datatype Option<+T> = None | Some(value: T)
}

/**
 JSON-shaped values, as the document store persists them and the signalling bus
 carries them, together with the few pieces of JavaScript semantics both services
 rely on: truthiness, strict equality (`===` / `!==`) and reading the `id`
 property of a value.

 Numbers are restricted to integers, so the floating-point corners of `!==`
 (NaN, -0) do not arise.
 */
module Json {
  import opened Options

  datatype Value =
    | Null
    | Bool(b: bool)
    | Int(i: int)
    | Str(s: string)
    | Arr(elems: seq<Value>)
    | Obj(fields: map<string, Value>)

  /** Values that `===` compares by content rather than by reference. */
  predicate IsPrimitive(v: Value) {
    v.Null? || v.Bool? || v.Int? || v.Str?
  }

  /** JavaScript truthiness: `null`, `false`, `0` and `""` are falsy; every array and object is truthy. */
  predicate Truthy(v: Value) {
    match v
    case Null => false
    case Bool(b) => b
    case Int(i) => i != 0
    case Str(s) => s != ""
    case Arr(_) => true
    case Obj(_) => true
  }

  /** Reading `o[key]` of a record: `None` is `undefined`. */
  function Lookup(fields: map<string, Value>, key: string): Option<Value> {
    if key in fields then Some(fields[key]) else None
  }

  /**
   `field === probe`, where `field` was read from a freshly deserialised value
   (`None` when the property is absent, i.e. `undefined`) and `probe` is a value
   the caller built. Arrays and objects compare by reference, and a freshly
   deserialised value never shares a reference with a caller's value, so only
   primitives can ever be equal; `undefined` never equals a caller's value.
   */
  predicate StrictEquals(field: Option<Value>, probe: Value) {
    field.Some? && IsPrimitive(probe) && field.value == probe
  }

  /** `v.id` for a value that is not `null` (reading a property of `null` throws). */
  function IdField(v: Value): Option<Value> {
    if v.Obj? then Lookup(v.fields, "id") else None
  }
}
