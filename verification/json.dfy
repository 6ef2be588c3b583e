/**
 * JSON-like values as they reach the request validators, and the small pieces
 * of JavaScript semantics the model needs: truthiness of optional strings and
 * the `a || b` fallback.
 */
module Json {
  import opened Wrappers

  /** A parsed request body. An absent key is simply not in the object's map. */
  datatype Value =
    | Null
    | Bool(b: bool)
    | Num(n: real)
    | Str(s: string)
    | Arr(items: seq<Value>)
    | Obj(fields: map<string, Value>)

  /** JavaScript truthiness of a value that is either undefined or a string. */
  predicate Truthy(o: Option<string>) {
    o.Some? && o.value != ""
  }

  /** `o || fallback` for an optional string `o`. */
  function OrElse(o: Option<string>, fallback: Option<string>): (r: Option<string>)
    ensures Truthy(o) ==> r == o
    ensures !Truthy(o) ==> r == fallback
  {
    if Truthy(o) then o else fallback
  }

  /**
   * The reading of one key by a zod rule of the form `z.string()...` with a
   * predicate `ok` for its checks: a missing key yields `None`, a string that
   * passes yields `Some(Some(s))`, anything else is a rejection. `required`
   * tells whether a missing key is itself a rejection (no `.optional()`).
   */
  function StringField(fields: map<string, Value>, key: string, required: bool, ok: string -> bool): (r: Option<Option<string>>)
    ensures key !in fields ==> (r.Some? <==> !required) && (r.Some? ==> r.value.None?)
    ensures key in fields ==> (r.Some? <==> fields[key].Str? && ok(fields[key].s))
    ensures r.Some? && r.value.Some? ==> key in fields && fields[key] == Str(r.value.value)
  {
    if key !in fields then
      if required then None else Some(None)
    else
      match fields[key]
      case Str(s) => if ok(s) then Some(Some(s)) else None
      case _ => None
  }

  /** A `z.string()` rule on a key that must be present. */
  function RequiredString(fields: map<string, Value>, key: string, ok: string -> bool): (r: Option<string>)
    ensures r.Some? <==> key in fields && fields[key].Str? && ok(fields[key].s)
    ensures r.Some? ==> fields[key] == Str(r.value)
  {
    if key in fields && fields[key].Str? && ok(fields[key].s) then Some(fields[key].s) else None
  }

  /** A `z.number()` rule; `required` as for `StringField`. */
  function NumberField(fields: map<string, Value>, key: string, required: bool): (r: Option<Option<real>>)
    ensures key !in fields ==> (r.Some? <==> !required) && (r.Some? ==> r.value.None?)
    ensures key in fields ==> (r.Some? <==> fields[key].Num?)
    ensures r.Some? && r.value.Some? ==> key in fields && fields[key] == Num(r.value.value)
  {
    if key !in fields then
      if required then None else Some(None)
    else if fields[key].Num? then Some(Some(fields[key].n))
    else None
  }

  /** A `z.boolean()` rule; `required` as for `StringField`. */
  function BoolField(fields: map<string, Value>, key: string, required: bool): (r: Option<Option<bool>>)
    ensures key !in fields ==> (r.Some? <==> !required) && (r.Some? ==> r.value.None?)
    ensures key in fields ==> (r.Some? <==> fields[key].Bool?)
    ensures r.Some? && r.value.Some? ==> key in fields && fields[key] == Bool(r.value.value)
  {
    if key !in fields then
      if required then None else Some(None)
    else if fields[key].Bool? then Some(Some(fields[key].b))
    else None
  }

  /** `.strict()`: every key of the object is one of the declared keys. */
  predicate OnlyKeys(fields: map<string, Value>, declared: set<string>) {
    fields.Keys <= declared
  }
}
