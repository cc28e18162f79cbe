/** A `serde_json::Value`, the schema-less document a quote carries as its
    `provider_data`, with the three accessors the adapters use on it. */
module Json {
  import opened Wrappers
  import opened Numeric

  /** serde_json keeps integers exactly (`Int`) and other numbers as floats (`Float`). */
  datatype Value =
    | Null
    | Bool(b: bool)
    | Int(i: int)
    | Float(f: real)
    | Str(s: string)
    | Array(items: seq<Value>)
    | Object(fields: map<string, Value>)

  /** `value["key"]`: the member of an object, or `Null` when the key is missing or the
      value is not an object at all. */
  function Get(v: Value, key: string): (r: Value)
    ensures v.Object? && key in v.fields ==> r == v.fields[key]
    ensures !(v.Object? && key in v.fields) ==> r == Null
  {
    match v
    case Object(fields) => if key in fields then fields[key] else Null
    case _ => Null
  }

  /** `Value::as_u64`: only non-negative integers that fit in 64 bits. */
  function AsU64(v: Value): (r: Option<U64>)
    ensures r.Some? <==> v.Int? && 0 <= v.i < U64_LIMIT
    ensures r.Some? ==> r.value == v.i
  {
    if v.Int? && 0 <= v.i < U64_LIMIT then Some(v.i) else None
  }

  /** `Value::as_bool`. */
  function AsBool(v: Value): (r: Option<bool>)
    ensures r.Some? <==> v.Bool?
    ensures r.Some? ==> r.value == v.b
  {
    if v.Bool? then Some(v.b) else None
  }

  /** How `json!` serializes an `Option<bool>`: `None` becomes `null`. */
  function OptionalBool(o: Option<bool>): (v: Value)
    ensures AsBool(v) == o
  {
    match o
    case Some(b) => Bool(b)
    case None => Null
  }
}
