/** Decoded JSON values. */
module Json {
  import opened Wrappers

  const U64_LIMIT: nat := 0x1_0000_0000_0000_0000
  const U32_LIMIT: nat := 0x1_0000_0000

  // `Fraction` stands for every number that is no 64-bit integer.
  datatype Value =
    | Null
    | Bool(bit: bool)
    | Number(n: int)
    | Fraction
    | Text(text: string)
    | Array(items: seq<Value>)
    | Object(fields: map<string, Value>)

  function Get(v: Value, key: string): Option<Value> {
    if v.Object? && key in v.fields then Some(v.fields[key]) else None
  }

  function GetWithin(v: Value, outer: string, inner: string): Option<Value> {
    var o :- Get(v, outer);
    Get(o, inner)
  }

  /** `as_u64`. */
  function AsU64(v: Value): Option<nat> {
    if v.Number? && 0 <= v.n < U64_LIMIT then Some(v.n) else None
  }

  function AsBool(v: Value): Option<bool> {
    if v.Bool? then Some(v.bit) else None
  }

  function AsText(v: Value): Option<string> {
    if v.Text? then Some(v.text) else None
  }
}
