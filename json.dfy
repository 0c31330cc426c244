/** The abstract JSON value tree that the codec reads and writes, and the
    structural decoders for the primitive Rust types it uses (`u32`, `bool`,
    `String`, fixed-size tuples, `HashMap<String, String>`). */
module JsonValue {
  import opened Wrappers

  /** A JSON value. Numbers are integers (a fractional number never decodes
      into any of the protocol's fields). An object is a map from keys to
      values: key order is not modelled. */
  datatype Json =
    | JNull
    | JBool(b: bool)
    | JNumber(n: int)
    | JString(s: string)
    | JArray(items: seq<Json>)
    | JObject(fields: map<string, Json>)

  const U32_MAX: int := 0xFFFF_FFFF

  /** Rust's `u32`. */
  type U32 = n: int | 0 <= n <= U32_MAX

  /** A `u32` decodes from an integer in range; negative or larger numbers fail. */
  function DecodeU32(j: Json): Option<U32> {
    if j.JNumber? && 0 <= j.n <= U32_MAX then Some(j.n) else None
  }

  function DecodeBool(j: Json): Option<bool> {
    if j.JBool? then Some(j.b) else None
  }

  function DecodeString(j: Json): Option<string> {
    if j.JString? then Some(j.s) else None
  }

  /** The value of a required struct field; fails when `j` is not an object
      or lacks the field. Other fields of the object are ignored. */
  function Field(j: Json, key: string): Option<Json> {
    if j.JObject? && key in j.fields then Some(j.fields[key]) else None
  }

  /** The slots of a fixed-arity tuple: an array of exactly `arity` elements. */
  function Tuple(j: Json, arity: nat): (r: Option<seq<Json>>)
    ensures r.Some? <==> j.JArray? && |j.items| == arity
    ensures r.Some? ==> r.value == j.items
  {
    if j.JArray? && |j.items| == arity then Some(j.items) else None
  }

  /** `HashMap<String, String>`: an object every value of which is a string. */
  function DecodeStringMap(j: Json): (r: Option<map<string, string>>)
    ensures r.Some? <==> j.JObject? && forall k :: k in j.fields ==> j.fields[k].JString?
    ensures r.Some? ==> r.value.Keys == j.fields.Keys
    ensures r.Some? ==> forall k :: k in r.value ==> j.fields[k] == JString(r.value[k])
  {
    if j.JObject? && forall k :: k in j.fields ==> j.fields[k].JString? then
      Some(map k | k in j.fields :: j.fields[k].s)
    else
      None
  }

  function EncodeStringMap(m: map<string, string>): Json {
    JObject(map k | k in m :: JString(m[k]))
  }

  lemma {:induction false} DecodeEncodeStringMap(m: map<string, string>)
    ensures DecodeStringMap(EncodeStringMap(m)) == Some(m)
  {
    var r := DecodeStringMap(EncodeStringMap(m));
    assert r.value == m;
  }
}
