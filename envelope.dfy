/** `JsonRpc<T>` (src/lib.rs:245-259): the JSON-RPC 2.0 envelope, a `jsonrpc`
    string beside the fields of the wrapped message, which are flattened into
    the same object. The wrapped part is kept here as the object's remaining
    fields; the method layers decode and encode those. */
module Envelope {
  import opened Wrappers
  import opened JsonValue

  const JSONRPC_VERSION: string := "2.0"

  datatype JsonRpc<T> = JsonRpc(jsonrpc: string, inner: T)

  /** `JsonRpc::new`: wraps a message with the fixed version. */
  function New<T>(inner: T): (env: JsonRpc<T>)
    ensures env.jsonrpc == JSONRPC_VERSION && env.inner == inner
  {
    JsonRpc(JSONRPC_VERSION, inner)
  }

  /** Decoding needs an object with a string `jsonrpc`, whatever its value;
      the flattened message receives every other field. */
  function DecodeEnvelope(j: Json): (r: Option<JsonRpc<map<string, Json>>>)
    ensures r.Some? <==> j.JObject? && "jsonrpc" in j.fields && j.fields["jsonrpc"].JString?
    ensures r.Some? ==> JString(r.value.jsonrpc) == j.fields["jsonrpc"]
    ensures r.Some? ==> "jsonrpc" !in r.value.inner
    ensures r.Some? ==> forall k :: k in j.fields && k != "jsonrpc" ==> k in r.value.inner && r.value.inner[k] == j.fields[k]
  {
    var version :- Field(j, "jsonrpc");
    var s :- DecodeString(version);
    Some(JsonRpc(s, j.fields - {"jsonrpc"}))
  }

  /** Encoding writes the version beside the message's own fields. */
  function EncodeEnvelope(env: JsonRpc<map<string, Json>>): (j: Json)
    ensures j.JObject? && j.fields.Keys == env.inner.Keys + {"jsonrpc"}
    ensures j.fields["jsonrpc"] == JString(env.jsonrpc)
  {
    JObject(env.inner["jsonrpc" := JString(env.jsonrpc)])
  }

  /** Decoding undoes encoding, for a message that does not itself use the
      `jsonrpc` key. */
  lemma EnvelopeRoundTrip(env: JsonRpc<map<string, Json>>)
    requires "jsonrpc" !in env.inner
    ensures DecodeEnvelope(EncodeEnvelope(env)) == Some(env)
  {
    var j := EncodeEnvelope(env);
    assert j.fields - {"jsonrpc"} == env.inner;
  }

  /** The version's value plays no part in decoding: two objects that differ
      only in their (string) `jsonrpc` field yield the same message fields. */
  lemma VersionNotInspected(fields: map<string, Json>, v1: string, v2: string)
    ensures DecodeEnvelope(JObject(fields["jsonrpc" := JString(v1)])).Some?
    ensures DecodeEnvelope(JObject(fields["jsonrpc" := JString(v1)])).value.inner
         == DecodeEnvelope(JObject(fields["jsonrpc" := JString(v2)])).value.inner
  {
    assert fields["jsonrpc" := JString(v1)] - {"jsonrpc"} == fields["jsonrpc" := JString(v2)] - {"jsonrpc"};
  }
}
