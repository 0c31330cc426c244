/** Requests from the UI to the editor (src/lib.rs:167-243): the named-field
    `OutgoingRequest`, its relabelling into the positional wire shape
    `RawOutgoingRequest`, and the adjacently tagged `method` + `params`
    encoding inside the JSON-RPC envelope. */
module Outgoing {
  import opened Wrappers
  import opened JsonValue
  import opened Envelope

  datatype OutgoingRequest =
    | Keys(keys: seq<string>)
    | Resize(rows: U32, columns: U32)
    | Scroll(amount: U32)
    | MouseMove(line: U32, column: U32)
    | MousePress(button: string, line: U32, column: U32)
    | MouseRelease(button: string, line: U32, column: U32)
    | MenuSelect(index: U32)

  /** The wire shape, by position. `Scroll` and `MenuSelect` wrap their one
      value in a singleton tuple; `Keys` carries its list itself. */
  datatype RawOutgoingRequest =
    | RawKeys(seq<string>)
    | RawResize(U32, U32)
    | RawScroll(U32)
    | RawMouseMove(U32, U32)
    | RawMousePress(string, U32, U32)
    | RawMouseRelease(string, U32, U32)
    | RawMenuSelect(U32)

  // The method table for outgoing requests, stated on the named form.

  /** The snake_case `method` name of each request. */
  function OutgoingMethod(req: OutgoingRequest): string {
    match req
    case Keys(_) => "keys"
    case Resize(_, _) => "resize"
    case Scroll(_) => "scroll"
    case MouseMove(_, _) => "mouse_move"
    case MousePress(_, _, _) => "mouse_press"
    case MouseRelease(_, _, _) => "mouse_release"
    case MenuSelect(_) => "menu_select"
  }

  /** The length of each request's params array: one slot per key for
      `Keys`, the number of named fields otherwise. */
  function OutgoingArity(req: OutgoingRequest): nat {
    match req
    case Keys(keys) => |keys|
    case Resize(_, _) => 2
    case Scroll(_) => 1
    case MouseMove(_, _) => 2
    case MousePress(_, _, _) => 3
    case MouseRelease(_, _, _) => 3
    case MenuSelect(_) => 1
  }

  /** `From<OutgoingRequest> for RawOutgoingRequest`: the named fields become
      slots in declared order; no information is lost. */
  function OutgoingToRaw(req: OutgoingRequest): (raw: RawOutgoingRequest)
    ensures RawToOutgoing(raw) == req
    ensures RawMethod(raw) == OutgoingMethod(req)
  {
    match req
    case Keys(v) => RawKeys(v)
    case Resize(a, b) => RawResize(a, b)
    case Scroll(a) => RawScroll(a)
    case MouseMove(a, b) => RawMouseMove(a, b)
    case MousePress(a, b, c) => RawMousePress(a, b, c)
    case MouseRelease(a, b, c) => RawMouseRelease(a, b, c)
    case MenuSelect(a) => RawMenuSelect(a)
  }

  /** The positional-to-named view, the reference `OutgoingToRaw` is proved against. */
  function RawToOutgoing(raw: RawOutgoingRequest): OutgoingRequest {
    match raw
    case RawKeys(v) => Keys(v)
    case RawResize(a, b) => Resize(rows := a, columns := b)
    case RawScroll(a) => Scroll(amount := a)
    case RawMouseMove(a, b) => MouseMove(line := a, column := b)
    case RawMousePress(a, b, c) => MousePress(button := a, line := b, column := c)
    case RawMouseRelease(a, b, c) => MouseRelease(button := a, line := b, column := c)
    case RawMenuSelect(a) => MenuSelect(index := a)
  }

  /** The snake_case variant name serialized as `method`. */
  function RawMethod(raw: RawOutgoingRequest): string {
    match raw
    case RawKeys(_) => "keys"
    case RawResize(_, _) => "resize"
    case RawScroll(_) => "scroll"
    case RawMouseMove(_, _) => "mouse_move"
    case RawMousePress(_, _, _) => "mouse_press"
    case RawMouseRelease(_, _, _) => "mouse_release"
    case RawMenuSelect(_) => "menu_select"
  }

  /** A list of strings as a JSON array, one string per slot, in order. */
  function StringItems(v: seq<string>): (items: seq<Json>)
    ensures |items| == |v|
    ensures forall i :: 0 <= i < |v| ==> items[i] == JString(v[i])
  {
    if v == [] then [] else [JString(v[0])] + StringItems(v[1..])
  }

  /** The serialized content of each variant: a tuple variant's fields as an
      array, a newtype variant's one value as itself. */
  function RawParams(raw: RawOutgoingRequest): (params: Json)
    ensures params.JArray? && |params.items| == OutgoingArity(RawToOutgoing(raw))
  {
    match raw
    case RawKeys(v) => JArray(StringItems(v))
    case RawResize(a, b) => JArray([JNumber(a), JNumber(b)])
    case RawScroll(a) => JArray([JNumber(a)])
    case RawMouseMove(a, b) => JArray([JNumber(a), JNumber(b)])
    case RawMousePress(a, b, c) => JArray([JString(a), JNumber(b), JNumber(c)])
    case RawMouseRelease(a, b, c) => JArray([JString(a), JNumber(b), JNumber(c)])
    case RawMenuSelect(a) => JArray([JNumber(a)])
  }

  /** Serializing the adjacently tagged `RawOutgoingRequest`: exactly a
      `method` and a `params` array. */
  function EncodeRawOutgoing(raw: RawOutgoingRequest): (fields: map<string, Json>)
    ensures fields.Keys == {"method", "params"}
    ensures fields["method"] == JString(RawMethod(raw))
    ensures fields["params"].JArray?
  {
    map["method" := JString(RawMethod(raw)), "params" := RawParams(raw)]
  }

  /** `Serialize for OutgoingRequest`: relabel, tag, and wrap in an envelope
      whose version is always "2.0". */
  function EncodeOutgoing(req: OutgoingRequest): (j: Json)
    ensures j.JObject? && j.fields.Keys == {"jsonrpc", "method", "params"}
    ensures j.fields["jsonrpc"] == JString(JSONRPC_VERSION)
    ensures j.fields["method"] == JString(OutgoingMethod(req))
    ensures j.fields["params"].JArray? && |j.fields["params"].items| == OutgoingArity(req)
  {
    EncodeEnvelope(New(EncodeRawOutgoing(OutgoingToRaw(req))))
  }

  // The editor-side reader of these messages, written from the method table,
  // the reference the encoder is proved against.

  function DecodeStringItems(xs: seq<Json>): (r: Option<seq<string>>)
    ensures r.Some? ==> |r.value| == |xs|
  {
    if xs == [] then Some([])
    else
      var head :- DecodeString(xs[0]);
      var tail :- DecodeStringItems(xs[1..]);
      Some([head] + tail)
  }

  /** Reads an outgoing message the way the editor does: version "2.0", a
      known method, and a params array of that method's shape. */
  function ParseOutgoing(j: Json): Option<OutgoingRequest> {
    var version :- Field(j, "jsonrpc");
    var name :- Field(j, "method");
    var params :- Field(j, "params");
    if version != JString(JSONRPC_VERSION) || !name.JString? || !params.JArray? then None
    else
      var p := params.items;
      var tag := name.s;
      if tag == "keys" then
        var keys :- DecodeStringItems(p);
        Some(Keys(keys))
      else if tag == "resize" && |p| == 2 then
        var rows :- DecodeU32(p[0]);
        var columns :- DecodeU32(p[1]);
        Some(Resize(rows, columns))
      else if tag == "scroll" && |p| == 1 then
        var amount :- DecodeU32(p[0]);
        Some(Scroll(amount))
      else if tag == "mouse_move" && |p| == 2 then
        var line :- DecodeU32(p[0]);
        var column :- DecodeU32(p[1]);
        Some(MouseMove(line, column))
      else if tag == "mouse_press" && |p| == 3 then
        var button :- DecodeString(p[0]);
        var line :- DecodeU32(p[1]);
        var column :- DecodeU32(p[2]);
        Some(MousePress(button, line, column))
      else if tag == "mouse_release" && |p| == 3 then
        var button :- DecodeString(p[0]);
        var line :- DecodeU32(p[1]);
        var column :- DecodeU32(p[2]);
        Some(MouseRelease(button, line, column))
      else if tag == "menu_select" && |p| == 1 then
        var index :- DecodeU32(p[0]);
        Some(MenuSelect(index))
      else
        None
  }

  // Properties.

  /** Relabelling loses nothing: positional back to named is the identity. */
  lemma OutgoingRelabelRoundTrip(raw: RawOutgoingRequest)
    ensures OutgoingToRaw(RawToOutgoing(raw)) == raw
  {
  }

  lemma {:induction false} StringItemsRoundTrip(v: seq<string>)
    ensures DecodeStringItems(StringItems(v)) == Some(v)
  {
    if v != [] {
      StringItemsRoundTrip(v[1..]);
      assert [v[0]] + v[1..] == v;
    }
  }

  /** The editor reads back exactly the request that was encoded. */
  lemma {:induction false} OutgoingRoundTrip(req: OutgoingRequest)
    ensures ParseOutgoing(EncodeOutgoing(req)) == Some(req)
  {
    if req.Keys? {
      StringItemsRoundTrip(req.keys);
    }
  }

  /** `Keys(v)` writes `v` itself as params, one slot per key, not `[v]`;
      `Keys(["a", "b"])` has a two-element params array. */
  lemma KeysNotWrapped(v: seq<string>)
    ensures EncodeOutgoing(Keys(v)).fields["params"] == JArray(StringItems(v))
    ensures EncodeOutgoing(Keys(["a", "b"])).fields["params"] == JArray([JString("a"), JString("b")])
  {
  }

  /** `resize` and `mouse_move` write their two numbers in declared order. */
  lemma PairParamsOrder(a: U32, b: U32)
    ensures EncodeOutgoing(Resize(rows := a, columns := b)).fields["params"] == JArray([JNumber(a), JNumber(b)])
    ensures EncodeOutgoing(MouseMove(line := a, column := b)).fields["params"] == JArray([JNumber(a), JNumber(b)])
  {
  }

  /** `mouse_press` and `mouse_release` write button, line, column. */
  lemma ButtonParamsOrder(button: string, line: U32, column: U32)
    ensures EncodeOutgoing(MousePress(button, line, column)).fields["params"]
         == JArray([JString(button), JNumber(line), JNumber(column)])
    ensures EncodeOutgoing(MouseRelease(button, line, column)).fields["params"]
         == JArray([JString(button), JNumber(line), JNumber(column)])
  {
  }

  /** `scroll` and `menu_select` wrap their one number in a one-element array. */
  lemma SingletonParamsWrapped(n: U32)
    ensures EncodeOutgoing(Scroll(amount := n)).fields["params"] == JArray([JNumber(n)])
    ensures EncodeOutgoing(MenuSelect(index := n)).fields["params"] == JArray([JNumber(n)])
  {
  }
}
