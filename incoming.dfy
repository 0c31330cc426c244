/** Requests from the editor to the UI (src/lib.rs:55-165): the positional wire
    shape `RawIncomingRequest`, its structural decoder from `method` and
    `params`, and the relabelling into the named-field `IncomingRequest`. */
module Incoming {
  import opened Wrappers
  import opened JsonValue
  import opened Kak
  import opened Envelope

  datatype IncomingRequest =
    | Draw(lines: seq<Line>, defaultFace: Face, paddingFace: Face)
    | DrawStatus(statusLine: Line, modeLine: Line, defaultFace: Face)
    | MenuShow(items: seq<Line>, anchor: Coord, selectedItemFace: Face, menuFace: Face, style: string)
    | MenuSelect(selected: U32)
    | MenuHide
    | InfoShow(title: Line, content: seq<Line>, anchor: Coord, face: Face, style: string)
    | InfoHide
    | SetCursor(mode: string, coord: Coord)
    | SetUiOptions(options: map<string, string>)
    | Refresh(force: bool)

  /** The wire shape: one variant per method, with its params by position.
      The singleton tuples of `menu_select`, `set_ui_options` and `refresh`
      carry their one slot, and the empty arrays of the two hide methods
      carry nothing. */
  datatype RawIncomingRequest =
    | RawDraw(seq<Line>, Face, Face)
    | RawDrawStatus(Line, Line, Face)
    | RawMenuShow(seq<Line>, Coord, Face, Face, string)
    | RawMenuSelect(U32)
    | RawMenuHide
    | RawInfoShow(Line, seq<Line>, Coord, Face, string)
    | RawInfoHide
    | RawSetCursor(string, Coord)
    | RawSetUiOptions(map<string, string>)
    | RawRefresh(bool)

  /** The variant identifier the `method` tag is read into. */
  datatype IncomingMethod =
    | DrawMethod | DrawStatusMethod | MenuShowMethod | MenuSelectMethod | MenuHideMethod
    | InfoShowMethod | InfoHideMethod | SetCursorMethod | SetUiOptionsMethod | RefreshMethod

  /** The snake_case wire name of each method. */
  function MethodName(m: IncomingMethod): string {
    match m
    case DrawMethod => "draw"
    case DrawStatusMethod => "draw_status"
    case MenuShowMethod => "menu_show"
    case MenuSelectMethod => "menu_select"
    case MenuHideMethod => "menu_hide"
    case InfoShowMethod => "info_show"
    case InfoHideMethod => "info_hide"
    case SetCursorMethod => "set_cursor"
    case SetUiOptionsMethod => "set_ui_options"
    case RefreshMethod => "refresh"
  }

  /** The number of params slots each method takes. */
  function Arity(m: IncomingMethod): nat {
    match m
    case DrawMethod => 3
    case DrawStatusMethod => 3
    case MenuShowMethod => 5
    case MenuSelectMethod => 1
    case MenuHideMethod => 0
    case InfoShowMethod => 5
    case InfoHideMethod => 0
    case SetCursorMethod => 2
    case SetUiOptionsMethod => 1
    case RefreshMethod => 1
  }

  /** Reads the `method` tag: only the exact snake_case name of a method is
      recognised, and it names that method. */
  function ParseMethod(name: string): (r: Option<IncomingMethod>)
    ensures r.Some? ==> MethodName(r.value) == name
  {
    if name == "draw" then Some(DrawMethod)
    else if name == "draw_status" then Some(DrawStatusMethod)
    else if name == "menu_show" then Some(MenuShowMethod)
    else if name == "menu_select" then Some(MenuSelectMethod)
    else if name == "menu_hide" then Some(MenuHideMethod)
    else if name == "info_show" then Some(InfoShowMethod)
    else if name == "info_hide" then Some(InfoHideMethod)
    else if name == "set_cursor" then Some(SetCursorMethod)
    else if name == "set_ui_options" then Some(SetUiOptionsMethod)
    else if name == "refresh" then Some(RefreshMethod)
    else None
  }

  /** The method of a wire request. */
  function RawMethod(raw: RawIncomingRequest): IncomingMethod {
    match raw
    case RawDraw(_, _, _) => DrawMethod
    case RawDrawStatus(_, _, _) => DrawStatusMethod
    case RawMenuShow(_, _, _, _, _) => MenuShowMethod
    case RawMenuSelect(_) => MenuSelectMethod
    case RawMenuHide => MenuHideMethod
    case RawInfoShow(_, _, _, _, _) => InfoShowMethod
    case RawInfoHide => InfoHideMethod
    case RawSetCursor(_, _) => SetCursorMethod
    case RawSetUiOptions(_) => SetUiOptionsMethod
    case RawRefresh(_) => RefreshMethod
  }

  /** The method of a request. */
  function RequestMethod(req: IncomingRequest): IncomingMethod {
    match req
    case Draw(_, _, _) => DrawMethod
    case DrawStatus(_, _, _) => DrawStatusMethod
    case MenuShow(_, _, _, _, _) => MenuShowMethod
    case MenuSelect(_) => MenuSelectMethod
    case MenuHide => MenuHideMethod
    case InfoShow(_, _, _, _, _) => InfoShowMethod
    case InfoHide => InfoHideMethod
    case SetCursor(_, _) => SetCursorMethod
    case SetUiOptions(_) => SetUiOptionsMethod
    case Refresh(_) => RefreshMethod
  }

  /** Structural decode of the adjacently tagged `RawIncomingRequest`: the
      method name selects the variant and `params` must be an array of that
      method's arity whose every slot decodes to its type. */
  function DecodeRawIncoming(name: string, params: Json): (r: Option<RawIncomingRequest>)
    ensures ParseMethod(name).None? ==> r.None?
    ensures r.Some? ==> params.JArray? && |params.items| == Arity(ParseMethod(name).value)
  {
    var m :- ParseMethod(name);
    var p :- Tuple(params, Arity(m));
    DecodeSlots(m, p)
  }

  /** The per-slot decode of a params array whose length is the method's
      arity: slot i decodes to the i-th type of the method's tuple. */
  function DecodeSlots(m: IncomingMethod, p: seq<Json>): (r: Option<RawIncomingRequest>)
    requires |p| == Arity(m)
    ensures r.Some? ==> RawMethod(r.value) == m
  {
    match m
    case DrawMethod =>
      var a :- DecodeLines(p[0]);
      var b :- DecodeFace(p[1]);
      var c :- DecodeFace(p[2]);
      Some(RawDraw(a, b, c))
    case DrawStatusMethod =>
      var a :- DecodeLine(p[0]);
      var b :- DecodeLine(p[1]);
      var c :- DecodeFace(p[2]);
      Some(RawDrawStatus(a, b, c))
    case MenuShowMethod =>
      var a :- DecodeLines(p[0]);
      var b :- DecodeCoord(p[1]);
      var c :- DecodeFace(p[2]);
      var d :- DecodeFace(p[3]);
      var e :- DecodeString(p[4]);
      Some(RawMenuShow(a, b, c, d, e))
    case MenuSelectMethod =>
      var a :- DecodeU32(p[0]);
      Some(RawMenuSelect(a))
    case MenuHideMethod =>
      Some(RawMenuHide)
    case InfoShowMethod =>
      var a :- DecodeLine(p[0]);
      var b :- DecodeLines(p[1]);
      var c :- DecodeCoord(p[2]);
      var d :- DecodeFace(p[3]);
      var e :- DecodeString(p[4]);
      Some(RawInfoShow(a, b, c, d, e))
    case InfoHideMethod =>
      Some(RawInfoHide)
    case SetCursorMethod =>
      var a :- DecodeString(p[0]);
      var b :- DecodeCoord(p[1]);
      Some(RawSetCursor(a, b))
    case SetUiOptionsMethod =>
      var a :- DecodeStringMap(p[0]);
      Some(RawSetUiOptions(a))
    case RefreshMethod =>
      var a :- DecodeBool(p[0]);
      Some(RawRefresh(a))
  }

  /** The tag and content of the adjacently tagged enum: a string `method`
      and a `params` value, both required. */
  function DecodeRawIncomingFields(fields: map<string, Json>): (r: Option<RawIncomingRequest>)
    ensures r.Some? ==> "method" in fields && fields["method"].JString? && "params" in fields
  {
    if "method" in fields && "params" in fields then
      var name :- DecodeString(fields["method"]);
      DecodeRawIncoming(name, fields["params"])
    else
      None
  }

  /** `From<RawIncomingRequest> for IncomingRequest`: slot i becomes the i-th
      named field; total, and the inverse of the named-to-positional view. */
  function RawToIncoming(raw: RawIncomingRequest): (r: IncomingRequest)
    ensures IncomingToRaw(r) == raw
    ensures RequestMethod(r) == RawMethod(raw)
  {
    match raw
    case RawDraw(a, b, c) => Draw(lines := a, defaultFace := b, paddingFace := c)
    case RawDrawStatus(a, b, c) => DrawStatus(statusLine := a, modeLine := b, defaultFace := c)
    case RawMenuShow(a, b, c, d, e) =>
      MenuShow(items := a, anchor := b, selectedItemFace := c, menuFace := d, style := e)
    case RawMenuSelect(a) => MenuSelect(selected := a)
    case RawMenuHide => MenuHide
    case RawInfoShow(a, b, c, d, e) =>
      InfoShow(title := a, content := b, anchor := c, face := d, style := e)
    case RawInfoHide => InfoHide
    case RawSetCursor(a, b) => SetCursor(mode := a, coord := b)
    case RawSetUiOptions(a) => SetUiOptions(options := a)
    case RawRefresh(a) => Refresh(force := a)
  }

  /** `Deserialize for IncomingRequest`: the envelope, then the wire shape,
      then the relabelling. */
  function DecodeIncoming(j: Json): (r: Option<IncomingRequest>)
    ensures r.Some? ==> j.JObject? && "jsonrpc" in j.fields && j.fields["jsonrpc"].JString?
    ensures r.Some? ==> "method" in j.fields && j.fields["method"] == JString(MethodName(RequestMethod(r.value)))
    ensures r.Some? ==> "params" in j.fields && j.fields["params"].JArray?
    ensures r.Some? ==> |j.fields["params"].items| == Arity(RequestMethod(r.value))
  {
    var env :- DecodeEnvelope(j);
    var raw :- DecodeRawIncomingFields(env.inner);
    RawDecodeKeepsMethod(env.inner["method"].s, env.inner["params"]);
    Some(RawToIncoming(raw))
  }

  // The named-to-positional view and the editor-side writer, used as the
  // reference the decoder is proved against.

  function IncomingToRaw(req: IncomingRequest): RawIncomingRequest {
    match req
    case Draw(a, b, c) => RawDraw(a, b, c)
    case DrawStatus(a, b, c) => RawDrawStatus(a, b, c)
    case MenuShow(a, b, c, d, e) => RawMenuShow(a, b, c, d, e)
    case MenuSelect(a) => RawMenuSelect(a)
    case MenuHide => RawMenuHide
    case InfoShow(a, b, c, d, e) => RawInfoShow(a, b, c, d, e)
    case InfoHide => RawInfoHide
    case SetCursor(a, b) => RawSetCursor(a, b)
    case SetUiOptions(a) => RawSetUiOptions(a)
    case Refresh(a) => RawRefresh(a)
  }

  /** The params array the editor writes for a wire request, slot by slot. */
  function RawParams(raw: RawIncomingRequest): seq<Json> {
    match raw
    case RawDraw(a, b, c) => [LinesToJson(a), FaceToJson(b), FaceToJson(c)]
    case RawDrawStatus(a, b, c) => [LineToJson(a), LineToJson(b), FaceToJson(c)]
    case RawMenuShow(a, b, c, d, e) =>
      [LinesToJson(a), CoordToJson(b), FaceToJson(c), FaceToJson(d), JString(e)]
    case RawMenuSelect(a) => [JNumber(a)]
    case RawMenuHide => []
    case RawInfoShow(a, b, c, d, e) =>
      [LineToJson(a), LinesToJson(b), CoordToJson(c), FaceToJson(d), JString(e)]
    case RawInfoHide => []
    case RawSetCursor(a, b) => [JString(a), CoordToJson(b)]
    case RawSetUiOptions(a) => [EncodeStringMap(a)]
    case RawRefresh(a) => [JBool(a)]
  }

  /** The whole message the editor writes for a request, with any version string. */
  function IncomingToJson(req: IncomingRequest, version: string): Json {
    var raw := IncomingToRaw(req);
    JObject(map["jsonrpc" := JString(version), "method" := JString(MethodName(RawMethod(raw))),
                "params" := JArray(RawParams(raw))])
  }

  // Properties.

  /** Relabelling loses nothing: named-to-positional then back is the identity. */
  lemma IncomingRelabelRoundTrip(req: IncomingRequest)
    ensures RawToIncoming(IncomingToRaw(req)) == req
  {
  }

  /** Each method's wire name is recognised as that method: together with
      the contract of `ParseMethod`, exactly the ten names are recognised. */
  lemma ParseMethodName(m: IncomingMethod)
    ensures ParseMethod(MethodName(m)) == Some(m)
  {
  }

  /** A decoded wire request is of the variant its `method` names. */
  lemma RawDecodeKeepsMethod(name: string, params: Json)
    ensures DecodeRawIncoming(name, params).Some? ==>
      MethodName(RawMethod(DecodeRawIncoming(name, params).value)) == name
  {
  }

  /** The slots the editor writes for a wire request decode back to it. */
  lemma {:induction false} SlotsRoundTrip(raw: RawIncomingRequest)
    ensures |RawParams(raw)| == Arity(RawMethod(raw))
    ensures DecodeSlots(RawMethod(raw), RawParams(raw)) == Some(raw)
  {
    match raw
    case RawDraw(a, b, c) => DrawSlotsRoundTrip(a, b, c);
    case RawDrawStatus(a, b, c) => DrawStatusSlotsRoundTrip(a, b, c);
    case RawMenuShow(a, b, c, d, e) => MenuShowSlotsRoundTrip(a, b, c, d, e);
    case RawInfoShow(a, b, c, d, e) => InfoShowSlotsRoundTrip(a, b, c, d, e);
    case RawSetCursor(a, b) => CoordRoundTrip(b);
    case RawSetUiOptions(a) => DecodeEncodeStringMap(a);
    case _ =>
  }

  lemma {:induction false} DrawSlotsRoundTrip(a: seq<Line>, b: Face, c: Face)
    ensures DecodeSlots(DrawMethod, RawParams(RawDraw(a, b, c))) == Some(RawDraw(a, b, c))
  {
    LinesRoundTrip(a); FaceRoundTrip(b); FaceRoundTrip(c);
  }

  lemma {:induction false} DrawStatusSlotsRoundTrip(a: Line, b: Line, c: Face)
    ensures DecodeSlots(DrawStatusMethod, RawParams(RawDrawStatus(a, b, c))) == Some(RawDrawStatus(a, b, c))
  {
    LineRoundTrip(a); LineRoundTrip(b); FaceRoundTrip(c);
  }

  lemma {:induction false} MenuShowSlotsRoundTrip(a: seq<Line>, b: Coord, c: Face, d: Face, e: string)
    ensures DecodeSlots(MenuShowMethod, RawParams(RawMenuShow(a, b, c, d, e))) == Some(RawMenuShow(a, b, c, d, e))
  {
    LinesRoundTrip(a); CoordRoundTrip(b); FaceRoundTrip(c); FaceRoundTrip(d);
  }

  lemma {:induction false} InfoShowSlotsRoundTrip(a: Line, b: seq<Line>, c: Coord, d: Face, e: string)
    ensures DecodeSlots(InfoShowMethod, RawParams(RawInfoShow(a, b, c, d, e))) == Some(RawInfoShow(a, b, c, d, e))
  {
    LineRoundTrip(a); LinesRoundTrip(b); CoordRoundTrip(c); FaceRoundTrip(d);
  }

  /** Every wire request the editor can write decodes back to itself. */
  lemma {:induction false} RawIncomingRoundTrip(raw: RawIncomingRequest)
    ensures DecodeRawIncoming(MethodName(RawMethod(raw)), JArray(RawParams(raw))) == Some(raw)
  {
    ParseMethodName(RawMethod(raw));
    SlotsRoundTrip(raw);
  }

  /** Every request the editor can write decodes to itself, with its fields in
      the documented order, whatever version string it carries. */
  lemma {:induction false} IncomingRoundTrip(req: IncomingRequest, version: string)
    ensures DecodeIncoming(IncomingToJson(req, version)) == Some(req)
  {
    var raw := IncomingToRaw(req);
    var j := IncomingToJson(req, version);
    RawIncomingRoundTrip(raw);
    var env := DecodeEnvelope(j).value;
    assert env.inner["method"] == JString(MethodName(RawMethod(raw)));
    assert env.inner["params"] == JArray(RawParams(raw));
    IncomingRelabelRoundTrip(req);
  }

  /** The version's value is never inspected: only its presence as a string. */
  lemma {:induction false} IncomingIgnoresVersion(fields: map<string, Json>, v1: string, v2: string)
    ensures DecodeIncoming(JObject(fields["jsonrpc" := JString(v1)]))
         == DecodeIncoming(JObject(fields["jsonrpc" := JString(v2)]))
  {
    VersionNotInspected(fields, v1, v2);
  }

  /** `menu_hide` and `info_hide` decode from exactly an empty params array. */
  lemma HideNeedsEmptyParams(params: Json)
    ensures DecodeRawIncoming("menu_hide", params) == (if params == JArray([]) then Some(RawMenuHide) else None)
    ensures DecodeRawIncoming("info_hide", params) == (if params == JArray([]) then Some(RawInfoHide) else None)
    ensures RawToIncoming(RawMenuHide) == MenuHide && RawToIncoming(RawInfoHide) == InfoHide
  {
  }

  /** `menu_select` reads its one slot from a one-element array of a `u32`
      and unwraps it into `selected`. */
  lemma MenuSelectUnwraps(params: Json)
    ensures var r := DecodeRawIncoming("menu_select", params);
      && (r.Some? <==> params.JArray? && |params.items| == 1 && params.items[0].JNumber?
                       && 0 <= params.items[0].n <= U32_MAX)
      && (r.Some? ==> RawToIncoming(r.value) == MenuSelect(selected := params.items[0].n))
  {
  }

  /** `refresh` reads its one slot from a one-element array of a boolean and
      unwraps it into `force`. */
  lemma RefreshUnwraps(params: Json)
    ensures var r := DecodeRawIncoming("refresh", params);
      && (r.Some? <==> params.JArray? && |params.items| == 1 && params.items[0].JBool?)
      && (r.Some? ==> RawToIncoming(r.value) == Refresh(force := params.items[0].b))
  {
  }

  /** `set_ui_options` reads its one slot from a one-element array of a
      string-to-string object and unwraps it into `options`. */
  lemma SetUiOptionsUnwraps(params: Json)
    ensures var r := DecodeRawIncoming("set_ui_options", params);
      && (r.Some? <==> params.JArray? && |params.items| == 1 && DecodeStringMap(params.items[0]).Some?)
      && (r.Some? ==> RawToIncoming(r.value) == SetUiOptions(options := DecodeStringMap(params.items[0]).value))
  {
  }

  /** An arity mismatch fails: `menu_select` with `[]` or `[1, 2]`, `draw`
      with two slots, `set_cursor` with three. */
  lemma ArityMismatchFails(x: Json, y: Json, z: Json)
    ensures DecodeRawIncoming("menu_select", JArray([])) == None
    ensures DecodeRawIncoming("menu_select", JArray([JNumber(1), JNumber(2)])) == None
    ensures DecodeRawIncoming("draw", JArray([x, y])) == None
    ensures DecodeRawIncoming("set_cursor", JArray([x, y, z])) == None
  {
  }

  /** A `method` that is not the exact snake_case name of a variant fails,
      whatever its params. */
  lemma UnknownMethodFails(name: string, params: Json)
    requires forall m :: MethodName(m) != name
    ensures DecodeRawIncoming(name, params) == None
  {
  }

  /** `draw` decodes exactly from `[lines, face, face]`, the three slots
      becoming `lines`, `default_face` and `padding_face`. */
  lemma DrawDecodes(params: Json)
    ensures DecodeRawIncoming("draw", params).Some? <==>
      && params.JArray? && |params.items| == 3
      && DecodeLines(params.items[0]).Some?
      && DecodeFace(params.items[1]).Some?
      && DecodeFace(params.items[2]).Some?
    ensures DecodeRawIncoming("draw", params).Some? ==>
      RawToIncoming(DecodeRawIncoming("draw", params).value)
        == Draw(lines := DecodeLines(params.items[0]).value,
               defaultFace := DecodeFace(params.items[1]).value,
               paddingFace := DecodeFace(params.items[2]).value)
  {
  }

  /** `draw_status` decodes exactly from `[line, line, face]`, the slots
      becoming `status_line`, `mode_line` and `default_face`. */
  lemma DrawStatusDecodes(params: Json)
    ensures DecodeRawIncoming("draw_status", params).Some? <==>
      && params.JArray? && |params.items| == 3
      && DecodeLine(params.items[0]).Some?
      && DecodeLine(params.items[1]).Some?
      && DecodeFace(params.items[2]).Some?
    ensures DecodeRawIncoming("draw_status", params).Some? ==>
      RawToIncoming(DecodeRawIncoming("draw_status", params).value)
        == DrawStatus(statusLine := DecodeLine(params.items[0]).value,
                     modeLine := DecodeLine(params.items[1]).value,
                     defaultFace := DecodeFace(params.items[2]).value)
  {
  }

  /** `menu_show` decodes exactly from `[lines, coord, face, face, string]`,
      the slots becoming `items`, `anchor`, `selected_item_face`,
      `menu_face` and `style`. */
  lemma MenuShowDecodes(params: Json)
    ensures DecodeRawIncoming("menu_show", params).Some? <==>
      && params.JArray? && |params.items| == 5
      && DecodeLines(params.items[0]).Some?
      && DecodeCoord(params.items[1]).Some?
      && DecodeFace(params.items[2]).Some?
      && DecodeFace(params.items[3]).Some?
      && params.items[4].JString?
    ensures DecodeRawIncoming("menu_show", params).Some? ==>
      RawToIncoming(DecodeRawIncoming("menu_show", params).value)
        == MenuShow(items := DecodeLines(params.items[0]).value,
                   anchor := DecodeCoord(params.items[1]).value,
                   selectedItemFace := DecodeFace(params.items[2]).value,
                   menuFace := DecodeFace(params.items[3]).value,
                   style := params.items[4].s)
  {
  }

  /** `info_show` decodes exactly from `[line, lines, coord, face, string]`,
      the slots becoming `title`, `content`, `anchor`, `face` and `style`. */
  lemma InfoShowDecodes(params: Json)
    ensures DecodeRawIncoming("info_show", params).Some? <==>
      && params.JArray? && |params.items| == 5
      && DecodeLine(params.items[0]).Some?
      && DecodeLines(params.items[1]).Some?
      && DecodeCoord(params.items[2]).Some?
      && DecodeFace(params.items[3]).Some?
      && params.items[4].JString?
    ensures DecodeRawIncoming("info_show", params).Some? ==>
      RawToIncoming(DecodeRawIncoming("info_show", params).value)
        == InfoShow(title := DecodeLine(params.items[0]).value,
                   content := DecodeLines(params.items[1]).value,
                   anchor := DecodeCoord(params.items[2]).value,
                   face := DecodeFace(params.items[3]).value,
                   style := params.items[4].s)
  {
  }

  /** `set_cursor` decodes exactly from `[string, coord]`, the slots becoming
      `mode` and `coord`. */
  lemma SetCursorDecodes(params: Json)
    ensures DecodeRawIncoming("set_cursor", params).Some? <==>
      && params.JArray? && |params.items| == 2
      && params.items[0].JString?
      && DecodeCoord(params.items[1]).Some?
    ensures DecodeRawIncoming("set_cursor", params).Some? ==>
      RawToIncoming(DecodeRawIncoming("set_cursor", params).value)
        == SetCursor(mode := params.items[0].s,
                    coord := DecodeCoord(params.items[1]).value)
  {
  }

  /** Whole-message decoding succeeds exactly when the object has a string
      `jsonrpc`, a string `method` and a `params` that decode as a wire
      request, and the result is that wire request relabelled. */
  lemma DecodeIncomingExact(j: Json)
    ensures DecodeIncoming(j).Some? <==>
      && j.JObject? && "jsonrpc" in j.fields && j.fields["jsonrpc"].JString?
      && "method" in j.fields && j.fields["method"].JString? && "params" in j.fields
      && DecodeRawIncoming(j.fields["method"].s, j.fields["params"]).Some?
    ensures DecodeIncoming(j).Some? ==>
      DecodeIncoming(j) == Some(RawToIncoming(DecodeRawIncoming(j.fields["method"].s, j.fields["params"]).value))
  {
  }

  /** Keys other than `jsonrpc`, `method` and `params` play no part: adding
      or replacing one changes nothing. */
  lemma IncomingIgnoresExtraKeys(fields: map<string, Json>, k: string, v: Json)
    requires k != "jsonrpc" && k != "method" && k != "params"
    ensures DecodeIncoming(JObject(fields[k := v])) == DecodeIncoming(JObject(fields))
  {
    DecodeIncomingExact(JObject(fields[k := v]));
    DecodeIncomingExact(JObject(fields));
  }
}
