# kak-ui message codec, modelled in Dafny

kak-ui is a Rust wrapper around Kakoune's JSON-RPC UI protocol. Its whole
library, `src/lib.rs`, converts messages in both directions:

- **Incoming** requests travel from the editor to the UI: `draw`,
  `draw_status`, `menu_show`, `menu_select`, `menu_hide`, `info_show`,
  `info_hide`, `set_cursor`, `set_ui_options` and `refresh`. Each is read
  from a JSON object of the form `{"jsonrpc": …, "method": …, "params": […]}`.
  First the object becomes a positional wire enum (`RawIncomingRequest`).
  Then that enum is relabelled into the public enum with named fields
  (`IncomingRequest`).
- **Outgoing** requests travel from the UI to the editor: `keys`, `resize`,
  `scroll`, `mouse_move`, `mouse_press`, `mouse_release` and `menu_select`.
  The public enum `OutgoingRequest` is relabelled into a positional wire enum
  (`RawOutgoingRequest`). That enum is written as a `method` and a `params`
  array inside an envelope whose `jsonrpc` is always `"2.0"`.
- The editor's value types are decoded from JSON: a color, the nine
  attributes, a face, an atom, a line and a coordinate.

The model works on a parsed JSON value (`JsonValue.Json`). Every decoder
returns an `Option`, and `None` means that deserialization fails. A decoder
follows the code's behaviour on every input shape:

- required fields;
- arrays of an exact length for tuple variants and singleton tuples;
- exactly `[]` for the `[(); 0]` hide variants;
- the `u32` range for numbers;
- exact snake_case names for the method tag and for the attributes.

Each direction gets a partner, which is a reference definition of the other
side of the wire:

- For incoming requests, the partner is an editor-side writer
  (`Incoming.IncomingToJson`).
- For outgoing requests, the partner is an editor-side reader
  (`Outgoing.ParseOutgoing`).

The round-trip lemmas connect each codec to its partner for all inputs.

Modules:

- `Wrappers`: the `Option` type.
- `JsonValue`: JSON values and primitive decoders.
- `Kak`: color, attribute, face, atom, line and coordinate.
- `Envelope`: the `JsonRpc<T>` envelope.
- `Incoming`: incoming requests.
- `Outgoing`: outgoing requests.

## Model

| member | source | states |
|---|---|---|
| JsonValue.Tuple | src/lib.rs:155-164 | A tuple variant's content decodes only from an array of exactly its arity. The slots are then the array's items. |
| JsonValue.DecodeStringMap | src/lib.rs:90-92 | A `HashMap<String, String>` decodes exactly from an object whose every value is a string. It keeps every key and value. |
| JsonValue.DecodeEncodeStringMap | src/lib.rs:163 | Decoding an object written from an options map gives back the same map. |
| Kak.DecodeColor | src/lib.rs:12-14 | A color decodes from any JSON string, kept verbatim, and from nothing else. |
| Kak.DecodeAttribute | src/lib.rs:16-29 | An attribute decodes if and only if the value is one of exactly nine snake_case names. The value is the name of the decoded attribute. |
| Kak.AttributeRoundTrip | src/lib.rs:16-29 | Each of the nine attributes decodes from its own snake_case name. |
| Kak.DecodeAttributeItems | src/lib.rs:36 | A decoded attribute list has one entry per array element. |
| Kak.AttributeItemsExact | src/lib.rs:36 | A successfully decoded attribute array is exactly the writing of the decoded attributes, element by element. |
| Kak.AttributeItemsRoundTrip | src/lib.rs:36 | Every attribute list decodes back from its own writing. |
| Kak.FaceDecodeExact | src/lib.rs:31-37 | `DecodeFace` succeeds if and only if the value is an object with string `fg` and `bg` and an attribute array `attributes`. Those fields are then exactly the writing of the decoded face's parts. |
| Kak.FaceRoundTrip | src/lib.rs:31-37 | Every face decodes back from its `fg`, `bg`, `attributes` object. |
| Kak.AtomDecodeExact | src/lib.rs:39-43 | `DecodeAtom` succeeds if and only if the value is an object whose `face` decodes as a face and whose `contents` is a string. The atom holds that face and exactly that text. |
| Kak.AtomRoundTrip | src/lib.rs:39-43 | Every atom decodes back from its `face`, `contents` object. |
| Kak.DecodeAtomItems | src/lib.rs:45-46 | A decoded line has one atom per array element. |
| Kak.AtomItemsExact | src/lib.rs:45-46 | An array of atoms decodes if and only if every element decodes as an atom. Element i then decodes to atom i. |
| Kak.LineDecodeExact | src/lib.rs:45-46 | `DecodeLine` succeeds if and only if the value is an array whose every element is an atom. The line has one atom per element, and element i decodes to atom i. |
| Kak.AtomItemsRoundTrip | src/lib.rs:45-46 | Every sequence of atoms decodes back from its array. |
| Kak.LineRoundTrip | src/lib.rs:45-46 | Every line decodes back from its array of atoms. |
| Kak.DecodeLineItems | src/lib.rs:58 | A decoded `Vec<KakLine>` has one line per array element. |
| Kak.LineItemsExact | src/lib.rs:58 | An array of lines decodes if and only if every element decodes as a line. Element i then decodes to line i. |
| Kak.LinesDecodeExact | src/lib.rs:58 | `DecodeLines` succeeds if and only if the value is an array whose every element is a line. The result has one line per element, and element i decodes to line i. |
| Kak.LineItemsRoundTrip | src/lib.rs:58 | Every sequence of lines decodes back from its array of arrays. |
| Kak.LinesRoundTrip | src/lib.rs:58 | Every `Vec<KakLine>` decodes back from its writing. |
| Kak.CoordDecodeExact | src/lib.rs:48-53 | `DecodeCoord` succeeds if and only if the value is an object whose `line` and `column` are numbers in `u32` range. The coordinate holds exactly those two numbers. |
| Kak.CoordRoundTrip | src/lib.rs:48-53 | Every coordinate decodes back from its `line`, `column` object. |
| Envelope.New | src/lib.rs:252-259 | A new envelope carries version "2.0" and the inner value unchanged. |
| Envelope.DecodeEnvelope | src/lib.rs:245-250 | The envelope decodes if and only if the object holds a string `jsonrpc`. The version is that string. The flattened inner value sees every other field and not `jsonrpc`. |
| Envelope.EncodeEnvelope | src/lib.rs:245-250 | The encoded object has exactly the inner fields plus `jsonrpc`, which holds the version. |
| Envelope.EnvelopeRoundTrip | src/lib.rs:245-259 | Decoding an encoded envelope gives it back. |
| Envelope.VersionNotInspected | src/lib.rs:247 | Any version string is accepted, and the fields seen by the inner value do not depend on it. |
| Incoming.ParseMethod | src/lib.rs:151-154 | The `method` tag is read into a variant only when it is that variant's snake_case name. |
| Incoming.ParseMethodName | src/lib.rs:151-154 | Every variant's snake_case name reads back as that variant, so with ParseMethod a tag is accepted if and only if it names a variant. |
| Incoming.DecodeRawIncoming | src/lib.rs:151-165 | An unknown method fails. On success, params is an array of exactly the method's arity. |
| Incoming.DecodeSlots | src/lib.rs:155-164 | Decoding a method's slots, when it succeeds, yields that method's variant. |
| Incoming.RawDecodeKeepsMethod | src/lib.rs:151-165 | A decoded wire request is the variant that the `method` tag names. |
| Incoming.DecodeRawIncomingFields | src/lib.rs:153 | The adjacently tagged content needs a string `method` and a `params` field. |
| Incoming.RawToIncoming | src/lib.rs:109-149 | The relabelling maps slot i to the i-th named field. It loses nothing, because it is inverted by the named-to-positional view, and it keeps the method. |
| Incoming.IncomingRelabelRoundTrip | src/lib.rs:109-149 | Named to positional and back is the identity on every `IncomingRequest`. |
| Incoming.DecodeIncoming | src/lib.rs:98-107 | A decoded request came from an object with a string `jsonrpc`, the request's own `method` name and a params array of that method's arity. |
| Incoming.DecodeIncomingExact | src/lib.rs:98-107 | A message decodes if and only if it is an object with a string `jsonrpc`, a string `method` and a `params` that decode as a wire request. The result is that wire request, relabelled. |
| Incoming.IncomingIgnoresExtraKeys | src/lib.rs:245-250 | Adding or replacing any key other than `jsonrpc`, `method` and `params` leaves the decoding result unchanged. |
| Incoming.DrawSlotsRoundTrip | src/lib.rs:155 | `draw` decodes its three slots from lines, face and face in order. |
| Incoming.DrawStatusSlotsRoundTrip | src/lib.rs:156 | `draw_status` decodes its slots from line, line and face in order. |
| Incoming.MenuShowSlotsRoundTrip | src/lib.rs:157 | `menu_show` decodes its five slots in declared order. |
| Incoming.InfoShowSlotsRoundTrip | src/lib.rs:160 | `info_show` decodes its five slots in declared order. |
| Incoming.SlotsRoundTrip | src/lib.rs:155-164 | Every wire variant decodes back from its own slots. |
| Incoming.RawIncomingRoundTrip | src/lib.rs:151-165 | Every wire request decodes back from its method name and params array. |
| Incoming.IncomingRoundTrip | src/lib.rs:98-165 | Every `IncomingRequest`, as the editor writes it with any version string, decodes back to itself. |
| Incoming.IncomingIgnoresVersion | src/lib.rs:103-105 | The result of decoding does not depend on the `jsonrpc` string. |
| Incoming.HideNeedsEmptyParams | src/lib.rs:159-161 | `menu_hide` and `info_hide` decode if and only if params is exactly `[]`. They become the unit variants. |
| Incoming.MenuSelectUnwraps | src/lib.rs:158 | `menu_select` decodes if and only if params is a one-element array holding a `u32`. That number becomes `selected`. |
| Incoming.SetUiOptionsUnwraps | src/lib.rs:163 | `set_ui_options` decodes if and only if params is a one-element array holding a string map. That map becomes `options`. |
| Incoming.RefreshUnwraps | src/lib.rs:164 | `refresh` decodes if and only if params is a one-element array holding a boolean. That boolean becomes `force`. |
| Incoming.ArityMismatchFails | src/lib.rs:155-164 | Params of the wrong arity fail: `[]` or `[1, 2]` for `menu_select`, two slots for `draw`, three for `set_cursor`. |
| Incoming.UnknownMethodFails | src/lib.rs:152-153 | A method tag that is not an exact snake_case variant name fails, whatever the params. |
| Incoming.DrawDecodes | src/lib.rs:155 | `draw` decodes if and only if params is `[lines, face, face]` with each slot of its type. The slots become `lines`, `default_face` and `padding_face`. |
| Incoming.DrawStatusDecodes | src/lib.rs:156 | `draw_status` decodes if and only if params is `[line, line, face]` with each slot of its type. The slots become `status_line`, `mode_line` and `default_face`. |
| Incoming.MenuShowDecodes | src/lib.rs:157 | `menu_show` decodes if and only if params is `[lines, coord, face, face, string]` with each slot of its type. The slots become `items`, `anchor`, `selected_item_face`, `menu_face` and `style`. |
| Incoming.InfoShowDecodes | src/lib.rs:160 | `info_show` decodes if and only if params is `[line, lines, coord, face, string]` with each slot of its type. The slots become `title`, `content`, `anchor`, `face` and `style`. |
| Incoming.SetCursorDecodes | src/lib.rs:162 | `set_cursor` decodes if and only if params is `[string, coord]` with each slot of its type. The slots become `mode` and `coord`. |
| Outgoing.OutgoingToRaw | src/lib.rs:218-243 | The relabelling puts the named fields in declared order and loses nothing, because it is inverted by the positional-to-named view. It keeps the method name. |
| Outgoing.OutgoingRelabelRoundTrip | src/lib.rs:218-243 | Positional to named and back is the identity on every wire request. |
| Outgoing.StringItems | src/lib.rs:209 | A `Vec<String>` is written as an array with one string per key, in order. |
| Outgoing.RawParams | src/lib.rs:208-215 | Every wire request's content is an array with one slot per key for `keys` and one per field otherwise. |
| Outgoing.EncodeRawOutgoing | src/lib.rs:205-216 | The adjacently tagged wire request is exactly a `method` (the snake_case name) and a `params` array. |
| Outgoing.EncodeOutgoing | src/lib.rs:196-203 | The output has exactly `jsonrpc`, `method` and `params`. `jsonrpc` is always "2.0", `method` is the request's name, and params has one slot per key for `keys` and one per named field otherwise. |
| Outgoing.StringItemsRoundTrip | src/lib.rs:209 | A key list reads back from its array. |
| Outgoing.OutgoingRoundTrip | src/lib.rs:196-243 | An editor reading the output gets back exactly the request that was sent. |
| Outgoing.KeysNotWrapped | src/lib.rs:209 | `keys` writes the list itself as params, not `[list]`. For example, `Keys(["a", "b"])` gives `["a", "b"]`. |
| Outgoing.PairParamsOrder | src/lib.rs:210-212 | `resize` writes `[rows, columns]`. `mouse_move` writes `[line, column]`. |
| Outgoing.ButtonParamsOrder | src/lib.rs:213-214 | `mouse_press` and `mouse_release` write `[button, line, column]`. |
| Outgoing.SingletonParamsWrapped | src/lib.rs:211-215 | `scroll` and `menu_select` wrap their one number as a one-element array. |

## Left out

- JSON text: the model starts from a parsed JSON value. Byte-level parsing, escaping and whitespace are serde_json's job.
- Error contents: every failure is `None`. serde's error messages and positions are not modelled.
- Numbers: a JSON number is an integer. Fractions and exponents, which serde rejects for `u32`, are not represented.
- Object key order and duplicate keys: objects are maps. `HashMap` iteration order, the order of emitted keys and serde's handling of a repeated key are not modelled.
- Color grammar: Kakoune's documentation describes named, `rgb:` and `rgba:` colors. The code accepts any string as a color, and the model follows the code.
- Extra serde input forms: serde also reads a struct from an array of its fields, a unit variant from `{"name": null}`, and an adjacently tagged tag from a variant index. The model accepts only the object form and the name.
- Unknown fields: extra keys are ignored at the top level, which `Incoming.IncomingIgnoresExtraKeys` states, and inside faces, atoms and coordinates. serde's `flatten` buffering mechanics are not modelled beyond that.
- `Debug` and `Clone` derives: these have no protocol behaviour.
- Reading and writing the stream (I/O) is outside the library and is not modelled.
