/** The drawing vocabulary of Kakoune's JSON UI protocol: colors, attributes,
    faces, atoms, lines and coordinates, with their structural decoders
    (src/lib.rs:12-53). Faces only ever travel from the editor to the UI, so
    there is no encoder among them; the `...ToJson` functions here are the
    editor-side writer, used as the reference the decoders are proved against. */
module Kak {
  import opened Wrappers
  import opened JsonValue

  /** `KakColor`: a newtype over the color's text, kept verbatim. */
  datatype Color = Color(name: string)

  datatype Attribute =
    | Underline | Reverse | Blink | Bold | Dim | Italic
    | FinalFg | FinalBg | FinalAttr

  datatype Face = Face(fg: Color, bg: Color, attributes: seq<Attribute>)

  datatype Atom = Atom(face: Face, contents: string)

  /** `KakLine`: atoms in rendering order. */
  type Line = seq<Atom>

  /** `KakCoord`: zero-based line and column. */
  datatype Coord = Coord(line: U32, column: U32)

  /** The snake_case spelling of each attribute. */
  function AttributeName(a: Attribute): string {
    match a
    case Underline => "underline"
    case Reverse => "reverse"
    case Blink => "blink"
    case Bold => "bold"
    case Dim => "dim"
    case Italic => "italic"
    case FinalFg => "final_fg"
    case FinalBg => "final_bg"
    case FinalAttr => "final_attr"
  }

  const ATTRIBUTE_NAMES: set<string> :=
    {"underline", "reverse", "blink", "bold", "dim", "italic", "final_fg", "final_bg", "final_attr"}

  /** An attribute decodes only from one of the nine names, and from exactly
      the spelling of the attribute it yields. */
  function DecodeAttribute(j: Json): (r: Option<Attribute>)
    ensures r.Some? <==> j.JString? && j.s in ATTRIBUTE_NAMES
    ensures r.Some? ==> j == JString(AttributeName(r.value))
  {
    if !j.JString? then None
    else if j.s == "underline" then Some(Underline)
    else if j.s == "reverse" then Some(Reverse)
    else if j.s == "blink" then Some(Blink)
    else if j.s == "bold" then Some(Bold)
    else if j.s == "dim" then Some(Dim)
    else if j.s == "italic" then Some(Italic)
    else if j.s == "final_fg" then Some(FinalFg)
    else if j.s == "final_bg" then Some(FinalBg)
    else if j.s == "final_attr" then Some(FinalAttr)
    else None
  }

  /** A color decodes from any string, kept verbatim, and from nothing else. */
  function DecodeColor(j: Json): (r: Option<Color>)
    ensures r.Some? <==> j.JString?
    ensures r.Some? ==> j == JString(r.value.name)
  {
    var s :- DecodeString(j);
    Some(Color(s))
  }

  /** `Vec<KakAttribute>`: an array of attributes, in order. */
  function DecodeAttributes(j: Json): Option<seq<Attribute>> {
    if j.JArray? then DecodeAttributeItems(j.items) else None
  }

  function DecodeAttributeItems(xs: seq<Json>): (r: Option<seq<Attribute>>)
    ensures r.Some? ==> |r.value| == |xs|
  {
    if xs == [] then Some([])
    else
      var head :- DecodeAttribute(xs[0]);
      var tail :- DecodeAttributeItems(xs[1..]);
      Some([head] + tail)
  }

  /** A face decodes from an object with `fg`, `bg` and `attributes`; other
      fields are ignored. */
  function DecodeFace(j: Json): Option<Face> {
    var fg :- Field(j, "fg");
    var bg :- Field(j, "bg");
    var attributes :- Field(j, "attributes");
    var fgColor :- DecodeColor(fg);
    var bgColor :- DecodeColor(bg);
    var attrs :- DecodeAttributes(attributes);
    Some(Face(fgColor, bgColor, attrs))
  }

  /** An atom decodes from an object with a `face` and a string `contents`. */
  function DecodeAtom(j: Json): Option<Atom> {
    var face :- Field(j, "face");
    var contents :- Field(j, "contents");
    var f :- DecodeFace(face);
    var s :- DecodeString(contents);
    Some(Atom(f, s))
  }

  /** A line is an array of atoms, kept in rendering order. */
  function DecodeLine(j: Json): Option<Line> {
    if j.JArray? then DecodeAtomItems(j.items) else None
  }

  function DecodeAtomItems(xs: seq<Json>): (r: Option<Line>)
    ensures r.Some? ==> |r.value| == |xs|
  {
    if xs == [] then Some([])
    else
      var head :- DecodeAtom(xs[0]);
      var tail :- DecodeAtomItems(xs[1..]);
      Some([head] + tail)
  }

  /** `Vec<KakLine>`: an array of lines, in order. */
  function DecodeLines(j: Json): Option<seq<Line>> {
    if j.JArray? then DecodeLineItems(j.items) else None
  }

  function DecodeLineItems(xs: seq<Json>): (r: Option<seq<Line>>)
    ensures r.Some? ==> |r.value| == |xs|
  {
    if xs == [] then Some([])
    else
      var head :- DecodeLine(xs[0]);
      var tail :- DecodeLineItems(xs[1..]);
      Some([head] + tail)
  }

  /** A coordinate decodes from an object whose `line` and `column` are in `u32` range. */
  function DecodeCoord(j: Json): Option<Coord> {
    var line :- Field(j, "line");
    var column :- Field(j, "column");
    var l :- DecodeU32(line);
    var c :- DecodeU32(column);
    Some(Coord(l, c))
  }

  // The editor-side writer of these shapes.

  function AttributeToJson(a: Attribute): Json {
    JString(AttributeName(a))
  }

  function AttributesToJson(attrs: seq<Attribute>): Json {
    JArray(AttributeItems(attrs))
  }

  function AttributeItems(attrs: seq<Attribute>): (items: seq<Json>)
    ensures |items| == |attrs|
  {
    if attrs == [] then [] else [AttributeToJson(attrs[0])] + AttributeItems(attrs[1..])
  }

  function ColorToJson(c: Color): Json {
    JString(c.name)
  }

  function FaceToJson(f: Face): Json {
    JObject(map["fg" := ColorToJson(f.fg), "bg" := ColorToJson(f.bg),
                "attributes" := AttributesToJson(f.attributes)])
  }

  function AtomToJson(a: Atom): Json {
    JObject(map["face" := FaceToJson(a.face), "contents" := JString(a.contents)])
  }

  function LineToJson(l: Line): Json {
    JArray(AtomItems(l))
  }

  function AtomItems(l: Line): seq<Json> {
    if l == [] then [] else [AtomToJson(l[0])] + AtomItems(l[1..])
  }

  function LinesToJson(ls: seq<Line>): Json {
    JArray(LineItems(ls))
  }

  function LineItems(ls: seq<Line>): seq<Json> {
    if ls == [] then [] else [LineToJson(ls[0])] + LineItems(ls[1..])
  }

  function CoordToJson(c: Coord): Json {
    JObject(map["line" := JNumber(c.line), "column" := JNumber(c.column)])
  }

  // Exactness: the fields a decoder reads are exactly what the editor writes
  // for the decoded value (extra fields aside).

  /** An attribute array decodes to `attrs` only if it is exactly their
      spelling, in order, duplicates included. */
  lemma {:induction false} AttributeItemsExact(xs: seq<Json>)
    requires DecodeAttributeItems(xs).Some?
    ensures xs == AttributeItems(DecodeAttributeItems(xs).value)
  {
    if xs != [] {
      AttributeItemsExact(xs[1..]);
    }
  }

  /** A face decodes exactly from an object with string `fg` and `bg` and an
      attribute array `attributes`, and those fields are what the editor
      writes for the decoded face. */
  lemma FaceDecodeExact(j: Json)
    ensures DecodeFace(j).Some? <==>
      && j.JObject? && "fg" in j.fields && "bg" in j.fields && "attributes" in j.fields
      && j.fields["fg"].JString? && j.fields["bg"].JString?
      && DecodeAttributes(j.fields["attributes"]).Some?
    ensures DecodeFace(j).Some? ==>
      var f := DecodeFace(j).value;
      && j.fields["fg"] == ColorToJson(f.fg)
      && j.fields["bg"] == ColorToJson(f.bg)
      && j.fields["attributes"] == AttributesToJson(f.attributes)
  {
    if DecodeFace(j).Some? {
      AttributeItemsExact(j.fields["attributes"].items);
    }
  }

  /** An atom decodes exactly from an object with a face `face` and a string
      `contents`; the atom holds that face and that text. */
  lemma AtomDecodeExact(j: Json)
    ensures DecodeAtom(j).Some? <==>
      && j.JObject? && "face" in j.fields && "contents" in j.fields
      && DecodeFace(j.fields["face"]).Some? && j.fields["contents"].JString?
    ensures DecodeAtom(j).Some? ==>
      && DecodeFace(j.fields["face"]) == Some(DecodeAtom(j).value.face)
      && j.fields["contents"] == JString(DecodeAtom(j).value.contents)
  {
  }

  /** An array decodes as atoms exactly when every element is an atom, and
      then element i is atom i. */
  lemma {:induction false} AtomItemsExact(xs: seq<Json>)
    ensures DecodeAtomItems(xs).Some? <==> forall i :: 0 <= i < |xs| ==> DecodeAtom(xs[i]).Some?
    ensures DecodeAtomItems(xs).Some? ==>
      forall i :: 0 <= i < |xs| ==> DecodeAtom(xs[i]) == Some(DecodeAtomItems(xs).value[i])
  {
    if xs != [] {
      AtomItemsExact(xs[1..]);
      assert forall i :: 1 <= i < |xs| ==> xs[i] == xs[1..][i - 1];
    }
  }

  /** A line decodes exactly from an array of atoms, one atom per element,
      in order; anything but an array fails. */
  lemma LineDecodeExact(j: Json)
    ensures DecodeLine(j).Some? <==>
      j.JArray? && forall i :: 0 <= i < |j.items| ==> DecodeAtom(j.items[i]).Some?
    ensures DecodeLine(j).Some? ==>
      && |DecodeLine(j).value| == |j.items|
      && forall i :: 0 <= i < |j.items| ==> DecodeAtom(j.items[i]) == Some(DecodeLine(j).value[i])
  {
    if j.JArray? {
      AtomItemsExact(j.items);
    }
  }

  /** An array decodes as lines exactly when every element is a line, and
      then element i is line i. */
  lemma {:induction false} LineItemsExact(xs: seq<Json>)
    ensures DecodeLineItems(xs).Some? <==> forall i :: 0 <= i < |xs| ==> DecodeLine(xs[i]).Some?
    ensures DecodeLineItems(xs).Some? ==>
      forall i :: 0 <= i < |xs| ==> DecodeLine(xs[i]) == Some(DecodeLineItems(xs).value[i])
  {
    if xs != [] {
      LineItemsExact(xs[1..]);
      assert forall i :: 1 <= i < |xs| ==> xs[i] == xs[1..][i - 1];
    }
  }

  /** `Vec<KakLine>` decodes exactly from an array of lines, one per element,
      in order; anything but an array fails. */
  lemma LinesDecodeExact(j: Json)
    ensures DecodeLines(j).Some? <==>
      j.JArray? && forall i :: 0 <= i < |j.items| ==> DecodeLine(j.items[i]).Some?
    ensures DecodeLines(j).Some? ==>
      && |DecodeLines(j).value| == |j.items|
      && forall i :: 0 <= i < |j.items| ==> DecodeLine(j.items[i]) == Some(DecodeLines(j).value[i])
  {
    if j.JArray? {
      LineItemsExact(j.items);
    }
  }

  /** A coordinate decodes exactly from an object whose `line` and `column`
      are numbers in `u32` range, and holds those numbers. */
  lemma CoordDecodeExact(j: Json)
    ensures DecodeCoord(j).Some? <==>
      && j.JObject? && "line" in j.fields && "column" in j.fields
      && DecodeU32(j.fields["line"]).Some? && DecodeU32(j.fields["column"]).Some?
    ensures DecodeCoord(j).Some? ==>
      && j.fields["line"] == JNumber(DecodeCoord(j).value.line)
      && j.fields["column"] == JNumber(DecodeCoord(j).value.column)
  {
  }

  // Round trips: every value the editor can write decodes back to itself.

  lemma AttributeRoundTrip(a: Attribute)
    ensures DecodeAttribute(AttributeToJson(a)) == Some(a)
  {
  }

  lemma {:induction false} AttributeItemsRoundTrip(attrs: seq<Attribute>)
    ensures DecodeAttributeItems(AttributeItems(attrs)) == Some(attrs)
  {
    if attrs != [] {
      AttributeRoundTrip(attrs[0]);
      AttributeItemsRoundTrip(attrs[1..]);
      assert [attrs[0]] + attrs[1..] == attrs;
    }
  }

  lemma {:induction false} FaceRoundTrip(f: Face)
    ensures DecodeFace(FaceToJson(f)) == Some(f)
  {
    AttributeItemsRoundTrip(f.attributes);
  }

  lemma {:induction false} AtomRoundTrip(a: Atom)
    ensures DecodeAtom(AtomToJson(a)) == Some(a)
  {
    FaceRoundTrip(a.face);
  }

  lemma {:induction false} AtomItemsRoundTrip(l: Line)
    ensures DecodeAtomItems(AtomItems(l)) == Some(l)
  {
    if l != [] {
      AtomRoundTrip(l[0]);
      AtomItemsRoundTrip(l[1..]);
      assert [l[0]] + l[1..] == l;
    }
  }

  lemma {:induction false} LineRoundTrip(l: Line)
    ensures DecodeLine(LineToJson(l)) == Some(l)
  {
    AtomItemsRoundTrip(l);
  }

  lemma {:induction false} LineItemsRoundTrip(ls: seq<Line>)
    ensures DecodeLineItems(LineItems(ls)) == Some(ls)
  {
    if ls != [] {
      LineRoundTrip(ls[0]);
      LineItemsRoundTrip(ls[1..]);
      assert [ls[0]] + ls[1..] == ls;
    }
  }

  lemma {:induction false} LinesRoundTrip(ls: seq<Line>)
    ensures DecodeLines(LinesToJson(ls)) == Some(ls)
  {
    LineItemsRoundTrip(ls);
  }

  lemma CoordRoundTrip(c: Coord)
    ensures DecodeCoord(CoordToJson(c)) == Some(c)
  {
  }
}
