/**
 JSON text as HandBrake prints it (RFC 8259, section 4 objects, section 5 arrays,
 section 7 strings), with arbitrary whitespace and escapes, and its way through the
 scanner and the read loop.
 */
module JsonText {
  import opened Wrappers
  import opened Scanner
  import opened Stream

  /** One character of a string: itself, a two-character escape, or a \u escape. */
  datatype JChar = Raw(c: char) | Short(c: char) | Unicode(hex: string)

  /** `Scalar` is the text of a number or of true, false, null.  Each `pad` is whitespace. */
  datatype Json =
    | Text(chars: seq<JChar>)
    | Scalar(token: string)
    | Array(pad: string, elements: Elements)
    | Object(pad: string, members: Members)

  datatype Elements = NoElements | Element(before: string, value: Json, after: string, rest: Elements)

  datatype Members =
    | NoMembers
    | Member(before: string, name: seq<JChar>, colon: string, value: Json, after: string, rest: Members)

  predicate IsPad(s: string) {
    forall i :: 0 <= i < |s| ==> s[i] in " \t\n\r"
  }

  /** Free of the characters the scanner reacts to. */
  predicate Inert(s: string) {
    forall i :: 0 <= i < |s| ==> s[i] != '"' && s[i] != '{' && s[i] != '}'
  }

  predicate CharOk(x: JChar) {
    match x
    case Raw(c) => c != '"' && c != '\\' && c >= ' '
    case Short(c) => c in "\"\\/bfnrt"
    case Unicode(hex) => |hex| == 4 && forall k :: 0 <= k < 4 ==> hex[k] in "0123456789abcdefABCDEF"
  }

  predicate CharsOk(chars: seq<JChar>) {
    forall i :: 0 <= i < |chars| ==> CharOk(chars[i])
  }

  predicate JsonOk(v: Json) {
    match v
    case Text(chars) => CharsOk(chars)
    case Scalar(token) => Inert(token)
    case Array(pad, elements) => IsPad(pad) && ElementsOk(elements)
    case Object(pad, members) => IsPad(pad) && MembersOk(members)
  }

  predicate ElementsOk(es: Elements) {
    match es
    case NoElements => true
    case Element(before, value, after, rest) => IsPad(before) && JsonOk(value) && IsPad(after) && ElementsOk(rest)
  }

  predicate IsColon(s: string) {
    exists i :: 0 <= i < |s| && s[i] == ':' && IsPad(s[..i]) && IsPad(s[i + 1..])
  }

  predicate MembersOk(ms: Members) {
    match ms
    case NoMembers => true
    case Member(before, name, colon, value, after, rest) =>
      IsPad(before) && CharsOk(name) && IsColon(colon) && JsonOk(value) && IsPad(after) && MembersOk(rest)
  }

  // ---- printing ----------------------------------------------------------

  function CharText(x: JChar): string {
    match x
    case Raw(c) => [c]
    case Short(c) => ['\\', c]
    case Unicode(hex) => "\\u" + hex
  }

  function CharsText(chars: seq<JChar>): string {
    if chars == [] then "" else CharText(chars[0]) + CharsText(chars[1..])
  }

  function JsonString(v: Json): string {
    match v
    case Text(chars) => "\"" + CharsText(chars) + "\""
    case Scalar(token) => token
    case Array(pad, elements) => "[" + pad + ElementsText(elements) + "]"
    case Object(pad, members) => "{" + (pad + MembersText(members)) + "}"
  }

  function ElementsText(es: Elements): string {
    match es
    case NoElements => ""
    case Element(before, value, after, rest) =>
      before + JsonString(value) + after + (if rest.NoElements? then "" else ",") + ElementsText(rest)
  }

  function MembersText(ms: Members): string {
    match ms
    case NoMembers => ""
    case Member(before, name, colon, value, after, rest) =>
      before + "\"" + CharsText(name) + "\"" + colon + JsonString(value) + after +
      (if rest.NoMembers? then "" else ",") + MembersText(rest)
  }

  // ---- printed JSON in the scanner's grammar -----------------------------

  function Join(ps: Pieces, qs: Pieces): Pieces {
    match ps
    case Nil => qs
    case Cons(p, rest) => Cons(p, Join(rest, qs))
  }

  lemma {:induction false} JoinText(ps: Pieces, qs: Pieces)
    ensures PiecesText(Join(ps, qs)) == PiecesText(ps) + PiecesText(qs)
    ensures PiecesOk(ps) && PiecesOk(qs) ==> PiecesOk(Join(ps, qs))
    decreases ps
  {
    match ps
    case Nil => assert "" + PiecesText(qs) == PiecesText(qs);
    case Cons(p, rest) =>
      JoinText(rest, qs);
      assert PieceText(p) + (PiecesText(rest) + PiecesText(qs)) == (PieceText(p) + PiecesText(rest)) + PiecesText(qs);
  }

  /** `s` is the text of a well-formed list of pieces. */
  ghost predicate Reads(s: string) {
    exists ps :: PiecesOk(ps) && PiecesText(ps) == s
  }

  lemma ReadsConcat(s: string, t: string)
    requires Reads(s) && Reads(t)
    ensures Reads(s + t)
  {
    var ps :| PiecesOk(ps) && PiecesText(ps) == s;
    var qs :| PiecesOk(qs) && PiecesText(qs) == t;
    JoinText(ps, qs);
    assert PiecesOk(Join(ps, qs)) && PiecesText(Join(ps, qs)) == s + t;
  }

  lemma ReadsPiece(p: Piece)
    requires PieceOk(p)
    ensures Reads(PieceText(p))
  {
    var ps := Cons(p, Nil);
    assert PiecesText(ps) == PieceText(p) + PiecesText(Nil) && PiecesText(Nil) == "";
    assert PiecesOk(Nil) && PiecesOk(ps) && PiecesText(ps) == PieceText(p);
  }

  lemma {:induction false} ReadsInert(s: string)
    requires Inert(s)
    ensures Reads(s)
    decreases |s|
  {
    if s == "" {
      assert PiecesOk(Nil) && PiecesText(Nil) == s;
    } else {
      ReadsPiece(Char(s[0]));
      ReadsInert(s[1..]);
      ReadsConcat([s[0]], s[1..]);
      assert [s[0]] + s[1..] == s;
    }
  }

  function Digits(hex: string): seq<Quotable> {
    if hex == "" then [] else [Plain(hex[0])] + Digits(hex[1..])
  }

  /** One JSON character as the scanner's grammar reads it. */
  function CharBody(x: JChar): seq<Quotable> {
    match x
    case Raw(c) => [Plain(c)]
    case Short(c) => [Escape(c)]
    case Unicode(hex) => [Escape('u')] + Digits(hex)
  }

  function Body(chars: seq<JChar>): seq<Quotable> {
    if chars == [] then [] else CharBody(chars[0]) + Body(chars[1..])
  }

  lemma {:induction false} QuotedConcat(a: seq<Quotable>, b: seq<Quotable>)
    ensures QuotedText(a + b) == QuotedText(a) + QuotedText(b)
    decreases |a|
  {
    if a == [] {
      assert a + b == b;
    } else {
      assert (a + b)[1..] == a[1..] + b;
      QuotedConcat(a[1..], b);
    }
  }

  lemma {:induction false} DigitsText(hex: string)
    requires forall k :: 0 <= k < |hex| ==> hex[k] != '"' && hex[k] != '\\'
    ensures QuotedText(Digits(hex)) == hex && QuotedOk(Digits(hex))
    decreases |hex|
  {
    if hex != "" {
      DigitsText(hex[1..]);
      assert Digits(hex)[1..] == Digits(hex[1..]);
      assert [hex[0]] + hex[1..] == hex;
    }
  }

  lemma OneText(x: Quotable)
    ensures QuotedText([x]) == if x.Plain? then [x.c] else ['\\', x.c]
  {
    assert [x][1..] == [];
    assert x.Plain? ==> [x.c] + "" == [x.c];
    assert ['\\', x.c] + "" == ['\\', x.c];
  }

  lemma HexIsPlain(hex: string)
    requires CharOk(Unicode(hex))
    ensures forall k :: 0 <= k < |hex| ==> hex[k] != '"' && hex[k] != '\\'
  {
  }

  lemma EscapedText(c: char, body: seq<Quotable>)
    ensures QuotedText([Escape(c)] + body) == ['\\', c] + QuotedText(body)
  {
    OneText(Escape(c));
    QuotedConcat([Escape(c)], body);
  }

  lemma {:induction false} UnicodeText(hex: string)
    requires CharOk(Unicode(hex))
    ensures QuotedText([Escape('u')] + Digits(hex)) == "\\u" + hex && QuotedOk(Digits(hex))
  {
    HexIsPlain(hex);
    DigitsText(hex);
    EscapedText('u', Digits(hex));
    assert ['\\', 'u'] == "\\u";
  }

  lemma CharBodyText(x: JChar)
    requires CharOk(x)
    ensures QuotedText(CharBody(x)) == CharText(x) && QuotedOk(CharBody(x))
  {
    match x
    case Raw(c) => OneText(Plain(c));
    case Short(c) => OneText(Escape(c));
    case Unicode(hex) => UnicodeText(hex);
  }

  lemma {:induction false} BodyText(chars: seq<JChar>)
    requires CharsOk(chars)
    ensures QuotedText(Body(chars)) == CharsText(chars) && QuotedOk(Body(chars))
    decreases |chars|
  {
    if chars != [] {
      assert CharOk(chars[0]);
      BodyText(chars[1..]);
      CharBodyText(chars[0]);
      QuotedConcat(CharBody(chars[0]), Body(chars[1..]));
    }
  }

  lemma ReadsString(chars: seq<JChar>)
    requires CharsOk(chars)
    ensures Reads("\"" + CharsText(chars) + "\"")
  {
    BodyText(chars);
    ReadsPiece(Quoted(Body(chars)));
  }

  lemma ReadsColon(s: string)
    requires IsColon(s)
    ensures Reads(s)
  {
    var i :| 0 <= i < |s| && s[i] == ':' && IsPad(s[..i]) && IsPad(s[i + 1..]);
    forall k | 0 <= k < |s| ensures s[k] != '"' && s[k] != '{' && s[k] != '}' {
      if k < i {
        assert s[k] == s[..i][k];
      } else if k > i {
        assert s[k] == s[i + 1..][k - i - 1];
      }
    }
    ReadsInert(s);
  }

  /** A printed object is one brace block. */
  lemma BlockOf(v: Json) returns (ps: Pieces)
    requires v.Object? && JsonOk(v) && Reads(v.pad + MembersText(v.members))
    ensures PieceOk(Braces(ps)) && PieceText(Braces(ps)) == JsonString(v)
  {
    ps :| PiecesOk(ps) && PiecesText(ps) == v.pad + MembersText(v.members);
  }

  lemma {:induction false} ReadsJson(v: Json)
    requires JsonOk(v)
    ensures Reads(JsonString(v))
    decreases v
  {
    match v
    case Text(chars) => ReadsString(chars);
    case Scalar(token) => ReadsInert(token);
    case Array(pad, elements) =>
      ReadsInert("[" + pad);
      ReadsElements(elements);
      ReadsInert("]");
      ReadsConcat("[" + pad, ElementsText(elements));
      ReadsConcat("[" + pad + ElementsText(elements), "]");
    case Object(pad, members) =>
      ReadsInert(pad);
      ReadsMembers(members);
      ReadsConcat(pad, MembersText(members));
      var ps := BlockOf(v);
      ReadsPiece(Braces(ps));
  }

  lemma {:induction false} ReadsElements(es: Elements)
    requires ElementsOk(es)
    ensures Reads(ElementsText(es))
    decreases es
  {
    match es
    case NoElements => ReadsInert("");
    case Element(before, value, after, rest) =>
      ReadsInert(before);
      ReadsJson(value);
      ReadsConcat(before, JsonString(value));
      ReadsInert(after);
      ReadsConcat(before + JsonString(value), after);
      var comma := if rest.NoElements? then "" else ",";
      ReadsInert(comma);
      ReadsConcat(before + JsonString(value) + after, comma);
      ReadsElements(rest);
      ReadsConcat(before + JsonString(value) + after + comma, ElementsText(rest));
  }

  lemma ReadsName(before: string, name: seq<JChar>)
    requires IsPad(before) && CharsOk(name)
    ensures Reads(before + "\"" + CharsText(name) + "\"")
  {
    var quoted := "\"" + CharsText(name) + "\"";
    ReadsInert(before);
    ReadsString(name);
    ReadsConcat(before, quoted);
    assert before + quoted == before + "\"" + CharsText(name) + "\"";
  }

  lemma {:induction false} ReadsMembers(ms: Members)
    requires MembersOk(ms)
    ensures Reads(MembersText(ms))
    decreases ms
  {
    match ms
    case NoMembers => ReadsInert("");
    case Member(before, name, colon, value, after, rest) =>
      ReadsName(before, name);
      ReadsJson(value);
      var head := before + "\"" + CharsText(name) + "\"";
      ReadsColon(colon);
      ReadsConcat(head, colon);
      ReadsConcat(head + colon, JsonString(value));
      ReadsInert(after);
      ReadsConcat(head + colon + JsonString(value), after);
      var comma := if rest.NoMembers? then "" else ",";
      ReadsInert(comma);
      ReadsConcat(head + colon + JsonString(value) + after, comma);
      ReadsMembers(rest);
      ReadsConcat(head + colon + JsonString(value) + after + comma, MembersText(rest));
  }

  // ---- a stream of printed objects ---------------------------------------

  /** Text between objects: anything without a quote or an opening brace. */
  predicate IsNoise(s: string) {
    forall i :: 0 <= i < |s| ==> s[i] != '"' && s[i] != '{'
  }

  predicate ObjectsOk(objects: seq<Json>) {
    forall i :: 0 <= i < |objects| ==> objects[i].Object? && JsonOk(objects[i])
  }

  /** Noise, then each object followed by more noise. */
  function Printed(lead: string, objects: seq<Json>, noise: seq<string>): string
    requires |noise| == |objects|
  {
    if objects == [] then lead
    else
      var n := |objects| - 1;
      Printed(lead, objects[..n], noise[..n]) + JsonString(objects[n]) + noise[n]
  }

  lemma {:induction false} NoiseScan(s: string)
    requires IsNoise(s)
    ensures After(REST, s) == REST && Slices(REST, s) == []
    decreases |s|
  {
    if s != "" {
      NoiseScan(s[..|s| - 1]);
    }
  }

  lemma ObjectScan(v: Json)
    requires v.Object? && JsonOk(v)
    ensures After(REST, JsonString(v)) == REST && Slices(REST, JsonString(v)) == [JsonString(v)]
  {
    ReadsInert(v.pad);
    ReadsMembers(v.members);
    ReadsConcat(v.pad, MembersText(v.members));
    var ps := BlockOf(v);
    TopScan(Braces(ps));
  }

  function Texts(objects: seq<Json>): seq<string> {
    if objects == [] then [] else Texts(objects[..|objects| - 1]) + [JsonString(objects[|objects| - 1])]
  }

  /** The scanner cuts the printed objects out of the stream, exactly. */
  lemma {:induction false} PrintedScan(lead: string, objects: seq<Json>, noise: seq<string>)
    requires |noise| == |objects| && ObjectsOk(objects)
    requires IsNoise(lead) && forall i :: 0 <= i < |noise| ==> IsNoise(noise[i])
    ensures After(REST, Printed(lead, objects, noise)) == REST
    ensures Slices(REST, Printed(lead, objects, noise)) == Texts(objects)
    decreases |objects|
  {
    if objects == [] {
      NoiseScan(lead);
    } else {
      var n := |objects| - 1;
      PrintedScan(lead, objects[..n], noise[..n]);
      var before := Printed(lead, objects[..n], noise[..n]);
      ObjectScan(objects[n]);
      NoiseScan(noise[n]);
      ScanConcat(REST, before, JsonString(objects[n]));
      ScanConcat(REST, before + JsonString(objects[n]), noise[n]);
      assert Texts(objects[..n]) + [JsonString(objects[n])] + [] == Texts(objects);
    }
  }

  /** The decoder reads each printed object back. */
  predicate Inverse<O(==)>(load: string -> Loaded<O>, objects: seq<Json>, values: seq<O>) {
    |values| == |objects| && forall i :: 0 <= i < |objects| ==> load(JsonString(objects[i])) == Dict(values[i])
  }

  lemma {:induction false} TextsDecode<O>(load: string -> Loaded<O>, objects: seq<Json>, values: seq<O>)
    requires Inverse(load, objects, values)
    ensures Decoded(Texts(objects), load) == Some(values)
    decreases |objects|
  {
    if objects == [] {
      assert values == [];
    } else {
      var n := |objects| - 1;
      TextsDecode(load, objects[..n], values[..n]);
      DecodeOne(Texts(objects[..n]), JsonString(objects[n]), load);
      assert values[..n] + [values[n]] == values;
    }
  }

  /** Streaming round trip: print any objects, with any whitespace, escapes and noise,
      cut the text into lines in any way that leaves no object open on a line that ended
      one or dropped the buffer: the read loop handles exactly those objects, in order,
      none lost and none repeated. */
  lemma StreamRoundTrip<O>(lead: string, objects: seq<Json>, noise: seq<string>, lines: seq<string>,
                            cap: nat, load: string -> Loaded<O>, values: seq<O>)
    requires |noise| == |objects| && ObjectsOk(objects)
    requires IsNoise(lead) && forall i :: 0 <= i < |noise| ==> IsNoise(noise[i])
    requires Flat(lines) == Printed(lead, objects, noise)
    requires Inverse(load, objects, values)
    requires Safe(lines, cap, load)
    ensures ReadAll(lines, cap, load).Reading? && ReadAll(lines, cap, load).handled == values
  {
    PrintedScan(lead, objects, noise);
    TextsDecode(load, objects, values);
    IncrementalEqualsBatch(lines, cap, load);
  }
}
