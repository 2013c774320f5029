/**
 The brace scanner that finds JSON objects in HandBrake's output, against a grammar of
 its own: text is a sequence of plain characters, quoted strings and balanced brace
 blocks, with possibly an unfinished string or block at the end.
 */
module Scanner {
  import opened Wrappers

  // ---- the grammar -------------------------------------------------------

  /** A character of a quoted string, or a backslash and whatever follows it. */
  datatype Quotable = Plain(c: char) | Escape(c: char)

  datatype Piece = Char(c: char) | Quoted(body: seq<Quotable>) | Braces(pieces: Pieces)

  datatype Pieces = Nil | Cons(head: Piece, tail: Pieces)

  /** What is left open at the end of a text. */
  datatype Tail = Done | OpenString(body: seq<Quotable>, slash: bool) | OpenBraces(pieces: Pieces, rest: Tail)

  function QuotedText(body: seq<Quotable>): string {
    if body == [] then ""
    else (if body[0].Plain? then [body[0].c] else ['\\', body[0].c]) + QuotedText(body[1..])
  }

  function PieceText(p: Piece): string {
    match p
    case Char(c) => [c]
    case Quoted(body) => "\"" + QuotedText(body) + "\""
    case Braces(body) => "{" + PiecesText(body) + "}"
  }

  function PiecesText(ps: Pieces): string {
    match ps
    case Nil => ""
    case Cons(p, rest) => PieceText(p) + PiecesText(rest)
  }

  function TailText(t: Tail): string {
    match t
    case Done => ""
    case OpenString(body, slash) => "\"" + QuotedText(body) + if slash then "\\" else ""
    case OpenBraces(body, rest) => "{" + PiecesText(body) + TailText(rest)
  }

  function TopText(tops: seq<Piece>): string {
    if tops == [] then "" else TopText(tops[..|tops| - 1]) + PieceText(tops[|tops| - 1])
  }

  predicate QuotedOk(body: seq<Quotable>) {
    forall i :: 0 <= i < |body| ==> body[i].Plain? ==> body[i].c != '"' && body[i].c != '\\'
  }

  /** Inside braces a brace or a quote is never a plain character. */
  predicate PieceOk(p: Piece) {
    match p
    case Char(c) => c != '"' && c != '{' && c != '}'
    case Quoted(body) => QuotedOk(body)
    case Braces(body) => PiecesOk(body)
  }

  predicate PiecesOk(ps: Pieces) {
    match ps
    case Nil => true
    case Cons(p, rest) => PieceOk(p) && PiecesOk(rest)
  }

  predicate TailOk(t: Tail) {
    match t
    case Done => true
    case OpenString(body, _) => QuotedOk(body)
    case OpenBraces(body, rest) => PiecesOk(body) && TailOk(rest)
  }

  /** Outside every block a stray closing brace is a plain character. */
  predicate TopOk(p: Piece) {
    p == Char('}') || PieceOk(p)
  }

  predicate TopsOk(tops: seq<Piece>) {
    forall i :: 0 <= i < |tops| ==> TopOk(tops[i])
  }

  /** The texts of the top-level blocks, in order. */
  function Blocks(tops: seq<Piece>): seq<string> {
    if tops == [] then []
    else Blocks(tops[..|tops| - 1]) +
         if tops[|tops| - 1].Braces? then [PieceText(tops[|tops| - 1])] else []
  }

  function TailDepth(t: Tail): nat {
    if t.OpenBraces? then 1 + TailDepth(t.rest) else 0
  }

  // ---- every text has a decomposition ------------------------------------

  function Snoc(ps: Pieces, p: Piece): Pieces {
    match ps
    case Nil => Cons(p, Nil)
    case Cons(q, rest) => Cons(q, Snoc(rest, p))
  }

  lemma {:induction false} SnocText(ps: Pieces, p: Piece)
    ensures PiecesText(Snoc(ps, p)) == PiecesText(ps) + PieceText(p)
    ensures PiecesOk(Snoc(ps, p)) <==> PiecesOk(ps) && PieceOk(p)
  {
    if ps.Cons? {
      SnocText(ps.tail, p);
      assert PieceText(ps.head) + (PiecesText(ps.tail) + PieceText(p)) == PiecesText(ps) + PieceText(p);
    }
  }

  lemma {:induction false} QuotedSnoc(body: seq<Quotable>, x: Quotable)
    ensures QuotedText(body + [x]) == QuotedText(body) + QuotedText([x])
  {
    if body == [] {
      assert [x][1..] == [];
    } else {
      assert (body + [x])[1..] == body[1..] + [x];
      QuotedSnoc(body[1..], x);
    }
  }

  datatype Pushed = Still(tail: Tail) | Shut(piece: Piece)

  /** One more character of an unfinished string or block. */
  function Push(t: Tail, c: char): Pushed
    requires !t.Done?
  {
    match t
    case OpenString(body, slash) =>
      if slash then Still(OpenString(body + [Escape(c)], false))
      else if c == '\\' then Still(OpenString(body, true))
      else if c == '"' then Shut(Quoted(body))
      else Still(OpenString(body + [Plain(c)], false))
    case OpenBraces(body, rest) =>
      if rest.Done? then
        if c == '"' then Still(OpenBraces(body, OpenString([], false)))
        else if c == '{' then Still(OpenBraces(body, OpenBraces(Nil, Done)))
        else if c == '}' then Shut(Braces(body))
        else Still(OpenBraces(Snoc(body, Char(c)), Done))
      else match Push(rest, c)
        case Still(r) => Still(OpenBraces(body, r))
        case Shut(p) => Still(OpenBraces(Snoc(body, p), Done))
  }

  /** Pushing `c` keeps the text and the grammar. */
  predicate Pushes(t: Tail, c: char, r: Pushed) {
    match r
    case Still(u) => TailOk(u) && !u.Done? && TailText(u) == TailText(t) + [c]
    case Shut(p) => PieceOk(p) && PieceText(p) == TailText(t) + [c]
  }

  lemma PushString(body: seq<Quotable>, slash: bool, c: char)
    requires QuotedOk(body)
    ensures Pushes(OpenString(body, slash), c, Push(OpenString(body, slash), c))
  {
    var x := if slash then Escape(c) else Plain(c);
    QuotedSnoc(body, x);
    assert [x][1..] == [];
    if slash {
      assert "\"" + QuotedText(body) + "\\" + [c] == "\"" + (QuotedText(body) + ['\\', c]) + "";
    } else if c != '\\' && c != '"' {
      assert "\"" + QuotedText(body) + "" + [c] == "\"" + (QuotedText(body) + [c]) + "";
    }
  }

  lemma PushBraces(body: Pieces, c: char)
    requires PiecesOk(body)
    ensures Pushes(OpenBraces(body, Done), c, Push(OpenBraces(body, Done), c))
  {
    if c != '"' && c != '{' && c != '}' {
      SnocText(body, Char(c));
      assert "{" + PiecesText(body) + "" + [c] == "{" + (PiecesText(body) + [c]) + "";
    } else {
      assert "{" + PiecesText(body) + "" + [c] == "{" + PiecesText(body) + [c];
      assert QuotedText([]) == "" && PiecesText(Nil) == "";
    }
  }

  lemma {:induction false} PushText(t: Tail, c: char)
    requires !t.Done? && TailOk(t)
    ensures Pushes(t, c, Push(t, c))
    decreases t
  {
    match t
    case OpenString(body, slash) => PushString(body, slash, c);
    case OpenBraces(body, rest) =>
      if rest.Done? {
        PushBraces(body, c);
      } else {
        PushText(rest, c);
        match Push(rest, c)
        case Still(r) =>
          assert "{" + PiecesText(body) + TailText(rest) + [c] == "{" + PiecesText(body) + (TailText(rest) + [c]);
        case Shut(p) =>
          SnocText(body, p);
          assert "{" + PiecesText(body) + TailText(rest) + [c]
              == "{" + (PiecesText(body) + (TailText(rest) + [c])) + "";
      }
  }

  datatype Parts = Parts(tops: seq<Piece>, tail: Tail)

  function Decompose(s: string): Parts {
    if s == "" then Parts([], Done)
    else
      var Parts(tops, tail) := Decompose(s[..|s| - 1]);
      var c := s[|s| - 1];
      if tail.Done? then
        if c == '"' then Parts(tops, OpenString([], false))
        else if c == '{' then Parts(tops, OpenBraces(Nil, Done))
        else Parts(tops + [Char(c)], Done)
      else match Push(tail, c)
        case Still(t) => Parts(tops, t)
        case Shut(p) => Parts(tops + [p], Done)
  }

  function TextOf(d: Parts): string {
    TopText(d.tops) + TailText(d.tail)
  }

  predicate PartsOk(d: Parts) {
    TopsOk(d.tops) && TailOk(d.tail)
  }

  lemma TopSnoc(tops: seq<Piece>, p: Piece)
    requires TopsOk(tops) && TopOk(p)
    ensures TopsOk(tops + [p]) && TopText(tops + [p]) == TopText(tops) + PieceText(p)
  {
    assert (tops + [p])[..|tops|] == tops;
  }

  lemma DecomposedAtRest(tops: seq<Piece>, c: char)
    requires TopsOk(tops)
    ensures var d := Parts(tops, Done);
            var e := if c == '"' then Parts(tops, OpenString([], false))
                     else if c == '{' then Parts(tops, OpenBraces(Nil, Done))
                     else Parts(tops + [Char(c)], Done);
            PartsOk(e) && TextOf(e) == TextOf(d) + [c]
  {
    if c == '"' {
      assert TailText(OpenString([], false)) == [c];
    } else if c == '{' {
      assert TailText(OpenBraces(Nil, Done)) == [c];
    } else {
      TopSnoc(tops, Char(c));
    }
  }

  lemma DecomposedInside(d: Parts, c: char)
    requires PartsOk(d) && !d.tail.Done?
    ensures var e := match Push(d.tail, c)
                     case Still(t) => Parts(d.tops, t)
                     case Shut(p) => Parts(d.tops + [p], Done);
            PartsOk(e) && TextOf(e) == TextOf(d) + [c]
  {
    PushText(d.tail, c);
    if Push(d.tail, c).Shut? {
      TopSnoc(d.tops, Push(d.tail, c).piece);
    }
    assert TextOf(d) + [c] == TopText(d.tops) + (TailText(d.tail) + [c]);
  }

  /** The grammar generates every text. */
  lemma {:induction false} EveryTextDecomposes(s: string)
    ensures TopsOk(Decompose(s).tops) && TailOk(Decompose(s).tail)
    ensures TopText(Decompose(s).tops) + TailText(Decompose(s).tail) == s
  {
    if s != "" {
      var n := |s| - 1;
      EveryTextDecomposes(s[..n]);
      var d := Decompose(s[..n]);
      assert s == TextOf(d) + [s[n]];
      if d.tail.Done? {
        DecomposedAtRest(d.tops, s[n]);
      } else {
        DecomposedInside(d, s[n]);
      }
    }
  }

  // ---- the scanner -------------------------------------------------------

  datatype Mode = Out | In | Esc

  /** The scanner's variables; `open` is the text from `start` to here. */
  datatype Scan = Scan(depth: nat, open: string, mode: Mode)

  const REST := Scan(0, "", Out)

  function Grown(q: Scan, c: char): string {
    if q.depth == 0 then "" else q.open + [c]
  }

  function Next(q: Scan, c: char): Scan {
    match q.mode
    case Esc => Scan(q.depth, Grown(q, c), In)
    case In => Scan(q.depth, Grown(q, c), if c == '\\' then Esc else if c == '"' then Out else In)
    case Out =>
      if c == '"' then Scan(q.depth, Grown(q, c), In)
      else if c == '{' then Scan(q.depth + 1, if q.depth == 0 then "{" else q.open + "{", Out)
      else if c == '}' && q.depth == 1 then REST
      else if c == '}' && q.depth > 1 then Scan(q.depth - 1, Grown(q, c), Out)
      else Scan(q.depth, Grown(q, c), Out)
  }

  /** The slice a character completes. */
  function Completed(q: Scan, c: char): seq<string> {
    if q.mode.Out? && c == '}' && q.depth == 1 then [q.open + "}"] else []
  }

  function After(q: Scan, s: string): Scan {
    if s == "" then q else Next(After(q, s[..|s| - 1]), s[|s| - 1])
  }

  function Slices(q: Scan, s: string): seq<string> {
    if s == "" then []
    else Slices(q, s[..|s| - 1]) + Completed(After(q, s[..|s| - 1]), s[|s| - 1])
  }

  lemma {:induction false} ScanConcat(q: Scan, s: string, t: string)
    ensures After(q, s + t) == After(After(q, s), t)
    ensures Slices(q, s + t) == Slices(q, s) + Slices(After(q, s), t)
  {
    if t == "" {
      assert s + t == s;
    } else {
      var n := |t| - 1;
      assert (s + t)[..|s + t| - 1] == s + t[..n];
      ScanConcat(q, s, t[..n]);
    }
  }

  lemma ScanOne(q: Scan, c: char)
    ensures After(q, [c]) == Next(q, c) && Slices(q, [c]) == Completed(q, c)
  {
    assert [c][..0] == "";
  }

  /** The open text after `s` more characters of the block it belongs to. */
  function Opened(d: nat, o: string, s: string): string {
    if d == 0 then "" else o + s
  }

  /** Feeding `s` at depth `d` only extends the open text, and completes nothing. */
  predicate Passes(d: nat, o: string, from: Mode, s: string, to: Mode) {
    After(Scan(d, o, from), s) == Scan(d, Opened(d, o, s), to) && Slices(Scan(d, o, from), s) == []
  }

  lemma OpenedConcat(d: nat, o: string, s: string, t: string)
    ensures Opened(d, Opened(d, o, s), t) == Opened(d, o, s + t)
  {
    assert (o + s) + t == o + (s + t);
  }

  lemma PassesConcat(d: nat, o: string, from: Mode, s: string, mid: Mode, t: string, to: Mode)
    requires Passes(d, o, from, s, mid) && Passes(d, Opened(d, o, s), mid, t, to)
    ensures Passes(d, o, from, s + t, to)
  {
    OpenedConcat(d, o, s, t);
    var q := Scan(d, o, from);
    ScanConcat(q, s, t);
    var u := s + t;
    assert After(q, u) == Scan(d, Opened(d, o, u), to);
    assert Slices(q, u) == [];
  }

  lemma PassesOne(d: nat, o: string, from: Mode, c: char, to: Mode)
    requires d == 0 ==> o == ""
    requires Next(Scan(d, o, from), c).mode == to
    requires from != Out || (c != '{' && (d == 0 || c != '}'))
    ensures Passes(d, o, from, [c], to)
  {
    ScanOne(Scan(d, o, from), c);
  }

  /** Braces inside a string, and quotes after a backslash, never count. */
  lemma {:induction false} BodyPasses(d: nat, o: string, body: seq<Quotable>)
    requires QuotedOk(body) && (d == 0 ==> o == "")
    ensures Passes(d, o, In, QuotedText(body), In)
    decreases |body|
  {
    if body == [] {
      assert o + "" == o;
    } else if body[0].Plain? {
      var c := body[0].c;
      PassesOne(d, o, In, c, In);
      BodyPasses(d, Opened(d, o, [c]), body[1..]);
      PassesConcat(d, o, In, [c], In, QuotedText(body[1..]), In);
    } else {
      var c := body[0].c;
      PassesOne(d, o, In, '\\', Esc);
      PassesOne(d, Opened(d, o, "\\"), Esc, c, In);
      PassesConcat(d, o, In, "\\", Esc, [c], In);
      assert "\\" + [c] == ['\\', c];
      BodyPasses(d, Opened(d, o, ['\\', c]), body[1..]);
      PassesConcat(d, o, In, ['\\', c], In, QuotedText(body[1..]), In);
    }
  }

  lemma StringOpens(d: nat, o: string, body: seq<Quotable>)
    requires QuotedOk(body) && (d == 0 ==> o == "")
    ensures Passes(d, o, Out, "\"" + QuotedText(body), In)
  {
    PassesOne(d, o, Out, '"', In);
    BodyPasses(d, Opened(d, o, "\""), body);
    PassesConcat(d, o, Out, "\"", In, QuotedText(body), In);
  }

  lemma QuotedPasses(d: nat, o: string, body: seq<Quotable>)
    requires QuotedOk(body) && (d == 0 ==> o == "")
    ensures Passes(d, o, Out, PieceText(Quoted(body)), Out)
  {
    StringOpens(d, o, body);
    PassesOne(d, Opened(d, o, "\"" + QuotedText(body)), In, '"', Out);
    PassesConcat(d, o, Out, "\"" + QuotedText(body), In, "\"", Out);
  }

  lemma BraceOpens(d: nat, o: string, inner: string)
    requires d == 0 ==> o == ""
    requires Passes(d + 1, o + "{", Out, inner, Out)
    ensures After(Scan(d, o, Out), "{" + inner) == Scan(d + 1, o + ("{" + inner), Out)
    ensures Slices(Scan(d, o, Out), "{" + inner) == []
  {
    var q := Scan(d, o, Out);
    ScanOne(q, '{');
    assert d == 0 ==> o + "{" == "{";
    OpenedConcat(1, o, "{", inner);
    ScanConcat(q, "{", inner);
  }

  /** A block met at depth `d`: nothing completes inside it, and the block itself
      completes exactly when `d` is zero. */
  lemma BlockScan(d: nat, o: string, body: Pieces)
    requires d == 0 ==> o == ""
    requires Passes(d + 1, o + "{", Out, PiecesText(body), Out)
    ensures After(Scan(d, o, Out), PieceText(Braces(body))) == Scan(d, Opened(d, o, PieceText(Braces(body))), Out)
    ensures Slices(Scan(d, o, Out), PieceText(Braces(body))) == if d == 0 then [PieceText(Braces(body))] else []
  {
    BraceOpens(d, o, PiecesText(body));
    var s := "{" + PiecesText(body);
    var r := Scan(d + 1, o + s, Out);
    ScanConcat(Scan(d, o, Out), s, "}");
    ScanOne(r, '}');
    OpenedConcat(1, o, s, "}");
    assert d == 0 ==> o + (s + "}") == s + "}";
  }

  lemma {:induction false} PiecePasses(d: nat, o: string, p: Piece)
    requires d > 0 && PieceOk(p)
    ensures Passes(d, o, Out, PieceText(p), Out)
    decreases p
  {
    match p
    case Char(c) => PassesOne(d, o, Out, c, Out);
    case Quoted(body) => QuotedPasses(d, o, body);
    case Braces(body) =>
      PiecesPass(d + 1, o + "{", body);
      BlockScan(d, o, body);
  }

  lemma {:induction false} PiecesPass(d: nat, o: string, ps: Pieces)
    requires d > 0 && PiecesOk(ps)
    ensures Passes(d, o, Out, PiecesText(ps), Out)
    decreases ps
  {
    match ps
    case Nil => assert o + "" == o;
    case Cons(p, rest) =>
      PiecePasses(d, o, p);
      PiecesPass(d, o + PieceText(p), rest);
      PassesConcat(d, o, Out, PieceText(p), Out, PiecesText(rest), Out);
  }

  lemma TopScan(p: Piece)
    requires TopOk(p)
    ensures After(REST, PieceText(p)) == REST
    ensures Slices(REST, PieceText(p)) == if p.Braces? then [PieceText(p)] else []
  {
    match p
    case Char(c) => PassesOne(0, "", Out, c, Out);
    case Quoted(body) => QuotedPasses(0, "", body);
    case Braces(body) =>
      PiecesPass(1, "{", body);
      assert "" + "{" == "{";
      BlockScan(0, "", body);
  }

  lemma {:induction false} TopsScan(tops: seq<Piece>)
    requires TopsOk(tops)
    ensures After(REST, TopText(tops)) == REST
    ensures Slices(REST, TopText(tops)) == Blocks(tops)
  {
    if tops != [] {
      var n := |tops| - 1;
      TopsScan(tops[..n]);
      ScanConcat(REST, TopText(tops[..n]), PieceText(tops[n]));
      TopScan(tops[n]);
    }
  }

  /** The mode an unfinished text leaves the scanner in. */
  function TailMode(t: Tail): Mode {
    match t
    case Done => Out
    case OpenString(_, slash) => if slash then Esc else In
    case OpenBraces(_, rest) => TailMode(rest)
  }

  lemma OpenStringScan(d: nat, o: string, body: seq<Quotable>, slash: bool)
    requires QuotedOk(body) && (d == 0 ==> o == "")
    ensures Passes(d, o, Out, TailText(OpenString(body, slash)), if slash then Esc else In)
  {
    var s := "\"" + QuotedText(body);
    StringOpens(d, o, body);
    if slash {
      PassesOne(d, Opened(d, o, s), In, '\\', Esc);
      PassesConcat(d, o, Out, s, In, "\\", Esc);
    } else {
      assert TailText(OpenString(body, slash)) == s;
    }
  }

  predicate Leaves(q: Scan, s: string, depth: nat, mode: Mode) {
    Slices(q, s) == [] && After(q, s).depth == depth && After(q, s).mode == mode
  }

  /** An unfinished text met at depth `d` completes nothing and leaves its own blocks open. */
  predicate TailLeaves(d: nat, o: string, t: Tail) {
    Leaves(Scan(d, o, Out), TailText(t), d + TailDepth(t), TailMode(t))
  }

  lemma OpenStringLeaves(d: nat, o: string, body: seq<Quotable>, slash: bool)
    requires QuotedOk(body) && (d == 0 ==> o == "")
    ensures TailLeaves(d, o, OpenString(body, slash))
  {
    OpenStringScan(d, o, body, slash);
  }

  lemma BlockOpens(d: nat, o: string, body: Pieces)
    requires PiecesOk(body) && (d == 0 ==> o == "")
    ensures After(Scan(d, o, Out), "{" + PiecesText(body)) == Scan(d + 1, o + ("{" + PiecesText(body)), Out)
    ensures Slices(Scan(d, o, Out), "{" + PiecesText(body)) == []
  {
    PiecesPass(d + 1, o + "{", body);
    BraceOpens(d, o, PiecesText(body));
  }

  lemma LeavesAfter(q: Scan, s: string, r: Scan, t: string, depth: nat, mode: Mode)
    requires After(q, s) == r && Slices(q, s) == [] && Leaves(r, t, depth, mode)
    ensures Leaves(q, s + t, depth, mode)
  {
    ScanConcat(q, s, t);
    var u := s + t;
    assert Slices(q, u) == [] && After(q, u) == After(r, t);
  }

  lemma OpenBracesScan(d: nat, o: string, body: Pieces, rest: Tail)
    requires PiecesOk(body) && (d == 0 ==> o == "")
    requires TailLeaves(d + 1, o + ("{" + PiecesText(body)), rest)
    ensures TailLeaves(d, o, OpenBraces(body, rest))
  {
    BlockOpens(d, o, body);
    var s, u := "{" + PiecesText(body), TailText(rest);
    LeavesAfter(Scan(d, o, Out), s, Scan(d + 1, o + s, Out), u, d + 1 + TailDepth(rest), TailMode(rest));
  }

  lemma {:induction false} TailScan(d: nat, o: string, t: Tail)
    requires TailOk(t) && (d == 0 ==> o == "")
    ensures TailLeaves(d, o, t)
    decreases t
  {
    match t
    case Done =>
    case OpenString(body, slash) => OpenStringLeaves(d, o, body, slash);
    case OpenBraces(body, rest) =>
      TailScan(d + 1, o + ("{" + PiecesText(body)), rest);
      OpenBracesScan(d, o, body, rest);
  }

  lemma {:induction false} AfterRest(s: string, t: string, depth: nat, mode: Mode)
    requires After(REST, s) == REST && Leaves(REST, t, depth, mode)
    ensures Slices(REST, s + t) == Slices(REST, s)
    ensures After(REST, s + t).depth == depth && After(REST, s + t).mode == mode
  {
    ScanConcat(REST, s, t);
  }

  /** Whatever way a text is read by the grammar, the scanner cuts out exactly its
      top-level blocks, in order, and its depth is the number of blocks left open. */
  lemma {:induction false} ScannerIsExact(s: string, tops: seq<Piece>, tail: Tail)
    requires TopsOk(tops) && TailOk(tail) && s == TopText(tops) + TailText(tail)
    ensures Slices(REST, s) == Blocks(tops)
    ensures After(REST, s).depth == TailDepth(tail) && After(REST, s).mode == TailMode(tail)
  {
    TopsScan(tops);
    TailScan(0, "", tail);
    assert Scan(0, "", Out) == REST && 0 + TailDepth(tail) == TailDepth(tail);
    AfterRest(TopText(tops), TailText(tail), TailDepth(tail), TailMode(tail));
    assert Slices(REST, TopText(tops)) == Blocks(tops);
  }

  /** For every text there is such a reading, so the slices of any two agree. */
  lemma {:induction false} SlicesAreTheBlocks(s: string)
    ensures TopText(Decompose(s).tops) + TailText(Decompose(s).tail) == s
    ensures Slices(REST, s) == Blocks(Decompose(s).tops)
    ensures After(REST, s).depth == TailDepth(Decompose(s).tail)
  {
    EveryTextDecomposes(s);
    ScannerIsExact(s, Decompose(s).tops, Decompose(s).tail);
  }

  /** Only a closing brace completes a slice. */
  lemma {:induction false} NoBraceNoSlice(q: Scan, s: string)
    requires '}' !in s
    ensures Slices(q, s) == []
  {
    if s != "" {
      NoBraceNoSlice(q, s[..|s| - 1]);
      assert s[|s| - 1] in s;
    }
  }

  // ---- decoding the slices -----------------------------------------------

  /** What json.loads makes of a slice: a dict, another value, a JSONDecodeError, or
      any other exception, which the scanner does not catch. */
  datatype Loaded<+O> = Dict(o: O) | NotDict | Malformed | Raises

  /** The dicts among the slices, or None if a decode raises. */
  function Decoded<O>(slices: seq<string>, load: string -> Loaded<O>): Option<seq<O>> {
    if slices == [] then Some([])
    else
      var n := |slices| - 1;
      match Decoded(slices[..n], load)
      case None => None
      case Some(os) =>
        match load(slices[n])
        case Dict(o) => Some(os + [o])
        case Raises => None
        case _ => Some(os)
  }

  lemma {:induction false} DecodedConcat<O>(a: seq<string>, b: seq<string>, load: string -> Loaded<O>)
    ensures Decoded(a, load).None? || Decoded(b, load).None? ==> Decoded(a + b, load) == None
    ensures Decoded(a, load).Some? && Decoded(b, load).Some? ==>
              Decoded(a + b, load) == Some(Decoded(a, load).value + Decoded(b, load).value)
  {
    if b == [] {
      assert a + b == a;
      if Decoded(a, load).Some? {
        assert Decoded(a, load).value + [] == Decoded(a, load).value;
      }
    } else {
      var n := |b| - 1;
      assert (a + b)[..|a + b| - 1] == a + b[..n];
      DecodedConcat(a, b[..n], load);
      if Decoded(a, load).Some? && Decoded(b, load).Some? {
        var x, y := Decoded(a, load).value, Decoded(b[..n], load).value;
        assert load(b[n]).Dict? ==> (x + y) + [load(b[n]).o] == x + (y + [load(b[n]).o]);
      }
    }
  }

  /** Parsing never raises exactly when no top-level block makes the decoder raise. */
  lemma {:induction false} DecodeRaisesIff<O>(slices: seq<string>, load: string -> Loaded<O>)
    ensures Decoded(slices, load).None? <==> exists i :: 0 <= i < |slices| && load(slices[i]).Raises?
  {
    if slices != [] {
      var n := |slices| - 1;
      DecodeRaisesIff(slices[..n], load);
      assert slices == slices[..n] + [slices[n]];
    }
  }

  lemma ScanStep(s: string, i: nat)
    requires i < |s|
    ensures After(REST, s[..i + 1]) == Next(After(REST, s[..i]), s[i])
    ensures Slices(REST, s[..i + 1]) ==
            if Completed(After(REST, s[..i]), s[i]) == [] then Slices(REST, s[..i])
            else Slices(REST, s[..i]) + Completed(After(REST, s[..i]), s[i])
  {
    var t := s[..i + 1];
    assert t[..|t| - 1] == s[..i];
  }

  /** A raise in a prefix is a raise in the whole. */
  lemma RaiseStays<O>(s: string, i: nat, load: string -> Loaded<O>)
    requires i <= |s| && Decoded(Slices(REST, s[..i]), load).None?
    ensures Decoded(Slices(REST, s), load).None?
  {
    var a, b := s[..i], s[i..];
    assert a + b == s;
    ScanConcat(REST, a, b);
    DecodedConcat(Slices(REST, a), Slices(After(REST, a), b), load);
  }

  lemma DecodeOne<O>(slices: seq<string>, slice: string, load: string -> Loaded<O>)
    requires Decoded(slices, load).Some?
    ensures Decoded(slices + [slice], load) ==
      match load(slice)
      case Dict(o) => Some(Decoded(slices, load).value + [o])
      case Raises => None
      case _ => Decoded(slices, load)
  {
    assert (slices + [slice])[..|slices|] == slices;
  }

  lemma SliceGrows(s: string, start: nat, i: nat)
    requires start <= i < |s|
    ensures s[start..i + 1] == s[start..i] + [s[i]]
    ensures s[i..i + 1] == [s[i]]
  {
  }

  /** The loop's four variables. */
  datatype Vars = Vars(depth: int, start: int, inString: bool, escaped: bool)

  /** What they say about the scan so far. */
  predicate Tracks(chunk: string, index: nat, v: Vars, q: Scan) {
    && index <= |chunk| && q.depth == v.depth
    && (v.start >= 0 <==> v.depth > 0) && -1 <= v.start <= index
    && q.open == (if v.start >= 0 then chunk[v.start..index] else "")
    && q.mode == (if !v.inString then Out else if v.escaped then Esc else In)
    && (v.escaped ==> v.inString)
  }

  predicate Closes(v: Vars, c: char) {
    !v.inString && c == '}' && v.depth == 1
  }

  function Turn(v: Vars, index: nat, c: char): Vars {
    if v.inString then v.(inString := v.escaped || c != '"', escaped := !v.escaped && c == '\\')
    else if c == '"' then v.(inString := true)
    else if c == '{' then v.(depth := v.depth + 1, start := if v.depth == 0 then index else v.start)
    else if c == '}' && v.depth > 0 then v.(depth := v.depth - 1, start := if v.depth == 1 then -1 else v.start)
    else v
  }

  /** One turn of the loop is one step of the scan. */
  lemma TurnTracks(chunk: string, index: nat, v: Vars, q: Scan)
    requires index < |chunk| && Tracks(chunk, index, v, q)
    ensures Tracks(chunk, index + 1, Turn(v, index, chunk[index]), Next(q, chunk[index]))
    ensures Completed(q, chunk[index]) == if Closes(v, chunk[index]) then [chunk[v.start..index + 1]] else []
  {
    SliceGrows(chunk, if v.start >= 0 then v.start else index, index);
  }

  /** The decode of one slice: a dict is kept, another value or a malformed text is
      skipped, anything else is raised. */
  method DecodeSlice<O>(objects: seq<O>, slice: string, load: string -> Loaded<O>, ghost before: seq<string>)
    returns (r: Option<seq<O>>)
    requires Decoded(before, load) == Some(objects)
    ensures r == Decoded(before + [slice], load)
  {
    DecodeOne(before, slice, load);
    match load(slice) {
      case Dict(o) => r := Some(objects + [o]);
      case Raises => r := None;
      case _ => r := Some(objects);
    }
  }

  /** parse_progress_objects: the four-variable loop. */
  method ParseProgressObjects<O>(chunk: string, load: string -> Loaded<O>) returns (r: Option<seq<O>>)
    ensures r == Decoded(Slices(REST, chunk), load)
  {
    var objects: seq<O> := [];
    var depth, start, inString, escaped := 0, -1, false, false;
    for index := 0 to |chunk|
      invariant Tracks(chunk, index, Vars(depth, start, inString, escaped), After(REST, chunk[..index]))
      invariant Decoded(Slices(REST, chunk[..index]), load) == Some(objects)
    {
      var c := chunk[index];
      ghost var v := Vars(depth, start, inString, escaped);
      ScanStep(chunk, index);
      TurnTracks(chunk, index, v, After(REST, chunk[..index]));
      if inString {
        if escaped {
          escaped := false;
        } else if c == '\\' {
          escaped := true;
        } else if c == '"' {
          inString := false;
        }
        assert Vars(depth, start, inString, escaped) == Turn(v, index, c);
        continue;
      }
      if c == '"' {
        inString := true;
      } else if c == '{' {
        if depth == 0 {
          start := index;
        }
        depth := depth + 1;
      } else if c == '}' {
        if depth == 0 {
          continue;
        }
        depth := depth - 1;
        if depth == 0 && start >= 0 {
          var slice := chunk[start..index + 1];
          var more := DecodeSlice(objects, slice, load, Slices(REST, chunk[..index]));
          if more.None? {
            RaiseStays(chunk, index + 1, load);
            return None;
          }
          objects := more.value;
          start := -1;
        }
      }
      assert Vars(depth, start, inString, escaped) == Turn(v, index, c);
    }
    assert chunk[..|chunk|] == chunk;
    r := Some(objects);
  }
}
