/** The two line-block parsers over HandBrakeCLI's help output. */
module HelpText {
  import opened Wrappers

  /** The characters \s matches. */
  predicate IsSpace(c: char) {
    var n := c as int;
    9 <= n <= 13 || 28 <= n <= 32 || n == 0x85 || n == 0xA0 || n == 0x1680 || 0x2000 <= n <= 0x200A ||
    n == 0x2028 || n == 0x2029 || n == 0x202F || n == 0x205F || n == 0x3000
  }

  predicate AllSpace(s: string) {
    forall i :: 0 <= i < |s| ==> IsSpace(s[i])
  }

  predicate NoSpace(s: string) {
    forall i :: 0 <= i < |s| ==> !IsSpace(s[i])
  }

  predicate IsWord(c: char) {
    'A' <= c <= 'Z' || 'a' <= c <= 'z' || '0' <= c <= '9' || c == '_'
  }

  /** How many characters the line starts with that are spaces. */
  function Indent(s: string): nat
    ensures Indent(s) <= |s|
  {
    if s != "" && IsSpace(s[0]) then 1 + Indent(s[1..]) else 0
  }

  function TokenLength(s: string): nat
    ensures TokenLength(s) <= |s|
  {
    if s != "" && !IsSpace(s[0]) then 1 + TokenLength(s[1..]) else 0
  }

  predicate StartsWith(s: string, prefix: string) {
    |prefix| <= |s| && s[..|prefix|] == prefix
  }

  /** --encoder\b */
  predicate EncoderName(s: string) {
    StartsWith(s, "--encoder") && (|s| == 9 || !IsWord(s[9]))
  }

  /** -e,\s*--encoder\b */
  predicate EncoderOption(s: string) {
    StartsWith(s, "-e,") && EncoderName(s[3..][Indent(s[3..])..])
  }

  /** ^\s*-e,\s*--encoder\b */
  predicate EncoderFlag(line: string) {
    EncoderOption(line[Indent(line)..])
  }

  /** ^\s*- */
  predicate AnyFlag(line: string) {
    StartsWith(line[Indent(line)..], "-")
  }

  /** ^\s{4,}(\S+)\s*$ */
  function IndentedValue(line: string): Option<string> {
    var s := line[Indent(line)..];
    if Indent(line) >= 4 && s != "" && AllSpace(s[TokenLength(s)..]) then Some(s[..TokenLength(s)]) else None
  }

  const HEADER := "Available --encoder-preset values for '"

  /** Where the first quote is, or the length. */
  function QuoteAt(s: string): nat
    ensures QuoteAt(s) <= |s|
  {
    if s == "" || s[0] == '\'' then 0 else 1 + QuoteAt(s[1..])
  }

  /** The encoder a preset header names. */
  function HeaderOf(line: string): Option<string> {
    if !StartsWith(line, HEADER) then None
    else
      var s := line[|HEADER|..];
      var n := QuoteAt(s);
      if StartsWith(s[n..], "' encoder:") then Some(s[..n]) else None
  }

  // ---- the parsers -------------------------------------------------------

  function ValueOf(line: string): seq<string> {
    if IndentedValue(line).Some? then [IndentedValue(line).value] else []
  }

  /** Values up to the first line that ends the block. */
  function BlockValues(lines: seq<string>, ends: string -> bool): seq<string> {
    if lines == [] || ends(lines[0]) then [] else ValueOf(lines[0]) + BlockValues(lines[1..], ends)
  }

  function EncoderList(lines: seq<string>): seq<string> {
    if lines == [] then []
    else if EncoderFlag(lines[0]) then BlockValues(lines[1..], AnyFlag)
    else EncoderList(lines[1..])
  }

  /** A non-blank line that starts at the margin. */
  predicate AtMargin(line: string) {
    !AllSpace(line) && !StartsWith(line, " ")
  }

  function PresetList(lines: seq<string>, encoder: string): seq<string> {
    if lines == [] then []
    else match HeaderOf(lines[0])
      case None => PresetList(lines[1..], encoder)
      case Some(e) => if e != encoder then [] else BlockValues(lines[1..], AtMargin)
  }

  /** One line of a block moves its value to the names. */
  lemma BlockStep(names: seq<string>, rest: seq<string>, ends: string -> bool)
    requires rest != [] && !ends(rest[0])
    ensures names + BlockValues(rest, ends) == (names + ValueOf(rest[0])) + BlockValues(rest[1..], ends)
  {
  }

  method AddValue(names: seq<string>, line: string) returns (more: seq<string>)
    ensures more == names + ValueOf(line)
  {
    var value := IndentedValue(line);
    more := if value.Some? then names + [value.value] else names;
  }

  method ParseEncoderList(lines: seq<string>) returns (names: seq<string>)
    ensures names == EncoderList(lines)
  {
    names := [];
    var collecting := false;
    var i := 0;
    while i < |lines|
      invariant 0 <= i <= |lines|
      invariant !collecting ==> names == [] && EncoderList(lines) == EncoderList(lines[i..])
      invariant collecting ==> EncoderList(lines) == names + BlockValues(lines[i..], AnyFlag)
    {
      var line := lines[i];
      assert lines[i..][1..] == lines[i + 1..];
      i := i + 1;
      if !collecting {
        if EncoderFlag(line) {
          collecting := true;
        }
        continue;
      }
      if AnyFlag(line) {
        return;
      }
      BlockStep(names, lines[i - 1..], AnyFlag);
      names := AddValue(names, line);
    }
  }

  method ParsePresetList(lines: seq<string>, encoder: string) returns (names: seq<string>)
    ensures names == PresetList(lines, encoder)
  {
    names := [];
    var collecting := false;
    var i := 0;
    while i < |lines|
      invariant 0 <= i <= |lines|
      invariant !collecting ==> names == [] && PresetList(lines, encoder) == PresetList(lines[i..], encoder)
      invariant collecting ==> PresetList(lines, encoder) == names + BlockValues(lines[i..], AtMargin)
    {
      var line := lines[i];
      assert lines[i..][1..] == lines[i + 1..];
      i := i + 1;
      if !collecting {
        var header := HeaderOf(line);
        if header.Some? {
          if header.value != encoder {
            return [];
          }
          collecting := true;
        }
        continue;
      }
      if AllSpace(line) {
        BlankHasNoValue(line);
        BlockStep(names, lines[i - 1..], AtMargin);
        assert names + ValueOf(line) == names;
        continue;
      }
      if !StartsWith(line, " ") {
        return;
      }
      BlockStep(names, lines[i - 1..], AtMargin);
      names := AddValue(names, line);
    }
  }

  lemma {:induction false} BlankHasNoValue(line: string)
    requires AllSpace(line)
    ensures Indent(line) == |line| && IndentedValue(line).None?
    decreases |line|
  {
    if line != "" {
      BlankHasNoValue(line[1..]);
    }
  }

  // ---- printing a block --------------------------------------------------

  /** A line of a printed block: one indented token, or text that is not one. */
  datatype BlockLine = Value(pad: string, token: string, trail: string) | Prose(text: string)

  function LineText(b: BlockLine): string {
    match b
    case Value(pad, token, trail) => pad + token + trail
    case Prose(text) => text
  }

  /** One token indented by four or more spaces of any kind, or text that reads as none;
      either way a line that does not end the block. */
  predicate LineOk(b: BlockLine, ends: string -> bool) {
    !ends(LineText(b)) &&
    match b
    case Value(pad, token, trail) =>
      |pad| >= 4 && AllSpace(pad) && token != "" && NoSpace(token) && AllSpace(trail)
    case Prose(text) => IndentedValue(text).None?
  }

  predicate BlockOk(block: seq<BlockLine>, ends: string -> bool) {
    forall k :: 0 <= k < |block| ==> LineOk(block[k], ends)
  }

  function Lines(block: seq<BlockLine>): seq<string> {
    if block == [] then [] else [LineText(block[0])] + Lines(block[1..])
  }

  function Tokens(block: seq<BlockLine>): seq<string> {
    if block == [] then [] else (if block[0].Value? then [block[0].token] else []) + Tokens(block[1..])
  }

  lemma {:induction false} IndentOf(pad: string, rest: string)
    requires AllSpace(pad) && (rest == "" || !IsSpace(rest[0]))
    ensures Indent(pad + rest) == |pad|
    decreases |pad|
  {
    if pad == "" {
      assert pad + rest == rest;
    } else {
      assert (pad + rest)[1..] == pad[1..] + rest;
      IndentOf(pad[1..], rest);
    }
  }

  lemma {:induction false} TokenOf(token: string, rest: string)
    requires NoSpace(token) && (rest == "" || IsSpace(rest[0]))
    ensures TokenLength(token + rest) == |token|
    decreases |token|
  {
    if token == "" {
      assert token + rest == rest;
    } else {
      assert (token + rest)[1..] == token[1..] + rest;
      TokenOf(token[1..], rest);
    }
  }

  /** A printed value is read back.  It is taken for a flag exactly when it starts with a
      dash, and for the end of a preset block exactly when its padding starts with a space
      of another kind. */
  lemma ValueLine(pad: string, token: string, trail: string)
    requires |pad| >= 4 && AllSpace(pad) && token != "" && NoSpace(token) && AllSpace(trail)
    ensures IndentedValue(pad + token + trail) == Some(token)
    ensures AnyFlag(pad + token + trail) <==> token[0] == '-'
    ensures AtMargin(pad + token + trail) <==> pad[0] != ' '
  {
    var line := pad + token + trail;
    assert line == pad + (token + trail);
    IndentOf(pad, token + trail);
    TokenOf(token, trail);
    assert line[|pad|..] == token + trail;
    assert (token + trail)[..|token|] == token && (token + trail)[|token|..] == trail;
    assert line[|pad|] == token[0] && line[..1] == [pad[0]] && (token + trail)[..1] == [token[0]];
  }

  lemma LineReads(b: BlockLine, ends: string -> bool)
    requires LineOk(b, ends)
    ensures ValueOf(LineText(b)) == if b.Value? then [b.token] else []
  {
    if b.Value? {
      ValueLine(b.pad, b.token, b.trail);
    }
  }

  lemma Joined(line: string, lines: seq<string>, rest: seq<string>)
    ensures ([line] + lines) + rest == [line] + (lines + rest)
  {
  }

  lemma {:induction false} FirstLine(line: string, below: seq<string>, ends: string -> bool)
    requires !ends(line)
    ensures BlockValues([line] + below, ends) == ValueOf(line) + BlockValues(below, ends)
  {
    assert ([line] + below)[1..] == below;
  }

  lemma {:induction false} BlockRoundTrip(block: seq<BlockLine>, rest: seq<string>, ends: string -> bool)
    requires BlockOk(block, ends) && (rest == [] || ends(rest[0]))
    ensures BlockValues(Lines(block) + rest, ends) == Tokens(block)
    decreases |block|
  {
    if block == [] {
      assert Lines(block) + rest == rest;
    } else {
      var below := Lines(block[1..]) + rest;
      BlockRoundTrip(block[1..], rest, ends);
      LineReads(block[0], ends);
      FirstLine(LineText(block[0]), below, ends);
      Joined(LineText(block[0]), Lines(block[1..]), rest);
    }
  }

  // ---- what the patterns match -------------------------------------------

  /** In ASCII, what counts as a space and as a word character. */
  lemma AsciiClasses(c: char)
    requires c as int < 128
    ensures IsSpace(c) <==> c as int in {9, 10, 11, 12, 13, 28, 29, 30, 31, 32}
    ensures IsWord(c) <==> 48 <= c as int <= 57 || 65 <= c as int <= 90 || c as int == 95 || 97 <= c as int <= 122
  {
  }

  /** A line is its indent and a rest that does not start with a space. */
  lemma {:induction false} IndentSplits(line: string)
    ensures AllSpace(line[..Indent(line)])
    ensures Indent(line) == |line| || !IsSpace(line[Indent(line)])
    decreases |line|
  {
    if line != "" && IsSpace(line[0]) {
      var n := Indent(line[1..]);
      IndentSplits(line[1..]);
      assert line[1..][..n] == line[1..n + 1];
    }
  }

  lemma {:induction false} TokenSplits(s: string)
    ensures NoSpace(s[..TokenLength(s)])
    ensures TokenLength(s) == |s| || IsSpace(s[TokenLength(s)])
    decreases |s|
  {
    if s != "" && !IsSpace(s[0]) {
      var n := TokenLength(s[1..]);
      TokenSplits(s[1..]);
      assert s[1..][..n] == s[1..n + 1];
    }
  }

  predicate ReadsAs(line: string, pad: string, token: string, trail: string) {
    && line == pad + token + trail
    && |pad| >= 4 && AllSpace(pad) && token != "" && NoSpace(token) && AllSpace(trail)
  }

  /** A value line is four or more spaces, one token, and spaces: nothing else is one. */
  lemma {:induction false} ValueIff(line: string, token: string)
    ensures IndentedValue(line) == Some(token) <==> exists pad, trail :: ReadsAs(line, pad, token, trail)
  {
    if IndentedValue(line) == Some(token) {
      var n := Indent(line);
      var s := line[n..];
      IndentSplits(line);
      TokenSplits(s);
      assert line == line[..n] + s && s == token + s[|token|..];
      assert ReadsAs(line, line[..n], token, s[|token|..]);
    }
    forall pad, trail | ReadsAs(line, pad, token, trail) ensures IndentedValue(line) == Some(token) {
      ValueLine(pad, token, trail);
    }
  }

  /** Prose of several words is no value, whatever the indent. */
  lemma {:induction false} ProseIsNoValue(pad: string, first: string, gap: string, rest: string)
    requires AllSpace(pad) && first != "" && NoSpace(first)
    requires gap != "" && AllSpace(gap) && rest != "" && !IsSpace(rest[0])
    ensures IndentedValue(pad + (first + (gap + rest))).None?
  {
    var tail := gap + rest;
    var s := first + tail;
    var line := pad + s;
    IndentOf(pad, s);
    TokenOf(first, tail);
    assert line[|pad|..] == s && s[|first|..] == tail && tail[|gap|] == rest[0];
  }

  lemma Cut(s: string, n: nat)
    requires n <= |s|
    ensures s == s[..n] + s[n..]
  {
  }

  lemma {:induction false} StartSplits(s: string, prefix: string)
    requires StartsWith(s, prefix)
    ensures s == prefix + s[|prefix|..]
  {
  }

  lemma {:induction false} StartMatches(prefix: string, rest: string)
    ensures StartsWith(prefix + rest, prefix)
  {
    assert (prefix + rest)[..|prefix|] == prefix;
  }

  predicate FlagAs(line: string, pad: string, rest: string) {
    line == pad + ("-" + rest) && AllSpace(pad)
  }

  /** A flag line is spaces, a dash, and anything. */
  lemma {:induction false} FlagIff(line: string)
    ensures AnyFlag(line) <==> exists pad, rest :: FlagAs(line, pad, rest)
  {
    var n := Indent(line);
    IndentSplits(line);
    if AnyFlag(line) {
      StartSplits(line[n..], "-");
      assert line == line[..n] + line[n..];
      assert FlagAs(line, line[..n], line[n..][1..]);
    }
    forall pad, rest | FlagAs(line, pad, rest) ensures AnyFlag(line) {
      var s := "-" + rest;
      IndentOf(pad, s);
      StartMatches("-", rest);
      assert (pad + s)[|pad|..] == s;
    }
  }

  /** A preset block ends at a line that holds something and does not start with a blank. */
  lemma MarginIff(line: string)
    ensures AtMargin(line) <==> (exists i :: 0 <= i < |line| && !IsSpace(line[i])) && line[0] != ' '
  {
    if line != "" {
      assert line[..1] == [line[0]];
    }
  }

  predicate EncoderFlagAs(line: string, pad: string, gap: string, rest: string) {
    && line == pad + ("-e," + (gap + ("--encoder" + rest)))
    && AllSpace(pad) && AllSpace(gap) && (rest == "" || !IsWord(rest[0]))
  }

  lemma {:induction false} NameReads(s: string) returns (rest: string)
    requires EncoderName(s)
    ensures s == "--encoder" + rest && (rest == "" || !IsWord(rest[0]))
  {
    rest := s[9..];
    StartSplits(s, "--encoder");
    assert rest != "" ==> rest[0] == s[9];
  }

  lemma {:induction false} OptionReads(s: string) returns (gap: string, rest: string)
    requires EncoderOption(s)
    ensures s == "-e," + (gap + ("--encoder" + rest)) && AllSpace(gap) && (rest == "" || !IsWord(rest[0]))
  {
    var u := s[3..];
    gap := u[..Indent(u)];
    StartSplits(s, "-e,");
    IndentSplits(u);
    rest := NameReads(u[Indent(u)..]);
    Cut(u, Indent(u));
  }

  lemma {:induction false} EncoderFlagReads(line: string) returns (pad: string, gap: string, rest: string)
    requires EncoderFlag(line)
    ensures EncoderFlagAs(line, pad, gap, rest)
  {
    pad := line[..Indent(line)];
    IndentSplits(line);
    gap, rest := OptionReads(line[Indent(line)..]);
    Cut(line, Indent(line));
  }

  lemma {:induction false} EncoderFlagMatches(pad: string, gap: string, rest: string)
    requires AllSpace(pad) && AllSpace(gap) && (rest == "" || !IsWord(rest[0]))
    ensures EncoderFlag(pad + ("-e," + (gap + ("--encoder" + rest))))
  {
    var t := "--encoder" + rest;
    var u := gap + t;
    var s := "-e," + u;
    var line := pad + s;
    IndentOf(pad, s);
    IndentOf(gap, t);
    assert line[|pad|..] == s && s[..3] == "-e," && s[3..] == u && u[|gap|..] == t && t[..9] == "--encoder";
    assert rest != "" ==> t[9] == rest[0];
  }

  /** The line that starts the encoder list: spaces, `-e,`, spaces, `--encoder`, and then
      no word character. */
  lemma {:induction false} EncoderFlagIff(line: string)
    ensures EncoderFlag(line) <==> exists pad, gap, rest :: EncoderFlagAs(line, pad, gap, rest)
  {
    if EncoderFlag(line) {
      var pad, gap, rest := EncoderFlagReads(line);
    }
    forall pad, gap, rest | EncoderFlagAs(line, pad, gap, rest) ensures EncoderFlag(line) {
      EncoderFlagMatches(pad, gap, rest);
    }
  }

  lemma {:induction false} SkipsToFlag(before: seq<string>, lines: seq<string>)
    requires forall k :: 0 <= k < |before| ==> !EncoderFlag(before[k])
    ensures EncoderList(before + lines) == EncoderList(lines)
    decreases |before|
  {
    if before == [] {
      assert before + lines == lines;
    } else {
      assert (before + lines)[1..] == before[1..] + lines;
      SkipsToFlag(before[1..], lines);
    }
  }

  /** Whatever precedes and follows it, a printed encoder block is read back: the tokens,
      in order, and nothing of the prose. */
  lemma {:induction false} EncoderListRoundTrip(before: seq<string>, flag: string, block: seq<BlockLine>,
                                               rest: seq<string>)
    requires forall k :: 0 <= k < |before| ==> !EncoderFlag(before[k])
    requires EncoderFlag(flag) && BlockOk(block, AnyFlag) && (rest == [] || AnyFlag(rest[0]))
    ensures EncoderList(before + ([flag] + (Lines(block) + rest))) == Tokens(block)
  {
    var lines := [flag] + (Lines(block) + rest);
    SkipsToFlag(before, lines);
    assert lines[1..] == Lines(block) + rest;
    BlockRoundTrip(block, rest, AnyFlag);
  }

  lemma {:induction false} SkipsToHeader(before: seq<string>, lines: seq<string>, encoder: string)
    requires forall k :: 0 <= k < |before| ==> HeaderOf(before[k]).None?
    ensures PresetList(before + lines, encoder) == PresetList(lines, encoder)
    decreases |before|
  {
    if before == [] {
      assert before + lines == lines;
    } else {
      assert (before + lines)[1..] == before[1..] + lines;
      SkipsToHeader(before[1..], lines, encoder);
    }
  }

  /** A printed preset block is read back exactly when its header names the encoder asked
      for; a header for another encoder answers nothing, whatever follows. */
  lemma PresetListRoundTrip(before: seq<string>, header: string, block: seq<BlockLine>, rest: seq<string>,
                                encoder: string)
    requires forall k :: 0 <= k < |before| ==> HeaderOf(before[k]).None?
    requires HeaderOf(header).Some? && BlockOk(block, AtMargin) && (rest == [] || AtMargin(rest[0]))
    ensures PresetList(before + ([header] + (Lines(block) + rest)), encoder) ==
            if HeaderOf(header).value == encoder then Tokens(block) else []
  {
    var lines := [header] + (Lines(block) + rest);
    SkipsToHeader(before, lines, encoder);
    assert lines[1..] == Lines(block) + rest;
    BlockRoundTrip(block, rest, AtMargin);
  }

  lemma {:induction false} QuoteAtEnd(name: string, rest: string)
    requires '\'' !in name && rest != "" && rest[0] == '\''
    ensures QuoteAt(name + rest) == |name|
    decreases |name|
  {
    if name == "" {
      assert name + rest == rest;
    } else {
      assert name[0] in name;
      assert (name + rest)[1..] == name[1..] + rest;
      QuoteAtEnd(name[1..], rest);
    }
  }

  lemma {:induction false} QuoteSplits(s: string)
    ensures '\'' !in s[..QuoteAt(s)]
    decreases |s|
  {
    if s != "" && s[0] != '\'' {
      var n := QuoteAt(s[1..]);
      QuoteSplits(s[1..]);
      assert s[..n + 1] == [s[0]] + s[1..][..n];
    }
  }

  predicate HeaderAs(line: string, name: string, rest: string) {
    line == "Available --encoder-preset values for '" + (name + ("' encoder:" + rest)) && '\'' !in name
  }

  lemma {:induction false} ThreeParts(line: string, s: string, name: string, tail: string, rest: string)
    requires line == HEADER + s && s == name + tail && tail == "' encoder:" + rest
    ensures line == "Available --encoder-preset values for '" + (name + ("' encoder:" + rest))
  {
  }

  lemma {:induction false} HeaderReads(line: string) returns (rest: string)
    requires HeaderOf(line).Some?
    ensures HeaderAs(line, HeaderOf(line).value, rest)
  {
    var s := line[|HEADER|..];
    var n := QuoteAt(s);
    QuoteSplits(s);
    var tail := s[n..];
    rest := tail[10..];
    StartSplits(line, HEADER);
    StartSplits(tail, "' encoder:");
    Cut(s, n);
    ThreeParts(line, s, s[..n], tail, rest);
  }

  /** The header HandBrake prints for an encoder names that encoder. */
  lemma HeaderRoundTrip(name: string, rest: string)
    requires '\'' !in name
    ensures HeaderOf(HEADER + (name + ("' encoder:" + rest))) == Some(name)
  {
    var tail := "' encoder:" + rest;
    var line := HEADER + (name + tail);
    QuoteAtEnd(name, tail);
    assert line[..|HEADER|] == HEADER && line[|HEADER|..] == name + tail;
    assert (name + tail)[|name|..] == tail && (name + tail)[..|name|] == name;
    assert tail[..10] == "' encoder:";
  }

  /** And no other line names one. */
  lemma {:induction false} HeaderIff(line: string, name: string)
    ensures HeaderOf(line) == Some(name) <==> exists rest :: HeaderAs(line, name, rest)
  {
    if HeaderOf(line) == Some(name) {
      var rest := HeaderReads(line);
    }
    forall rest | HeaderAs(line, name, rest) ensures HeaderOf(line) == Some(name) {
      HeaderRoundTrip(name, rest);
    }
  }
}
