/**
 run_encode's read loop: a growing buffer that is reparsed at every line holding a
 closing brace, cleared when it yields an object, and dropped past a cap.
 */
module Stream {
  import opened Wrappers
  import opened Scanner

  /** The loop between two lines; Aborted when a decode raised out of it. */
  datatype Loop<O> = Reading(buffer: string, handled: seq<O>) | Aborted(handled: seq<O>)

  function ReadLine<O>(st: Loop<O>, line: string, cap: nat, load: string -> Loaded<O>): Loop<O> {
    match st
    case Aborted(_) => st
    case Reading(before, handled) =>
      var buffer := before + line;
      if '}' !in line then Reading(buffer, handled)
      else match Decoded(Slices(REST, buffer), load)
        case None => Aborted(handled)
        case Some(objects) =>
          if objects != [] then Reading("", handled + objects)
          else if |buffer| > cap then Reading("", handled)
          else Reading(buffer, handled)
  }

  function ReadFrom<O>(st: Loop<O>, lines: seq<string>, cap: nat, load: string -> Loaded<O>): Loop<O> {
    if lines == [] then st
    else ReadLine(ReadFrom(st, lines[..|lines| - 1], cap, load), lines[|lines| - 1], cap, load)
  }

  function ReadAll<O>(lines: seq<string>, cap: nat, load: string -> Loaded<O>): Loop<O> {
    ReadFrom(Reading("", []), lines, cap, load)
  }

  /** The loop of run_encode over the lines of stdout. */
  method ReadLoop<O>(lines: seq<string>, cap: nat, load: string -> Loaded<O>) returns (r: Loop<O>)
    ensures r == ReadAll(lines, cap, load)
  {
    var buffer, handled: seq<O> := "", [];
    for i := 0 to |lines|
      invariant ReadAll(lines[..i], cap, load) == Reading(buffer, handled)
    {
      var line := lines[i];
      assert lines[..i + 1][..i] == lines[..i];
      buffer := buffer + line;
      if '}' !in line {
        continue;
      }
      var objects := ParseProgressObjects(buffer, load);
      if objects.None? {
        AbortedStays(Reading("", []), lines, i + 1, cap, load);
        return Aborted(handled);
      }
      if objects.value == [] {
        if |buffer| > cap {
          buffer := "";
        }
        continue;
      }
      handled := handled + objects.value;
      buffer := "";
    }
    assert lines[..|lines|] == lines;
    r := Reading(buffer, handled);
  }

  lemma {:induction false} AbortedStays<O>(st: Loop<O>, lines: seq<string>, i: nat, cap: nat, load: string -> Loaded<O>)
    requires i <= |lines| && ReadFrom(st, lines[..i], cap, load).Aborted?
    ensures ReadFrom(st, lines, cap, load) == ReadFrom(st, lines[..i], cap, load)
    decreases |lines|
  {
    if i < |lines| {
      var init := lines[..|lines| - 1];
      assert init[..i] == lines[..i];
      AbortedStays(st, init, i, cap, load);
    } else {
      assert lines[..i] == lines;
    }
  }

  // ---- the whole stream at once ------------------------------------------

  function Flat(lines: seq<string>): string {
    if lines == [] then "" else Flat(lines[..|lines| - 1]) + lines[|lines| - 1]
  }

  /** The objects one scan of the whole text finds. */
  function Batch<O>(lines: seq<string>, load: string -> Loaded<O>): Option<seq<O>> {
    Decoded(Slices(REST, Flat(lines)), load)
  }

  /** The objects a line completes, given the text before it. */
  function Fresh<O>(before: seq<string>, line: string, load: string -> Loaded<O>): Option<seq<O>> {
    Decoded(Slices(After(REST, Flat(before)), line), load)
  }

  predicate Completes<O>(before: seq<string>, line: string, load: string -> Loaded<O>) {
    Fresh(before, line, load).Some? && Fresh(before, line, load).value != []
  }

  /** A line with a closing brace and no object takes the buffer past the cap. */
  predicate Overflows<O>(before: seq<string>, line: string, kept: nat, cap: nat, load: string -> Loaded<O>) {
    '}' in line && Fresh(before, line, load) == Some([]) && kept + |line| > cap
  }

  /** Characters since the last line that completed an object or was dropped. */
  function Kept<O>(lines: seq<string>, cap: nat, load: string -> Loaded<O>): nat {
    if lines == [] then 0
    else
      var n := |lines| - 1;
      var kept := Kept(lines[..n], cap, load);
      if Completes(lines[..n], lines[n], load) || Overflows(lines[..n], lines[n], kept, cap, load) then 0
      else kept + |lines[n]|
  }

  predicate Drops<O>(before: seq<string>, line: string, cap: nat, load: string -> Loaded<O>) {
    Overflows(before, line, Kept(before, cap, load), cap, load)
  }

  /** A line that ends an object, or drops the buffer, leaves no object and no string open. */
  predicate SafeLine<O>(before: seq<string>, line: string, cap: nat, load: string -> Loaded<O>) {
    Completes(before, line, load) || Drops(before, line, cap, load) ==> After(REST, Flat(before) + line) == REST
  }

  predicate SafeAt<O>(lines: seq<string>, k: nat, cap: nat, load: string -> Loaded<O>) {
    k < |lines| ==> SafeLine(lines[..k], lines[k], cap, load)
  }

  ghost predicate Safe<O>(lines: seq<string>, cap: nat, load: string -> Loaded<O>) {
    forall k: nat :: SafeAt(lines, k, cap, load)
  }

  lemma {:induction false} BatchSnoc<O>(before: seq<string>, line: string, load: string -> Loaded<O>)
    ensures Flat(before + [line]) == Flat(before) + line
    ensures After(REST, Flat(before + [line])) == After(After(REST, Flat(before)), line)
    ensures Batch(before, load).None? || Fresh(before, line, load).None? ==> Batch(before + [line], load).None?
    ensures Batch(before, load).Some? && Fresh(before, line, load).Some? ==>
              Batch(before + [line], load) == Some(Batch(before, load).value + Fresh(before, line, load).value)
  {
    assert (before + [line])[..|before|] == before;
    ScanConcat(REST, Flat(before), line);
    DecodedConcat(Slices(REST, Flat(before)), Slices(After(REST, Flat(before)), line), load);
  }

  /** What the loop's buffer is: text the batch scan is still in the middle of, with no
      decodable object in it. */
  ghost predicate InStep<O>(st: Loop<O>, lines: seq<string>, cap: nat, load: string -> Loaded<O>) {
    match st
    case Aborted(_) => Batch(lines, load).None?
    case Reading(buffer, handled) =>
      && Batch(lines, load) == Some(handled)
      && Decoded(Slices(REST, buffer), load) == Some([])
      && After(REST, buffer) == After(REST, Flat(lines))
      && |buffer| == Kept(lines, cap, load)
  }

  /** One line: reparsing the buffer finds the line's own objects, no more. */
  lemma Reparse<O>(buffer: string, lines: seq<string>, line: string, load: string -> Loaded<O>)
    requires Decoded(Slices(REST, buffer), load) == Some([])
    requires After(REST, buffer) == After(REST, Flat(lines))
    ensures Decoded(Slices(REST, buffer + line), load) == Fresh(lines, line, load)
    ensures After(REST, buffer + line) == After(REST, Flat(lines + [line]))
  {
    ScanConcat(REST, buffer, line);
    BatchSnoc(lines, line, load);
    DecodedConcat(Slices(REST, buffer), Slices(After(REST, buffer), line), load);
    if Fresh(lines, line, load).Some? {
      assert [] + Fresh(lines, line, load).value == Fresh(lines, line, load).value;
    }
  }

  lemma {:induction false} InStepLine<O>(st: Loop<O>, lines: seq<string>, line: string, cap: nat,
                                        load: string -> Loaded<O>)
    requires InStep(st, lines, cap, load) && SafeLine(lines, line, cap, load)
    ensures InStep(ReadLine(st, line, cap, load), lines + [line], cap, load)
  {
    BatchSnoc(lines, line, load);
    assert (lines + [line])[..|lines|] == lines;
    if st.Reading? {
      Reparse(st.buffer, lines, line, load);
      assert st.handled + [] == st.handled;
      if '}' !in line {
        NoBraceNoSlice(After(REST, Flat(lines)), line);
      } else if Drops(lines, line, cap, load) || Completes(lines, line, load) {
        assert After(REST, Flat(lines + [line])) == REST;
      }
    }
  }

  lemma PrefixFine<O>(lines: seq<string>, k: nat, cap: nat, load: string -> Loaded<O>)
    requires k <= |lines|
    requires forall i: nat :: i < k ==> SafeAt(lines, i, cap, load)
    ensures Safe(lines[..k], cap, load)
  {
    forall i: nat
      ensures SafeAt(lines[..k], i, cap, load)
    {
      if i < k {
        assert SafeAt(lines, i, cap, load);
        assert lines[..k][..i] == lines[..i];
      }
    }
  }

  lemma ReadSnoc<O>(st: Loop<O>, lines: seq<string>, line: string, cap: nat, load: string -> Loaded<O>)
    ensures ReadFrom(st, lines + [line], cap, load) == ReadLine(ReadFrom(st, lines, cap, load), line, cap, load)
  {
    assert (lines + [line])[..|lines|] == lines;
  }

  lemma LastLineInStep<O>(lines: seq<string>, before: seq<string>, line: string, cap: nat, load: string -> Loaded<O>)
    requires lines == before + [line] && Safe(lines, cap, load)
    requires InStep(ReadAll(before, cap, load), before, cap, load)
    ensures InStep(ReadAll(lines, cap, load), lines, cap, load)
  {
    assert lines[..|before|] == before && lines[|before|] == line;
    assert SafeAt(lines, |before|, cap, load);
    ReadSnoc(Reading("", []), before, line, cap, load);
    InStepLine(ReadAll(before, cap, load), before, line, cap, load);
  }

  lemma {:induction false} LoopInStep<O>(lines: seq<string>, cap: nat, load: string -> Loaded<O>)
    requires Safe(lines, cap, load)
    ensures InStep(ReadAll(lines, cap, load), lines, cap, load)
    decreases |lines|
  {
    if lines != [] {
      var n := |lines| - 1;
      PrefixFine(lines, n, cap, load);
      LoopInStep(lines[..n], cap, load);
      LastLineInStep(lines, lines[..n], lines[n], cap, load);
    }
  }

  /** Incremental equals batch: cut the stream into lines in any way such that no line
      that completes an object, or drops the buffer at the cap, ends inside something.
      The loop handles what one scan of the whole text finds, in order; it aborts exactly
      when some top-level block of the text makes the decoder raise. */
  lemma IncrementalEqualsBatch<O>(lines: seq<string>, cap: nat, load: string -> Loaded<O>)
    requires Safe(lines, cap, load)
    ensures ReadAll(lines, cap, load).Aborted? <==> Batch(lines, load).None?
    ensures Batch(lines, load).Some? ==> ReadAll(lines, cap, load).handled == Batch(lines, load).value
  {
    LoopInStep(lines, cap, load);
  }

  lemma AbortKeeps<O>(st: Loop<O>, line: string, cap: nat, load: string -> Loaded<O>)
    requires ReadLine(st, line, cap, load).Aborted?
    ensures ReadLine(st, line, cap, load).handled == st.handled
  {
  }

  /** When the decoder raises, the loop has handled what the lines before the raising one
      hold, and nothing of that line or after it. */
  lemma {:induction false} AbortedWith<O>(lines: seq<string>, cap: nat, load: string -> Loaded<O>) returns (k: nat)
    requires Safe(lines, cap, load) && Batch(lines, load).None?
    ensures k < |lines| && Batch(lines[..k], load).Some? && Batch(lines[..k + 1], load).None?
    ensures ReadAll(lines, cap, load) == Aborted(Batch(lines[..k], load).value)
    decreases |lines|
  {
    var n := |lines| - 1;
    assert lines != [] by {
      assert Batch<O>([], load) == Some([]);
    }
    var before := lines[..n];
    assert lines == before + [lines[n]];
    PrefixFine(lines, n, cap, load);
    ReadSnoc(Reading("", []), before, lines[n], cap, load);
    LoopInStep(before, cap, load);
    if Batch(before, load).None? {
      k := AbortedWith(before, cap, load);
      assert before[..k] == lines[..k] && before[..k + 1] == lines[..k + 1];
    } else {
      k := n;
      assert lines[..n + 1] == lines;
      LoopInStep(lines, cap, load);
      AbortKeeps(ReadAll(before, cap, load), lines[n], cap, load);
    }
  }

  // ---- the boundary condition is exact -----------------------------------

  /** At depth zero no text is open; every state the scanner reaches is like that. */
  predicate Sane(q: Scan) {
    q.depth == 0 ==> q.open == ""
  }

  lemma {:induction false} SaneAfter(q: Scan, s: string)
    requires Sane(q)
    ensures Sane(After(q, s))
  {
    if s != "" {
      SaneAfter(q, s[..|s| - 1]);
    }
  }

  lemma PairSlices(q: Scan)
    requires Sane(q)
    ensures Slices(q, "{}") == if q == REST then ["{}"] else []
  {
    ScanConcat(q, "{", "}");
    ScanOne(q, '{');
    ScanOne(Next(q, '{'), '}');
    assert "{" + "}" == "{}";
  }

  /** Forgetting the scanner's state is harmless for every continuation exactly when
      the scanner is at rest. */
  lemma ClearIsSafeIff(q: Scan)
    requires Sane(q)
    ensures (forall t :: Slices(q, t) == Slices(REST, t)) <==> q == REST
  {
    PairSlices(q);
    PairSlices(REST);
    assert Slices(REST, "{}") == ["{}"];
    if q != REST {
      assert Slices(q, "{}") != Slices(REST, "{}");
    }
  }

  const PROBE := "{}"

  /** Whether the loop and the batch scan agree on the stream cut after line `k` and
      followed by one more small object. */
  predicate AgreesAfter<O(==)>(lines: seq<string>, k: nat, cap: nat, load: string -> Loaded<O>)
    requires k <= |lines|
  {
    Batch(lines[..k] + [PROBE], load) == Some(ReadAll(lines[..k] + [PROBE], cap, load).handled)
  }

  /** The text of a prefix makes no block raise that the whole does not. */
  lemma {:induction false} PrefixDecodes<O>(lines: seq<string>, k: nat, load: string -> Loaded<O>)
    requires k <= |lines| && Batch(lines, load).Some?
    ensures Batch(lines[..k], load).Some?
    decreases |lines|
  {
    if k == |lines| {
      assert lines[..k] == lines;
    } else {
      var n := |lines| - 1;
      assert lines == lines[..n] + [lines[n]];
      BatchSnoc(lines[..n], lines[n], load);
      assert lines[..n][..k] == lines[..k];
      PrefixDecodes(lines[..n], k, load);
    }
  }

  lemma ProbeDecodes<O>(load: string -> Loaded<O>)
    requires load(PROBE).Dict?
    ensures Decoded([PROBE], load) == Some([load(PROBE).o])
  {
    DecodeOne([], PROBE, load);
    assert [] + [PROBE] == [PROBE];
    assert [] + [load(PROBE).o] == [load(PROBE).o];
  }

  /** At rest the batch scan finds the probe, elsewhere nothing. */
  lemma ProbeFound<O>(lines: seq<string>, load: string -> Loaded<O>)
    requires load(PROBE).Dict?
    ensures Fresh(lines, PROBE, load) == Some(if After(REST, Flat(lines)) == REST then [load(PROBE).o] else [])
  {
    SaneAfter(REST, Flat(lines));
    PairSlices(After(REST, Flat(lines)));
    ProbeDecodes(load);
  }

  lemma ReadClosing<O>(buffer: string, handled: seq<O>, line: string, cap: nat, load: string -> Loaded<O>)
    requires |line| > 1 && line[1] == '}' && Decoded(Slices(REST, buffer + line), load).Some?
    ensures ReadLine(Reading(buffer, handled), line, cap, load).handled ==
            handled + Decoded(Slices(REST, buffer + line), load).value
  {
    assert '}' in line;
    assert handled + [] == handled;
  }

  lemma ProbeLine<O>(st: Loop<O>, lines: seq<string>, cap: nat, load: string -> Loaded<O>)
    requires st.Reading? && InStep(st, lines, cap, load) && Fresh(lines, PROBE, load).Some?
    ensures ReadLine(st, PROBE, cap, load).handled == st.handled + Fresh(lines, PROBE, load).value
  {
    Reparse(st.buffer, lines, PROBE, load);
    ReadClosing(st.buffer, st.handled, PROBE, cap, load);
  }

  lemma ProbeAgrees<O>(lines: seq<string>, cap: nat, load: string -> Loaded<O>)
    requires Safe(lines, cap, load) && Batch(lines, load).Some? && load(PROBE).Dict?
    ensures Batch(lines + [PROBE], load) == Some(ReadAll(lines + [PROBE], cap, load).handled)
  {
    LoopInStep(lines, cap, load);
    var st := ReadAll(lines, cap, load);
    ReadSnoc(Reading("", []), lines, PROBE, cap, load);
    ProbeFound(lines, load);
    ProbeLine(st, lines, cap, load);
    BatchSnoc(lines, PROBE, load);
    assert st.handled + [] == st.handled;
  }

  /** A line that completes an object, or drops the buffer: the buffer is empty after it,
      and loop and batch scan agree so far. */
  lemma {:induction false} ClearedAfter<O>(before: seq<string>, line: string, cap: nat, load: string -> Loaded<O>)
    requires Safe(before, cap, load) && Batch(before + [line], load).Some?
    requires Completes(before, line, load) || Drops(before, line, cap, load)
    ensures ReadAll(before + [line], cap, load) == Reading("", Batch(before + [line], load).value)
  {
    LoopInStep(before, cap, load);
    BatchSnoc(before, line, load);
    var st := ReadAll(before, cap, load);
    Reparse(st.buffer, before, line, load);
    if '}' !in line {
      NoBraceNoSlice(After(REST, Flat(before)), line);
    }
    assert st.handled + [] == st.handled;
    ReadSnoc(Reading("", []), before, line, cap, load);
  }

  lemma ProbeFromEmpty<O>(handled: seq<O>, cap: nat, load: string -> Loaded<O>)
    requires load(PROBE).Dict?
    ensures ReadLine(Reading("", handled), PROBE, cap, load) == Reading("", handled + [load(PROBE).o])
  {
    assert PROBE[1] == '}';
    assert "" + PROBE == PROBE;
    PairSlices(REST);
    ProbeDecodes(load);
  }

  /** Away from rest the batch scan finds nothing in the probe. */
  lemma ProbeMissed<O>(lines: seq<string>, load: string -> Loaded<O>)
    requires After(REST, Flat(lines)) != REST && Batch(lines, load).Some?
    ensures Batch(lines + [PROBE], load) == Batch(lines, load)
  {
    SaneAfter(REST, Flat(lines));
    PairSlices(After(REST, Flat(lines)));
    BatchSnoc(lines, PROBE, load);
    assert Batch(lines, load).value + [] == Batch(lines, load).value;
  }

  /** Such a line that ends inside something: the loop forgets, the batch scan does not,
      and the probe tells them apart. */
  lemma ProbeDiffers<O>(before: seq<string>, line: string, lines: seq<string>, cap: nat, load: string -> Loaded<O>)
    requires lines == before + [line] && Safe(before, cap, load)
    requires Batch(lines, load).Some? && load(PROBE).Dict?
    requires !SafeLine(before, line, cap, load)
    ensures Batch(lines + [PROBE], load) != Some(ReadAll(lines + [PROBE], cap, load).handled)
  {
    ClearedAfter(before, line, cap, load);
    ReadSnoc(Reading("", []), lines, PROBE, cap, load);
    ProbeFromEmpty(Batch(lines, load).value, cap, load);
    assert ReadAll(lines + [PROBE], cap, load).handled == Batch(lines, load).value + [load(PROBE).o];
    BatchSnoc(before, line, load);
    ProbeMissed(lines, load);
  }

  lemma BreakShows<O>(lines: seq<string>, k: nat, cap: nat, load: string -> Loaded<O>)
    requires k < |lines| && Batch(lines, load).Some? && load(PROBE).Dict?
    requires forall i: nat :: i < k ==> SafeAt(lines, i, cap, load)
    requires !SafeAt(lines, k, cap, load)
    ensures !AgreesAfter(lines, k + 1, cap, load)
  {
    PrefixFine(lines, k, cap, load);
    PrefixDecodes(lines, k + 1, load);
    assert lines[..k + 1] == lines[..k] + [lines[k]];
    ProbeDiffers(lines[..k], lines[k], lines[..k + 1], cap, load);
  }

  /** The first line that breaks the condition. */
  lemma {:induction false} FirstBreak<O>(lines: seq<string>, j: nat, cap: nat, load: string -> Loaded<O>)
    returns (k: nat)
    requires !SafeAt(lines, j, cap, load)
    ensures k <= j && k < |lines| && !SafeAt(lines, k, cap, load)
    ensures forall i: nat :: i < k ==> SafeAt(lines, i, cap, load)
    decreases j
  {
    if i: nat :| i < j && !SafeAt(lines, i, cap, load) {
      k := FirstBreak(lines, i, cap, load);
    } else {
      k := j;
    }
  }

  lemma SafeAgrees<O>(lines: seq<string>, k: nat, cap: nat, load: string -> Loaded<O>)
    requires Batch(lines, load).Some? && load(PROBE).Dict?
    requires Safe(lines, cap, load) && k <= |lines|
    ensures AgreesAfter(lines, k, cap, load)
  {
    PrefixFine(lines, k, cap, load);
    PrefixDecodes(lines, k, load);
    ProbeAgrees(lines[..k], cap, load);
  }

  lemma UnsafeDisagrees<O>(lines: seq<string>, j: nat, cap: nat, load: string -> Loaded<O>) returns (k: nat)
    requires Batch(lines, load).Some? && load(PROBE).Dict?
    requires !SafeAt(lines, j, cap, load)
    ensures k <= |lines| && !AgreesAfter(lines, k, cap, load)
  {
    var i := FirstBreak(lines, j, cap, load);
    BreakShows(lines, i, cap, load);
    k := i + 1;
  }

  /** The condition is the weakest one: for a stream that decodes, it holds exactly when,
      wherever the stream stops, the loop and the batch scan agree on what comes next. */
  lemma BoundaryIsExact<O>(lines: seq<string>, cap: nat, load: string -> Loaded<O>)
    requires Batch(lines, load).Some? && load(PROBE).Dict?
    ensures Safe(lines, cap, load) <==> forall k :: 0 <= k <= |lines| ==> AgreesAfter(lines, k, cap, load)
  {
    if Safe(lines, cap, load) {
      forall k | 0 <= k <= |lines| ensures AgreesAfter(lines, k, cap, load) {
        SafeAgrees(lines, k, cap, load);
      }
    } else {
      var j: nat :| !SafeAt(lines, j, cap, load);
      var k := UnsafeDisagrees(lines, j, cap, load);
    }
  }

  // ---- the two ways to lose an object ------------------------------------

  const OVERLAP := "{}{\n"

  lemma PairCloses()
    ensures After(REST, "{}") == REST
  {
    var open := Scan(1, "{", Out);
    ScanOne(REST, '{');
    ScanOne(open, '}');
    ScanConcat(REST, "{", "}");
    assert "{" + "}" == "{}";
  }

  lemma LineOpens()
    ensures After(REST, "{\n") == Scan(1, "{\n", Out) && Slices(REST, "{\n") == []
  {
    ScanOne(REST, '{');
    ScanOne(Scan(1, "{", Out), '\n');
    ScanConcat(REST, "{", "\n");
    assert "{" + "\n" == "{\n";
  }

  lemma SecondOpens()
    ensures Slices(REST, OVERLAP) == ["{}"] && After(REST, OVERLAP) == Scan(1, "{\n", Out)
  {
    PairSlices(REST);
    PairCloses();
    LineOpens();
    ScanConcat(REST, "{}", "{\n");
    assert "{}" + "{\n" == OVERLAP;
  }

  lemma SecondCloses()
    ensures Slices(Scan(1, "{\n", Out), "}") == ["{\n}"]
  {
    ScanOne(Scan(1, "{\n", Out), '}');
    assert "{\n" + "}" == "{\n}";
  }

  /** Two lines, the first of which empties the buffer and handles `first`; the second one
      closes nothing that the emptied buffer has open. */
  lemma ClosesNothing<O>(line: string, first: seq<O>, cap: nat, load: string -> Loaded<O>)
    requires ReadLine(Reading("", []), line, cap, load) == Reading("", first)
    ensures ReadAll([line, "}"], cap, load).handled == first
  {
    ReadSnoc<O>(Reading("", []), [], line, cap, load);
    ReadSnoc<O>(Reading("", []), [line], "}", cap, load);
    assert [] + [line] == [line] && [line] + ["}"] == [line, "}"] && "" + "}" == "}";
    ScanOne(REST, '}');
    assert first + [] == first;
  }

  lemma TwoLines<O>(line: string, load: string -> Loaded<O>)
    requires Decoded(Slices(REST, line), load).Some? && Fresh([line], "}", load).Some?
    ensures Batch([line, "}"], load) == Some(Decoded(Slices(REST, line), load).value + Fresh([line], "}", load).value)
    ensures Flat([line]) == line
  {
    assert [line] + ["}"] == [line, "}"] && [line][..0] == [] && "" + line == line;
    BatchSnoc([line], "}", load);
  }

  /** The second object starts on the line that ends the first, and is lost. */
  lemma LostObject<O>(o: O, cap: nat)
    ensures var load := (s: string) => Dict(o);
            Batch([OVERLAP, "}"], load) == Some([o, o]) && ReadAll([OVERLAP, "}"], cap, load).handled == [o]
  {
    var load := (s: string) => Dict(o);
    SecondOpens();
    SecondCloses();
    ProbeDecodes(load);
    DecodeOne([], "{\n}", load);
    assert [] + ["{\n}"] == ["{\n}"] && [] + [o] == [o] && [o] + [o] == [o, o];
    assert Flat([OVERLAP]) == OVERLAP by {
      assert [OVERLAP][..0] == [] && "" + OVERLAP == OVERLAP;
    }
    TwoLines(OVERLAP, load);
    assert OVERLAP[1] == '}' && "" + OVERLAP == OVERLAP;
    ClosesNothing(OVERLAP, [o], cap, load);
  }

  /** `n` blanks, a small object and a line end. */
  function Filler(n: nat): Pieces {
    if n == 0 then Cons(Braces(Nil), Cons(Char('\n'), Nil)) else Cons(Char(' '), Filler(n - 1))
  }

  lemma {:induction false} FillerText(n: nat)
    ensures PiecesOk(Filler(n)) && |PiecesText(Filler(n))| == n + 3 && '}' in PiecesText(Filler(n))
  {
    if n == 0 {
      assert PieceText(Braces(Nil)) == "{}";
      assert PiecesText(Filler(0)) == "{}" + ("\n" + "");
      assert ("{}" + ("\n" + ""))[1] == '}';
    } else {
      FillerText(n - 1);
      var rest := PiecesText(Filler(n - 1));
      assert forall k :: 0 <= k < |rest| ==> (" " + rest)[k + 1] == rest[k];
      assert PiecesText(Filler(n)) == " " + PiecesText(Filler(n - 1));
    }
  }

  function LongLine(cap: nat): string {
    "{" + PiecesText(Filler(cap))
  }

  lemma BlockOpensAndCloses(body: Pieces)
    requires PiecesOk(body)
    ensures var line := "{" + PiecesText(body);
            Slices(REST, line) == [] && Slices(After(REST, line), "}") == [line + "}"]
  {
    var line := "{" + PiecesText(body);
    BlockOpens(0, "", body);
    assert "" + line == line;
    ScanOne(Scan(1, line, Out), '}');
  }

  lemma LongLineOpens(cap: nat)
    ensures Slices(REST, LongLine(cap)) == [] && Slices(After(REST, LongLine(cap)), "}") == [LongLine(cap) + "}"]
    ensures '}' in LongLine(cap) && |LongLine(cap)| > cap
  {
    FillerText(cap);
    BlockOpensAndCloses(Filler(cap));
  }

  /** An object whose first line holds another object and passes the cap is dropped while
      it is open, and lost. */
  lemma DroppedObject<O>(o: O, cap: nat)
    ensures var load := (s: string) => Dict(o);
            && Batch([LongLine(cap), "}"], load) == Some([o])
            && ReadAll([LongLine(cap), "}"], cap, load).handled == []
  {
    var load := (s: string) => Dict(o);
    var line := LongLine(cap);
    LongLineOpens(cap);
    DecodeOne([], line + "}", load);
    assert [] + [line + "}"] == [line + "}"] && [] + [o] == [o];
    assert Flat([line]) == line by {
      assert [line][..0] == [] && "" + line == line;
    }
    TwoLines(line, load);
    assert "" + line == line;
    ClosesNothing(line, [], cap, load);
  }

  // ---- cap and recovery --------------------------------------------------

  /** After a line with a closing brace the buffer is empty or fits the cap. */
  lemma CapHolds<O>(st: Loop<O>, line: string, cap: nat, load: string -> Loaded<O>)
    requires '}' in line && ReadLine(st, line, cap, load).Reading?
    ensures |ReadLine(st, line, cap, load).buffer| <= cap
  {
  }

  /** Such a line that completes nothing drops the buffer exactly when it passes the cap,
      and keeps it whole otherwise; a line without a closing brace is only appended. */
  lemma DropsIff<O>(before: string, handled: seq<O>, line: string, cap: nat, load: string -> Loaded<O>)
    requires '}' in line ==> Decoded(Slices(REST, before + line), load) == Some([])
    ensures ReadLine(Reading(before, handled), line, cap, load) ==
            Reading(if '}' in line && |before| + |line| > cap then "" else before + line, handled)
  {
  }

  /** A line without one is never checked, so no bound holds of every stream. */
  lemma BufferIsUnbounded<O>(n: nat, cap: nat, load: string -> Loaded<O>)
    ensures exists lines :: ReadAll<O>(lines, cap, load).Reading? && |ReadAll<O>(lines, cap, load).buffer| > n
  {
    var line := seq(n + 1, i => ' ');
    ReadSnoc<O>(Reading("", []), [], line, cap, load);
    assert "" + line == line && [] + [line] == [line];
    assert '}' !in line;
    assert ReadAll<O>([line], cap, load) == Reading(line, []);
  }

  lemma {:induction false} ReadConcat<O>(st: Loop<O>, a: seq<string>, b: seq<string>, cap: nat,
                                        load: string -> Loaded<O>)
    ensures ReadFrom(st, a + b, cap, load) == ReadFrom(ReadFrom(st, a, cap, load), b, cap, load)
    decreases |b|
  {
    if b == [] {
      assert a + b == a;
    } else {
      var n := |b| - 1;
      assert (a + b)[..|a + b| - 1] == a + b[..n];
      ReadConcat(st, a, b[..n], cap, load);
    }
  }

  function Behind<O>(handled: seq<O>, st: Loop<O>): Loop<O> {
    match st
    case Reading(buffer, more) => Reading(buffer, handled + more)
    case Aborted(more) => Aborted(handled + more)
  }

  lemma BehindLine<O>(handled: seq<O>, st: Loop<O>, line: string, cap: nat, load: string -> Loaded<O>)
    ensures ReadLine(Behind(handled, st), line, cap, load) == Behind(handled, ReadLine(st, line, cap, load))
  {
    if st.Reading? {
      var r := Decoded(Slices(REST, st.buffer + line), load);
      if r.Some? {
        assert handled + (st.handled + r.value) == (handled + st.handled) + r.value;
      }
    }
  }

  lemma {:induction false} FreshStart<O>(handled: seq<O>, lines: seq<string>, cap: nat, load: string -> Loaded<O>)
    ensures ReadFrom(Reading("", handled), lines, cap, load) == Behind(handled, ReadAll(lines, cap, load))
    decreases |lines|
  {
    if lines == [] {
      assert handled + [] == handled;
    } else {
      var n := |lines| - 1;
      FreshStart(handled, lines[..n], cap, load);
      BehindLine(handled, ReadAll(lines[..n], cap, load), lines[n], cap, load);
    }
  }

  /** Whatever poisoned the prefix, once the buffer is empty (a drop or an object)
      the remaining lines are handled exactly as a stream of their own. */
  lemma RecoversAfterDrop<O>(poisoned: seq<string>, rest: seq<string>, cap: nat, load: string -> Loaded<O>)
    requires ReadAll(poisoned, cap, load).Reading? && ReadAll(poisoned, cap, load).buffer == ""
    ensures ReadAll(poisoned + rest, cap, load) ==
            Behind(ReadAll(poisoned, cap, load).handled, ReadAll(rest, cap, load))
  {
    ReadConcat(Reading("", []), poisoned, rest, cap, load);
    FreshStart(ReadAll(poisoned, cap, load).handled, rest, cap, load);
  }
}
