/**
 * The line assembler of src/lineProcessor.js: a buffer with a consumed-prefix offset, fed chunk by
 * chunk, whose callback may throw on any line.
 */
module LineProcessors {
  import opened Options
  import opened LineSpec

  /**
   * What the outside has seen and what is still buffered. `failures` names the callback invocations
   * that throw, counted over the life of the processor.
   */
  datatype Reader = Reader(delivered: seq<string>, rest: string)

  /** Delivers complete lines from the buffer until none is left or the callback throws. */
  function Drain(o: Settings, r: Reader, failures: set<nat>): (Reader, bool)
    requires Usable(o)
    decreases |r.rest|
  {
    var i := IndexOf(r.rest, o.delimiter, 0);
    if i.None? then (r, false)
    else
      var rest := r.rest[i.value + |o.delimiter|..];
      match Normalize(o, r.rest[..i.value])
      case None => Drain(o, Reader(r.delivered, rest), failures)
      case Some(line) =>
        var r' := Reader(r.delivered + [line], rest);
        if |r.delivered| in failures then (r', true) else Drain(o, r', failures)
  }

  /** A buffer that has grown past the cap keeps only its last characters. */
  function Capped(o: Settings, s: string): string {
    if |s| > o.maxBuffer then s[|s| - o.maxBuffer..] else s
  }

  function Feed(o: Settings, r: Reader, chunk: string, failures: set<nat>): (Reader, bool)
    requires Usable(o)
  {
    Drain(o, r.(rest := Capped(o, r.rest + chunk)), failures)
  }

  lemma FirstDelivered(o: Settings, s: string, i: nat)
    requires Usable(o) && IndexOf(s, o.delimiter, 0) == Some(i)
    ensures var rest, line := s[i + |o.delimiter|..], Normalize(o, s[..i]);
            && Tail(s, o.delimiter) == Tail(rest, o.delimiter)
            && Lines(o, s) == if line.Some? then [line.value] + Lines(o, rest) else Lines(o, rest)
  {
    FirstLine(s, o.delimiter, i);
    hide RawLines, Normalize;
    var rest := RawLines(s[i + |o.delimiter|..], o.delimiter);
    assert ([s[..i]] + rest)[1..] == rest;
  }

  /** Lines are delivered in order and at most once each, and a throw loses none of those behind it. */
  lemma {:induction false} DrainConserves(o: Settings, r: Reader, failures: set<nat>)
    requires Usable(o)
    ensures var (r', threw) := Drain(o, r, failures);
            && r'.delivered + Lines(o, r'.rest) == r.delivered + Lines(o, r.rest)
            && Tail(r'.rest, o.delimiter) == Tail(r.rest, o.delimiter)
            && |r'.rest| <= |r.rest|
    decreases |r.rest|
  {
    hide RawLines, Tail, Lines, Normalize;
    if IndexOf(r.rest, o.delimiter, 0).Some? {
      var i := IndexOf(r.rest, o.delimiter, 0).value;
      var rest := r.rest[i + |o.delimiter|..];
      FirstDelivered(o, r.rest, i);
      match Normalize(o, r.rest[..i])
      case None =>
        DrainConserves(o, Reader(r.delivered, rest), failures);
      case Some(line) =>
        var r' := Reader(r.delivered + [line], rest);
        assert r'.delivered + Lines(o, rest) == r.delivered + ([line] + Lines(o, rest));
        DrainConserves(o, r', failures);
    }
  }

  /** A call that does not throw leaves only the undelimited tail. */
  lemma {:induction false} DrainFinishes(o: Settings, r: Reader, failures: set<nat>)
    requires Usable(o) && !Drain(o, r, failures).1
    ensures Drain(o, r, failures).0.rest == Tail(r.rest, o.delimiter)
    ensures IndexOf(Drain(o, r, failures).0.rest, o.delimiter, 0).None?
    decreases |r.rest|
  {
    hide Normalize, RawLines, Tail, IndexOf;
    if IndexOf(r.rest, o.delimiter, 0).None? {
      NoLine(r.rest, o.delimiter);
    } else {
      var i := IndexOf(r.rest, o.delimiter, 0).value;
      var rest := r.rest[i + |o.delimiter|..];
      FirstLine(r.rest, o.delimiter, i);
      match Normalize(o, r.rest[..i])
      case None => DrainFinishes(o, Reader(r.delivered, rest), failures);
      case Some(line) => DrainFinishes(o, Reader(r.delivered + [line], rest), failures);
    }
  }

  /** The callback throws on exactly the invocations that fail, and the call stops at the first of them. */
  lemma {:induction false} ThrowStops(o: Settings, r: Reader, failures: set<nat>)
    requires Usable(o)
    ensures var (r', threw) := Drain(o, r, failures);
            && |r.delivered| <= |r'.delivered|
            && (threw ==> |r'.delivered| > |r.delivered| && |r'.delivered| - 1 in failures)
            && (forall k :: |r.delivered| <= k < |r'.delivered| - (if threw then 1 else 0) ==> k !in failures)
    decreases |r.rest|
  {
    hide Normalize, IndexOf;
    var d := o.delimiter;
    if IndexOf(r.rest, d, 0).Some? {
      var i := IndexOf(r.rest, d, 0).value;
      var rest := r.rest[i + |d|..];
      match Normalize(o, r.rest[..i])
      case None => ThrowStops(o, Reader(r.delivered, rest), failures);
      case Some(line) =>
        if |r.delivered| !in failures {
          ThrowStops(o, Reader(r.delivered + [line], rest), failures);
        }
    }
  }

  function Concat(chunks: seq<string>): string {
    if chunks == [] then [] else chunks[0] + Concat(chunks[1..])
  }

  function FeedAll(o: Settings, r: Reader, chunks: seq<string>, failures: set<nat>): Reader
    requires Usable(o)
    decreases |chunks|
  {
    if chunks == [] then r else FeedAll(o, Feed(o, r, chunks[0], failures).0, chunks[1..], failures)
  }

  predicate NeverCapped(o: Settings, r: Reader, chunks: seq<string>, failures: set<nat>)
    requires Usable(o)
    decreases |chunks|
  {
    chunks == []
    || (|r.rest| + |chunks[0]| <= o.maxBuffer
        && NeverCapped(o, Feed(o, r, chunks[0], failures).0, chunks[1..], failures))
  }

  lemma LinesAppend(o: Settings, s: string, t: string)
    requires Usable(o)
    ensures Lines(o, s + t) == Lines(o, s) + Lines(o, Tail(s, o.delimiter) + t)
  {
    SplitAppend(s, t, o.delimiter);
    NormalizeAppend(o, RawLines(s, o.delimiter), RawLines(Tail(s, o.delimiter) + t, o.delimiter));
  }

  /** What has been delivered and what is buffered stand for the whole stream read so far. */
  ghost predicate Represents(o: Settings, r: Reader, delivered: seq<string>, stream: string)
    requires Usable(o)
  {
    && r.delivered + Lines(o, r.rest) == delivered + Lines(o, stream)
    && Tail(r.rest, o.delimiter) == Tail(stream, o.delimiter)
  }

  lemma RepresentsMore(o: Settings, r: Reader, delivered: seq<string>, stream: string, more: string)
    requires Usable(o) && Represents(o, r, delivered, stream)
    ensures Represents(o, r.(rest := r.rest + more), delivered, stream + more)
  {
    LinesAppend(o, stream, more);
    LinesAppend(o, r.rest, more);
    SplitAppend(stream, more, o.delimiter);
    SplitAppend(r.rest, more, o.delimiter);
    hide Lines, Tail, RawLines;
    var next := Lines(o, Tail(stream, o.delimiter) + more);
    Associate(r.delivered, Lines(o, r.rest), next);
    Associate(delivered, Lines(o, stream), next);
  }

  lemma Associate<T>(a: seq<T>, b: seq<T>, c: seq<T>)
    ensures a + (b + c) == (a + b) + c
  {
  }

  /**
   * Chunk invariance with failures: however the stream is cut, and whichever callbacks throw, what
   * has been delivered followed by what is still to deliver is the split of the whole stream.
   */
  lemma {:induction false} ChunksDoNotMatter(o: Settings, r: Reader, delivered: seq<string>, stream: string,
                                             chunks: seq<string>, failures: set<nat>)
    requires Usable(o) && NeverCapped(o, r, chunks, failures) && Represents(o, r, delivered, stream)
    ensures Represents(o, FeedAll(o, r, chunks, failures), delivered, stream + Concat(chunks))
    decreases |chunks|
  {
    hide Lines, Tail, Drain;
    if chunks == [] {
      assert stream + Concat(chunks) == stream;
    } else {
      RepresentsMore(o, r, delivered, stream, chunks[0]);
      DrainConserves(o, r.(rest := r.rest + chunks[0]), failures);
      ChunksDoNotMatter(o, Feed(o, r, chunks[0], failures).0, delivered, stream + chunks[0], chunks[1..], failures);
      assert stream + Concat(chunks) == (stream + chunks[0]) + Concat(chunks[1..]);
    }
  }

  /** With no failing callback, the chunks deliver the split of the stream and buffer its tail. */
  lemma StreamIsSplit(o: Settings, chunks: seq<string>)
    requires Usable(o) && NeverCapped(o, Reader([], []), chunks, {})
    ensures FeedAll(o, Reader([], []), chunks, {}) ==
            Reader(Lines(o, Concat(chunks)), Tail(Concat(chunks), o.delimiter))
  {
    var r := FeedAll(o, Reader([], []), chunks, {});
    assert [] + Concat(chunks) == Concat(chunks);
    ChunksDoNotMatter(o, Reader([], []), [], [], chunks, {});
    FedWithoutFailure(o, Reader([], []), chunks);
    assert RawLines(r.rest, o.delimiter) == [];
    assert r.delivered + Lines(o, r.rest) == r.delivered;
  }

  lemma {:induction false} FedWithoutFailure(o: Settings, r: Reader, chunks: seq<string>)
    requires Usable(o) && IndexOf(r.rest, o.delimiter, 0).None?
    ensures IndexOf(FeedAll(o, r, chunks, {}).rest, o.delimiter, 0).None?
    decreases |chunks|
  {
    if chunks != [] {
      var start := r.(rest := Capped(o, r.rest + chunks[0]));
      ThrowStops(o, start, {});
      DrainFinishes(o, start, {});
      FedWithoutFailure(o, Drain(o, start, {}).0, chunks[1..]);
    }
  }

  /** No call ever leaves more than the cap in the buffer, whatever arrives and whatever throws. */
  lemma FeedStaysCapped(o: Settings, r: Reader, chunk: string, failures: set<nat>)
    requires Usable(o)
    ensures |Feed(o, r, chunk, failures).0.rest| <= o.maxBuffer
  {
    DrainConserves(o, r.(rest := Capped(o, r.rest + chunk)), failures);
  }

  /** The rest of the stream may end without a delimiter: closing delivers it as one last line. */
  function FinalLine(o: Settings, r: Reader, failures: set<nat>): (Reader, bool) {
    if r.rest == [] then (r, false)
    else match Normalize(o, r.rest)
         case None => (r.(rest := []), false)
         case Some(line) =>
           if |r.delivered| in failures then (r.(delivered := r.delivered + [line]), true)
           else (Reader(r.delivered + [line], []), false)
  }

  /** What is to be delivered of a text taken as one last line. */
  function LastLine(o: Settings, s: string): seq<string> {
    if s == [] then [] else NormalizeAll(o, [s])
  }

  /** What a text is to deliver in all: its lines, then its tail. */
  function Remaining(o: Settings, s: string): seq<string>
    requires Usable(o)
  {
    Lines(o, s) + LastLine(o, Tail(s, o.delimiter))
  }

  /** The callback throws on the line that closing delivers. */
  predicate FailsAtClose(o: Settings, r: Reader, failures: set<nat>) {
    LastLine(o, r.rest) != [] && |r.delivered| in failures
  }

  lemma FinalLineIs(o: Settings, r: Reader, failures: set<nat>)
    ensures FinalLine(o, r, failures) ==
            (Reader(r.delivered + LastLine(o, r.rest), if FailsAtClose(o, r, failures) then r.rest else []),
             FailsAtClose(o, r, failures))
    ensures |LastLine(o, r.rest)| <= 1
  {
    hide Normalize;
    assert [r.rest][1..] == [];
    assert NormalizeAll(o, [r.rest]) == match Normalize(o, r.rest) case Some(line) => [line] case None => [];
    assert r.delivered + [] == r.delivered;
  }

  /**
   * Closing twice delivers the rest once if and only if the callback does not throw on it; a throw keeps
   * the rest, and closing again delivers the same line again.
   */
  lemma ClosesOnceIff(o: Settings, r: Reader, failures: set<nat>)
    ensures var r1 := FinalLine(o, r, failures).0;
            var r2 := FinalLine(o, r1, failures).0;
            && r2.delivered == r.delivered + LastLine(o, r.rest)
                               + (if FailsAtClose(o, r, failures) then LastLine(o, r.rest) else [])
            && (r2.delivered == r.delivered + LastLine(o, r.rest) <==> !FailsAtClose(o, r, failures))
  {
    var r1 := FinalLine(o, r, failures).0;
    FinalLineIs(o, r, failures);
    FinalLineIs(o, r1, failures);
    hide FinalLine, NormalizeAll, Normalize;
    assert r1.delivered + [] == r1.delivered;
  }

  /** Whether the last of the calls threw, as its caller sees it. */
  predicate LastThrew(o: Settings, r: Reader, chunks: seq<string>, failures: set<nat>)
    requires Usable(o)
    decreases |chunks|
  {
    if chunks == [] then false
    else if |chunks| == 1 then Feed(o, r, chunks[0], failures).1
    else LastThrew(o, Feed(o, r, chunks[0], failures).0, chunks[1..], failures)
  }

  lemma {:induction false} QuietCallFinishes(o: Settings, r: Reader, chunks: seq<string>, failures: set<nat>)
    requires Usable(o) && !LastThrew(o, r, chunks, failures)
    requires chunks == [] ==> IndexOf(r.rest, o.delimiter, 0).None?
    ensures IndexOf(FeedAll(o, r, chunks, failures).rest, o.delimiter, 0).None?
    decreases |chunks|
  {
    hide Drain, IndexOf;
    if chunks != [] {
      var r' := Feed(o, r, chunks[0], failures).0;
      if |chunks| == 1 {
        DrainFinishes(o, r.(rest := Capped(o, r.rest + chunks[0])), failures);
        assert FeedAll(o, r', chunks[1..], failures) == r';
      } else {
        QuietCallFinishes(o, r', chunks[1..], failures);
      }
    }
  }

  lemma WholeStream(o: Settings, chunks: seq<string>, failures: set<nat>)
    requires Usable(o) && NeverCapped(o, Reader([], []), chunks, failures)
    ensures var r := FeedAll(o, Reader([], []), chunks, failures);
            r.delivered + Remaining(o, r.rest) == Remaining(o, Concat(chunks))
  {
    var start: Reader := Reader([], []);
    var r, stream := FeedAll(o, start, chunks, failures), Concat(chunks);
    assert [] + stream == stream;
    ChunksDoNotMatter(o, start, [], [], chunks, failures);
    hide FeedAll, Lines, Tail, LastLine;
    Associate(r.delivered, Lines(o, r.rest), LastLine(o, Tail(stream, o.delimiter)));
    assert [] + Lines(o, stream) == Lines(o, stream);
  }

  /**
   * Reading a whole stream and closing delivers its lines and then its tail, each once, whichever
   * callbacks throw on the way, provided the last call was not cut short. Closing a second time adds
   * nothing, unless the callback threw on the tail itself.
   */
  lemma ClosedStreamIsSplit(o: Settings, chunks: seq<string>, failures: set<nat>)
    requires Usable(o) && NeverCapped(o, Reader([], []), chunks, failures)
    requires !LastThrew(o, Reader([], []), chunks, failures)
    ensures var r := FeedAll(o, Reader([], []), chunks, failures);
            var r1 := FinalLine(o, r, failures).0;
            && r1.delivered == Remaining(o, Concat(chunks))
            && (FinalLine(o, r1, failures).0.delivered == Remaining(o, Concat(chunks))
                <==> !FailsAtClose(o, r, failures))
  {
    var r := FeedAll(o, Reader([], []), chunks, failures);
    WholeStream(o, chunks, failures);
    QuietCallFinishes(o, Reader([], []), chunks, failures);
    NoLine(r.rest, o.delimiter);
    assert Remaining(o, r.rest) == LastLine(o, r.rest);
    hide FinalLine, Remaining, FeedAll, LastLine;
    FinalLineIs(o, r, failures);
    ClosesOnceIff(o, r, failures);
  }

  lemma NormalizeOne(o: Settings, s: string)
    ensures NormalizeAll(o, [s]) == match Normalize(o, s) case Some(line) => [line] case None => []
  {
    hide Normalize;
    assert [s][1..] == [];
  }

  lemma LastLineIs(o: Settings, s: string)
    requires o.trimLines
    ensures LastLine(o, s) == if s == [] || (o.skipEmptyLines && Trim(s) == []) then [] else [Trim(s)]
  {
    NormalizeTrims(o, s);
    NormalizeOne(o, s);
    hide Normalize, NormalizeAll, Trim;
  }

  lemma CutAt(s: string, d: string, i: nat)
    requires OccursAt(s, d, i)
    ensures s == s[..i] + (d + s[i + |d|..])
  {
    assert s == s[..i] + (s[i..i + |d|] + s[i + |d|..]);
  }

  lemma RemainingFrom(o: Settings, s: string, i: nat)
    requires Usable(o) && IndexOf(s, o.delimiter, 0) == Some(i)
    ensures s == s[..i] + (o.delimiter + s[i + |o.delimiter|..])
    ensures Remaining(o, s) == NormalizeAll(o, [s[..i]]) + Remaining(o, s[i + |o.delimiter|..])
  {
    hide Lines, Tail, Normalize, NormalizeAll, LastLine, IndexOf;
    var first, rest := s[..i], s[i + |o.delimiter|..];
    IndexOfIsFirst(s, o.delimiter, 0);
    CutAt(s, o.delimiter, i);
    FirstDelivered(o, s, i);
    NormalizeOne(o, first);
    hide OccursAt;
    Associate(NormalizeAll(o, [first]), Lines(o, rest), LastLine(o, Tail(rest, o.delimiter)));
    assert [] + Lines(o, rest) == Lines(o, rest);
  }

  /** What is to deliver nothing is blank, and empty if blank lines are delivered. */
  lemma {:induction false} NothingRemains(o: Settings, s: string)
    requires Usable(o) && o.trimLines && AllSpace(o.delimiter) && Remaining(o, s) == []
    ensures AllSpace(s) && (s == [] || o.skipEmptyLines)
    decreases |s|
  {
    hide IsSpace;
    if IndexOf(s, o.delimiter, 0).None? {
      NoLine(s, o.delimiter);
      LastLineIs(o, s);
      TrimmedAwayIffSpace(s);
    } else {
      var i := IndexOf(s, o.delimiter, 0).value;
      RemainingFrom(o, s, i);
      NormalizeOne(o, s[..i]);
      hide Remaining, Normalize, NormalizeAll;
      SkippedIffBlank(o, s[..i]);
      NothingRemains(o, s[i + |o.delimiter|..]);
    }
  }

  lemma BlankBefore(o: Settings, blank: string, s: string)
    requires o.trimLines && o.skipEmptyLines && AllSpace(blank)
    ensures LastLine(o, blank + s) == LastLine(o, s)
  {
    hide IsSpace, Trim;
    LastLineIs(o, blank + s);
    LastLineIs(o, s);
    TrimIgnoresSpace(blank, s, []);
    assert blank + s + [] == blank + s;
    TrimmedAwayIffSpace(s);
  }

  lemma BlankBehind(o: Settings, s: string, blank: string)
    requires o.trimLines && AllSpace(blank) && blank != [] && Normalize(o, s).Some?
    ensures LastLine(o, s + blank) == NormalizeAll(o, [s])
  {
    hide IsSpace, Trim;
    LastLineIs(o, s + blank);
    NormalizeOne(o, s);
    NormalizeTrims(o, s);
    TrimIgnoresSpace([], s, blank);
    assert [] + s + blank == s + blank;
    hide Normalize, NormalizeAll, LastLine;
  }

  lemma FirstThenRest(o: Settings, s: string, i: nat)
    requires Usable(o) && o.trimLines && AllSpace(o.delimiter) && IndexOf(s, o.delimiter, 0) == Some(i)
    requires var rest := s[i + |o.delimiter|..]; |Remaining(o, rest)| <= 1 ==> LastLine(o, rest) == Remaining(o, rest)
    requires |Remaining(o, s)| <= 1
    ensures LastLine(o, s) == Remaining(o, s)
  {
    hide IsSpace, Normalize, NormalizeAll, Remaining, LastLine, IndexOf;
    var first, rest := s[..i], s[i + |o.delimiter|..];
    RemainingFrom(o, s, i);
    NormalizeOne(o, first);
    SkippedIffBlank(o, first);
    if Normalize(o, first).None? {
      BlankBefore(o, first + o.delimiter, rest);
      assert first + o.delimiter + rest == s;
      assert [] + Remaining(o, rest) == Remaining(o, rest);
    } else {
      NothingRemains(o, rest);
      BlankBehind(o, first, o.delimiter + rest);
      assert NormalizeAll(o, [first]) + [] == NormalizeAll(o, [first]);
    }
  }

  /** A text that is to deliver at most one line, and only such a text, delivers the same taken as one line. */
  lemma {:induction false} OneLineIsWhole(o: Settings, s: string)
    requires Usable(o) && o.trimLines && AllSpace(o.delimiter)
    ensures LastLine(o, s) == Remaining(o, s) <==> |Remaining(o, s)| <= 1
    decreases |s|
  {
    hide Normalize, NormalizeAll, IndexOf, AllSpace, Trim;
    LastLineIs(o, s);
    var i := IndexOf(s, o.delimiter, 0);
    if i.None? {
      NoLine(s, o.delimiter);
      NormalizeNone(o);
      assert Remaining(o, s) == LastLine(o, s);
    } else {
      IndexOfIsFirst(s, o.delimiter, 0);
      OneLineIsWhole(o, s[i.value + |o.delimiter|..]);
      hide Remaining, LastLine;
      if |Remaining(o, s)| <= 1 {
        FirstThenRest(o, s, i.value);
      }
    }
  }

  lemma NormalizeNone(o: Settings)
    ensures NormalizeAll(o, []) == []
  {
  }

  lemma ThreeLines(o: Settings)
    requires Usable(o) && o.delimiter == NEWLINE
    ensures IndexOf("a\nb\nc\n", NEWLINE, 0) == Some(1) && "a\nb\nc\n"[1 + |NEWLINE|..] == "b\nc\n"
    ensures RawLines("b\nc\n", NEWLINE) == ["b", "c"] && Tail("b\nc\n", NEWLINE) == ""
  {
    assert IndexOf("a\nb\nc\n", NEWLINE, 1) == Some(1);
    assert IndexOf("b\nc\n", NEWLINE, 1) == Some(1) && "b\nc\n"[2..] == "c\n" && "b\nc\n"[..1] == "b";
    assert IndexOf("c\n", NEWLINE, 1) == Some(1) && "c\n"[2..] == "" && "c\n"[..1] == "c";
    assert RawLines("", NEWLINE) == [];
    assert RawLines("c\n", NEWLINE) == ["c"] + RawLines("", NEWLINE);
    assert RawLines("b\nc\n", NEWLINE) == ["b"] + RawLines("c\n", NEWLINE);
  }

  lemma LettersAreNoSpace()
    ensures !IsSpace('a') && !IsSpace('b') && !IsSpace('c') && AllSpace(NEWLINE)
  {
  }

  lemma TrimmedLetters(o: Settings)
    requires o.trimLines
    ensures Normalize(o, "a") == Some("a") && Normalize(o, "b") == Some("b") && Normalize(o, "c") == Some("c")
    ensures Trim("b\nc\n") == "b\nc"
  {
    LettersAreNoSpace();
    hide IsSpace, AllSpace, Normalize;
    NothingToTrim("a");
    NothingToTrim("b");
    NothingToTrim("c");
    NothingToTrim("b\nc");
    hide Trim;
    NormalizeTrims(o, "a");
    NormalizeTrims(o, "b");
    NormalizeTrims(o, "c");
    EmptyIsSpace();
    TrimIgnoresSpace([], "b\nc", NEWLINE);
    assert [] + "b\nc" + NEWLINE == "b\nc\n";
  }

  lemma EmptyIsSpace()
    ensures AllSpace([])
  {
  }

  lemma FirstOfThreeThrows(o: Settings)
    requires Usable(o) && o.delimiter == NEWLINE && o.trimLines && o.maxBuffer >= 6
    ensures var chunks, start := ["a\nb\nc\n"], Reader([], []);
            NeverCapped(o, start, chunks, {0}) && FeedAll(o, start, chunks, {0}) == Reader(["a"], "b\nc\n")
  {
    hide Normalize, Trim, RawLines, Tail, IndexOf, Drain;
    var text, rest := "a\nb\nc\n", "b\nc\n";
    var chunks, start := [text], Reader([], []);
    assert [] + text == text && chunks[1..] == [];
    ThreeLines(o);
    TrimmedLetters(o);
    DrainOnce(o, Reader([], text), {0});
    assert text[..1] == "a" && [] + ["a"] == ["a"];
    assert Feed(o, start, text, {0}).0 == Reader(["a"], rest);
  }

  /**
   * Such an input: of three lines in one chunk the first makes the callback throw, and closing runs
   * the others together.
   */
  lemma PendingLinesRunTogether(o: Settings)
    requires Usable(o) && o.delimiter == NEWLINE && o.trimLines && o.maxBuffer >= 6
    ensures var chunks, start := ["a\nb\nc\n"], Reader([], []);
            var r := FeedAll(o, start, chunks, {0});
            && NeverCapped(o, start, chunks, {0}) && r.delivered == ["a"]
            && Remaining(o, r.rest) == ["b", "c"] && FinalLine(o, r, {0}).0.delivered == ["a", "b\nc"]
  {
    hide FeedAll, NeverCapped, FinalLine, Normalize, Trim, RawLines, Tail, IndexOf;
    var rest := "b\nc\n";
    FirstOfThreeThrows(o);
    ThreeLines(o);
    TrimmedLetters(o);
    assert NormalizeAll(o, ["b", "c"]) == ["b", "c"] by {
      NormalizeOne(o, "c");
      assert ["b", "c"][1..] == ["c"];
    }
    FinalLineIs(o, Reader(["a"], rest), {0});
    LastLineIs(o, rest);
  }

  /** Offsets into one buffer find the same occurrence as searching the remainder. */
  lemma {:induction false} IndexOfShifted(s: string, d: string, from: nat, k: nat)
    requires from + k <= |s|
    ensures IndexOf(s[from..], d, k) ==
            match IndexOf(s, d, from + k) case None => None case Some(i) => Some(i - from)
    decreases |s| - k
  {
    if from + k + |d| <= |s| {
      assert s[from..][k..k + |d|] == s[from + k..from + k + |d|];
      assert OccursAt(s[from..], d, k) == OccursAt(s, d, from + k);
      if !OccursAt(s, d, from + k) {
        IndexOfShifted(s, d, from, k + 1);
      }
    }
  }

  /** One turn of the loop, searching the whole buffer from an offset. */
  function Turn(o: Settings, delivered: seq<string>, line: Option<string>, rest: string, failures: set<nat>)
    : (Reader, bool)
    requires Usable(o)
  {
    match line
    case None => Drain(o, Reader(delivered, rest), failures)
    case Some(l) =>
      if |delivered| in failures then (Reader(delivered + [l], rest), true)
      else Drain(o, Reader(delivered + [l], rest), failures)
  }

  lemma DrainOnce(o: Settings, r: Reader, failures: set<nat>)
    requires Usable(o)
    ensures var i := IndexOf(r.rest, o.delimiter, 0);
            Drain(o, r, failures) ==
            if i.None? then (r, false)
            else Turn(o, r.delivered, Normalize(o, r.rest[..i.value]), r.rest[i.value + |o.delimiter|..], failures)
  {
    hide IndexOf, Normalize;
  }

  lemma DrainFrom(o: Settings, delivered: seq<string>, text: string, from: nat, failures: set<nat>)
    requires Usable(o) && from <= |text|
    ensures var i := IndexOf(text, o.delimiter, from);
            Drain(o, Reader(delivered, text[from..]), failures) ==
            if i.None? then (Reader(delivered, text[from..]), false)
            else Turn(o, delivered, Normalize(o, text[from..i.value]), text[i.value + |o.delimiter|..], failures)
  {
    hide Drain, Turn, Normalize, IndexOf;
    IndexOfShifted(text, o.delimiter, from, 0);
    DrainOnce(o, Reader(delivered, text[from..]), failures);
    var i := IndexOf(text, o.delimiter, from);
    if i.Some? {
      assert text[from..][..i.value - from] == text[from..i.value];
      assert text[from..][i.value - from + |o.delimiter|..] == text[i.value + |o.delimiter|..];
    }
  }

  class LineProcessor {
    const options: Settings
    var hasLineProcessor: bool
    var buffer: string
    var bufferOffset: nat
    var delivered: seq<string>

    ghost predicate Valid()
      reads this
    {
      Usable(options) && bufferOffset <= |buffer|
    }

    ghost function Abs(): Reader
      reads this
      requires Valid()
    {
      Reader(delivered, buffer[bufferOffset..])
    }

    constructor (delimiter: string, trimLines: bool, skipEmptyLines: bool, maxBuffer: int)
      ensures Valid() && options == Resolved(delimiter, trimLines, skipEmptyLines, maxBuffer)
      ensures Abs() == Reader([], []) && !hasLineProcessor
    {
      options := Resolved(delimiter, trimLines, skipEmptyLines, maxBuffer);
      hasLineProcessor, buffer, bufferOffset, delivered := false, [], 0, [];
    }

    /** Folds a pending offset back into the buffer. */
    method MaterializeBuffer()
      requires Valid()
      modifies this`buffer, this`bufferOffset
      ensures Valid() && Abs() == old(Abs()) && bufferOffset == 0
    {
      if bufferOffset > 0 {
        buffer := buffer[bufferOffset..];
        bufferOffset := 0;
      }
    }

    /** One complete line: `threw` when the callback was invoked on it and threw. */
    method ProcessLine(line: string, failures: set<nat>) returns (threw: bool)
      requires Valid()
      modifies this`delivered
      ensures match Normalize(options, line)
              case None => !threw && delivered == old(delivered)
              case Some(l) => delivered == old(delivered) + [l] && (threw <==> |old(delivered)| in failures)
    {
      var normalized := Normalize(options, line);
      if normalized.None? {
        return false;
      }
      delivered := delivered + [normalized.value];
      threw := |delivered| - 1 in failures;
    }

    method ProcessData(data: string, failures: set<nat>) returns (threw: bool)
      requires Valid()
      modifies this
      ensures Valid() && hasLineProcessor
      ensures (Abs(), threw) == Feed(options, old(Abs()), data, failures)
    {
      hide Drain, Normalize, IndexOf;
      hasLineProcessor := true;
      MaterializeBuffer();
      buffer := buffer + data;
      if |buffer| > options.maxBuffer {
        buffer := buffer[|buffer| - options.maxBuffer..];
      }
      var text, d := buffer, options.delimiter;
      ghost var start := Reader(delivered, text);
      assert Feed(options, old(Abs()), data, failures) == Drain(options, start, failures);
      var searchStart := 0;
      var delimiterIndex := IndexOf(text, d, searchStart);
      assert text[0..] == text;
      hide Capped, Feed;
      while delimiterIndex.Some?
        invariant Valid() && hasLineProcessor && buffer == text && searchStart <= |text| && bufferOffset == searchStart
        invariant delimiterIndex == IndexOf(text, d, searchStart)
        invariant Drain(options, start, failures) == Drain(options, Reader(delivered, text[searchStart..]), failures)
        decreases |text| - searchStart
      {
        DrainFrom(options, delivered, text, searchStart, failures);
        var rawLine := text[searchStart..delimiterIndex.value];
        searchStart := delimiterIndex.value + |d|;
        bufferOffset := searchStart;
        threw := ProcessLine(rawLine, failures);
        if threw {
          return;
        }
        delimiterIndex := IndexOf(text, d, searchStart);
      }
      DrainFrom(options, delivered, text, searchStart, failures);
      if searchStart > 0 {
        buffer := text[searchStart..];
        bufferOffset := 0;
      }
      threw := false;
    }

    method ProcessFinalLine(failures: set<nat>) returns (threw: bool)
      requires Valid() && hasLineProcessor
      modifies this
      ensures Valid() && (Abs(), threw) == FinalLine(options, old(Abs()), failures)
    {
      MaterializeBuffer();
      threw := false;
      if buffer != [] {
        threw := ProcessLine(buffer, failures);
        if threw {
          return;
        }
        buffer := [];
      }
    }

    method Close(failures: set<nat>) returns (threw: bool)
      requires Valid()
      modifies this
      ensures Valid() && (!threw ==> !hasLineProcessor)
      ensures (Abs(), threw) == if old(hasLineProcessor) then FinalLine(options, old(Abs()), failures)
                                else (Reader(old(delivered), []), false)
    {
      MaterializeBuffer();
      threw := false;
      if buffer != [] && hasLineProcessor {
        threw := ProcessLine(buffer, failures);
        if threw {
          return;
        }
      }
      buffer, bufferOffset, hasLineProcessor := [], 0, false;
    }
  }
}
