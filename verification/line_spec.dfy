/**
 * The reference for src/lineProcessor.js: how a whole character stream splits into lines, and why
 * the split does not depend on how the stream was cut into chunks.
 */
module LineSpec {
  import opened Options

  datatype Settings = Settings(delimiter: string, trimLines: bool, skipEmptyLines: bool, maxBuffer: nat)

  const NEWLINE := "\n"
  const DEFAULT_MAX_BUFFER: nat := 1024 * 1024

  predicate Usable(o: Settings) {
    o.delimiter != [] && o.maxBuffer > 0
  }

  /** An absent or empty delimiter falls back to a newline, and a cap that is not positive to the default. */
  function Resolved(delimiter: string, trimLines: bool, skipEmptyLines: bool, maxBuffer: int): (o: Settings)
    ensures Usable(o)
  {
    Settings(if delimiter == [] then NEWLINE else delimiter, trimLines, skipEmptyLines,
             if maxBuffer > 0 then maxBuffer else DEFAULT_MAX_BUFFER)
  }

  /** A newline and a mebibyte, unless the options say otherwise. */
  lemma DefaultsApply(trimLines: bool, skipEmptyLines: bool)
    ensures Resolved("", trimLines, skipEmptyLines, 0) == Settings("\n", trimLines, skipEmptyLines, 1048576)
    ensures forall d, max :: d != [] && max > 0 ==> Resolved(d, trimLines, skipEmptyLines, max) ==
                                                    Settings(d, trimLines, skipEmptyLines, max)
    ensures forall max :: max <= 0 ==> Resolved("", trimLines, skipEmptyLines, max).maxBuffer == 1048576
  {
  }

  predicate OccursAt(s: string, d: string, i: nat) {
    i + |d| <= |s| && s[i..i + |d|] == d
  }

  /** `indexOf`: the first occurrence of d in s at or after `from`. */
  function IndexOf(s: string, d: string, from: nat): (r: Option<nat>)
    ensures r.Some? ==> from <= r.value && r.value + |d| <= |s|
    decreases |s| - from
  {
    if from + |d| > |s| then None
    else if OccursAt(s, d, from) then Some(from)
    else IndexOf(s, d, from + 1)
  }

  lemma {:induction false} IndexOfIsFirst(s: string, d: string, from: nat)
    ensures var r := IndexOf(s, d, from);
            && (r.Some? ==> OccursAt(s, d, r.value))
            && forall i :: from <= i && (r.Some? ==> i < r.value) ==> !OccursAt(s, d, i)
    decreases |s| - from
  {
    if from + |d| <= |s| && !OccursAt(s, d, from) {
      IndexOfIsFirst(s, d, from + 1);
    }
  }

  /** The complete lines of a stream, before any trimming. */
  function RawLines(s: string, d: string): seq<string>
    requires d != []
    decreases |s|
  {
    var i := IndexOf(s, d, 0);
    if i.None? then [] else [s[..i.value]] + RawLines(s[i.value + |d|..], d)
  }

  /** What follows the last delimiter. */
  function Tail(s: string, d: string): string
    requires d != []
    decreases |s|
  {
    var i := IndexOf(s, d, 0);
    if i.None? then s else Tail(s[i.value + |d|..], d)
  }

  /** The characters `String.prototype.trim` removes. */
  predicate IsSpace(c: char) {
    c in " \t\n\r\U{000B}\U{000C}\U{00A0}\U{1680}\U{2028}\U{2029}\U{202F}\U{205F}\U{3000}\U{FEFF}"
    || '\U{2000}' <= c <= '\U{200A}'
  }

  /** The white space and line ends of ECMAScript, by their code points. */
  lemma SpaceCodes(c: char)
    ensures IsSpace(c) <==>
            || c as int in {9, 10, 11, 12, 13, 32, 160, 5760, 8232, 8233, 8239, 8287, 12288, 65279}
            || 8192 <= c as int <= 8202
  {
  }

  function TrimStart(s: string): string {
    if s != [] && IsSpace(s[0]) then TrimStart(s[1..]) else s
  }

  function TrimEnd(s: string): string {
    if s != [] && IsSpace(s[|s| - 1]) then TrimEnd(s[..|s| - 1]) else s
  }

  function Trim(s: string): string {
    TrimEnd(TrimStart(s))
  }

  function WithoutReturn(line: string): string {
    if line != [] && line[|line| - 1] == '\r' then line[..|line| - 1] else line
  }

  /** One line as the callback sees it, or None when it is skipped. */
  function Normalize(o: Settings, line: string): Option<string> {
    var l1 := WithoutReturn(line);
    var l2 := if o.trimLines then Trim(l1) else l1;
    if o.skipEmptyLines && l2 == [] then None else Some(l2)
  }

  predicate AllSpace(s: string) {
    forall i :: 0 <= i < |s| ==> IsSpace(s[i])
  }

  lemma {:induction false} TrimStartStrips(s: string)
    ensures |TrimStart(s)| <= |s| && TrimStart(s) == s[|s| - |TrimStart(s)|..]
    ensures AllSpace(s[..|s| - |TrimStart(s)|])
    ensures TrimStart(s) != [] ==> !IsSpace(TrimStart(s)[0])
  {
    hide IsSpace;
    if s != [] && IsSpace(s[0]) {
      TrimStartStrips(s[1..]);
      var n := |s| - |TrimStart(s)|;
      assert s[..n] == [s[0]] + s[1..][..n - 1];
    }
  }

  lemma {:induction false} TrimEndStrips(s: string)
    ensures |TrimEnd(s)| <= |s| && TrimEnd(s) == s[..|TrimEnd(s)|] && AllSpace(s[|TrimEnd(s)|..])
    ensures TrimEnd(s) != [] ==> !IsSpace(TrimEnd(s)[|TrimEnd(s)| - 1])
  {
    hide IsSpace;
    if s != [] && IsSpace(s[|s| - 1]) {
      var init := s[..|s| - 1];
      TrimEndStrips(init);
      assert s[|TrimEnd(init)|..] == init[|TrimEnd(init)|..] + [s[|s| - 1]];
    }
  }

  lemma TrimStrips(s: string) returns (before: string, after: string)
    ensures var kept := Trim(s);
            && s == before + kept + after && AllSpace(before) && AllSpace(after)
            && (kept != [] ==> !IsSpace(kept[0]) && !IsSpace(kept[|kept| - 1]))
  {
    hide IsSpace;
    var t := TrimStart(s);
    TrimStartStrips(s);
    TrimEndStrips(t);
    hide TrimStart, TrimEnd;
    before, after := s[..|s| - |t|], t[|TrimEnd(t)|..];
    assert s == before + t && t == TrimEnd(t) + after;
    assert TrimEnd(t) != [] ==> TrimEnd(t)[0] == t[0];
  }

  /**
   * What a delivered line is: the raw line without one trailing carriage return, and without any
   * surrounding space if lines are trimmed. Nothing else is taken away, and nothing empty is delivered
   * when empty lines are skipped.
   */
  lemma NormalizeStrips(o: Settings, line: string) returns (before: string, after: string)
    requires Normalize(o, line).Some?
    ensures var kept := Normalize(o, line).value;
            && line == before + kept + after && AllSpace(before) && AllSpace(after)
            && (o.trimLines && kept != [] ==> !IsSpace(kept[0]) && !IsSpace(kept[|kept| - 1]))
            && (!o.trimLines ==> before == [] && after == if line != [] && line[|line| - 1] == '\r' then "\r" else [])
            && (o.skipEmptyLines ==> kept != [])
  {
    var l1 := WithoutReturn(line);
    var ret := line[|l1|..];
    assert line == l1 + ret && (ret == [] || ret == "\r");
    hide TrimStart, TrimEnd, WithoutReturn;
    if o.trimLines {
      before, after := TrimStrips(l1);
      Regroup(before, Trim(l1), after, ret);
      after := after + ret;
    } else {
      before, after := [], ret;
      assert line == [] + l1 + ret;
    }
  }

  lemma Regroup(a: string, b: string, c: string, d: string)
    ensures a + b + c + d == a + b + (c + d)
  {
  }

  lemma {:induction false} TrimmedAwayIffSpace(s: string)
    ensures Trim(s) == [] <==> AllSpace(s)
  {
    hide IsSpace;
    TrimStartStrips(s);
    var t := TrimStart(s);
    TrimEndStrips(t);
    if TrimEnd(t) == [] {
      assert s == s[..|s| - |t|] + t[0..];
    } else {
      assert s[|s| - |t|] == t[0];
    }
  }

  /** A line is skipped exactly when empty lines are, and it is blank, or empty if lines are not trimmed. */
  lemma SkippedIffBlank(o: Settings, line: string)
    ensures Normalize(o, line).None? <==>
            o.skipEmptyLines && if o.trimLines then AllSpace(line) else line == "" || line == "\r"
  {
    var l1 := WithoutReturn(line);
    TrimmedAwayIffSpace(l1);
    if l1 != line {
      assert line == l1 + "\r";
    }
  }

  lemma {:induction false} TrimStartAppend(s: string, t: string)
    ensures TrimStart(s + t) == if TrimStart(s) != [] then TrimStart(s) + t else TrimStart(t)
  {
    hide IsSpace;
    if s == [] {
      assert s + t == t;
    } else if IsSpace(s[0]) {
      assert (s + t)[1..] == s[1..] + t;
      TrimStartAppend(s[1..], t);
    }
  }

  lemma NothingToTrim(s: string)
    requires s != [] && !IsSpace(s[0]) && !IsSpace(s[|s| - 1])
    ensures Trim(s) == s
  {
    hide IsSpace;
  }

  lemma {:induction false} TrimEndSkips(s: string, space: string)
    requires AllSpace(space)
    ensures TrimEnd(s + space) == TrimEnd(s)
  {
    hide IsSpace;
    if space == [] {
      assert s + space == s;
    } else {
      var n := |space| - 1;
      assert (s + space)[..|s| + n] == s + space[..n];
      TrimEndSkips(s, space[..n]);
    }
  }

  lemma TrimIgnoresSpace(before: string, s: string, after: string)
    requires AllSpace(before) && AllSpace(after)
    ensures Trim(before + s + after) == Trim(s)
  {
    hide IsSpace;
    BlankTrimsAway(before);
    BlankTrimsAway(after);
    TrimStartAppend(before, s);
    TrimStartAppend(before + s, after);
    TrimEndSkips(TrimStart(s), after);
    hide TrimStart;
  }

  lemma {:induction false} BlankTrimsAway(s: string)
    requires AllSpace(s)
    ensures TrimStart(s) == []
  {
    hide IsSpace;
    if s != [] {
      BlankTrimsAway(s[1..]);
    }
  }

  /** With lines trimmed the carriage return is just one more space. */
  lemma NormalizeTrims(o: Settings, s: string)
    requires o.trimLines
    ensures Normalize(o, s) == if o.skipEmptyLines && Trim(s) == [] then None else Some(Trim(s))
  {
    var l := WithoutReturn(s);
    var ret := s[|l|..];
    assert [] + l + ret == s && (ret == [] || ret == "\r");
    hide TrimStart, TrimEnd, WithoutReturn;
    TrimIgnoresSpace([], l, ret);
  }

  function NormalizeAll(o: Settings, raw: seq<string>): seq<string> {
    if raw == [] then []
    else
      (match Normalize(o, raw[0])
       case Some(line) => [line]
       case None => [])
      + NormalizeAll(o, raw[1..])
  }

  /** The lines a stream delivers. */
  function Lines(o: Settings, s: string): seq<string>
    requires Usable(o)
  {
    NormalizeAll(o, RawLines(s, o.delimiter))
  }

  // Chunk boundaries do not matter.

  lemma IndexOfAppend(s: string, t: string, d: string)
    requires IndexOf(s, d, 0).Some?
    ensures IndexOf(s + t, d, 0) == IndexOf(s, d, 0)
  {
    var i := IndexOf(s, d, 0).value;
    var j := IndexOf(s + t, d, 0);
    IndexOfIsFirst(s, d, 0);
    IndexOfIsFirst(s + t, d, 0);
    assert (s + t)[i..i + |d|] == s[i..i + |d|];
    assert OccursAt(s + t, d, i);
    assert j.Some? && j.value <= i;
    assert (s + t)[j.value..j.value + |d|] == s[j.value..j.value + |d|];
    assert OccursAt(s, d, j.value);
  }

  lemma FirstLine(s: string, d: string, i: nat)
    requires d != [] && IndexOf(s, d, 0) == Some(i)
    ensures RawLines(s, d) == [s[..i]] + RawLines(s[i + |d|..], d)
    ensures Tail(s, d) == Tail(s[i + |d|..], d)
  {
  }

  lemma NoLine(s: string, d: string)
    requires d != [] && IndexOf(s, d, 0).None?
    ensures RawLines(s, d) == [] && Tail(s, d) == s
  {
  }

  /** Splitting a stream continues from the tail of what came before. */
  lemma {:induction false} SplitAppend(s: string, t: string, d: string)
    requires d != []
    ensures RawLines(s + t, d) == RawLines(s, d) + RawLines(Tail(s, d) + t, d)
    ensures Tail(s + t, d) == Tail(Tail(s, d) + t, d)
    decreases |s|
  {
    hide RawLines, Tail;
    if IndexOf(s, d, 0).None? {
      NoLine(s, d);
    } else {
      var i := IndexOf(s, d, 0).value;
      IndexOfAppend(s, t, d);
      FirstLine(s, d, i);
      FirstLine(s + t, d, i);
      assert (s + t)[i + |d|..] == s[i + |d|..] + t;
      assert (s + t)[..i] == s[..i];
      SplitAppend(s[i + |d|..], t, d);
    }
  }

  lemma {:induction false} TailHasNoLine(s: string, d: string)
    requires d != []
    ensures IndexOf(Tail(s, d), d, 0).None?
    decreases |s|
  {
    var i := IndexOf(s, d, 0);
    if i.Some? {
      TailHasNoLine(s[i.value + |d|..], d);
    }
  }

  lemma {:induction false} NormalizeAppend(o: Settings, a: seq<string>, b: seq<string>)
    ensures NormalizeAll(o, a + b) == NormalizeAll(o, a) + NormalizeAll(o, b)
  {
    if a == [] {
      assert a + b == b;
    } else {
      assert (a + b)[0] == a[0] && (a + b)[1..] == a[1..] + b;
      NormalizeAppend(o, a[1..], b);
    }
  }

  /** Joining the lines and the tail with the delimiter gives the stream back: nothing is lost. */
  function Join(raw: seq<string>, tail: string, d: string): string {
    if raw == [] then tail else raw[0] + d + Join(raw[1..], tail, d)
  }

  lemma {:induction false} SplitJoin(s: string, d: string)
    requires d != []
    ensures Join(RawLines(s, d), Tail(s, d), d) == s
    decreases |s|
  {
    var i := IndexOf(s, d, 0);
    if i.Some? {
      IndexOfIsFirst(s, d, 0);
      SplitJoin(s[i.value + |d|..], d);
      assert s == s[..i.value] + s[i.value..i.value + |d|] + s[i.value + |d|..];
    }
  }
}
