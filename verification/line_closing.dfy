/**
 * When closing, which takes all that is pending as one line, delivers what splitting it would have:
 * the exact condition, for every setting. Where a delimiter would be swallowed, characters are weighed.
 */
module LineClosing {
  import opened LineSpec
  import opened LineProcessors
  import opened Options

  /** The characters of a text that trimming, if lines are trimmed, can never remove. */
  function Weight(o: Settings, s: string): nat {
    if s == [] then 0 else (if o.trimLines && IsSpace(s[0]) then 0 else 1) + Weight(o, s[1..])
  }

  function WeightOf(o: Settings, lines: seq<string>): nat {
    if lines == [] then 0 else Weight(o, lines[0]) + WeightOf(o, lines[1..])
  }

  lemma {:induction false} WeightAppend(o: Settings, s: string, t: string)
    ensures Weight(o, s + t) == Weight(o, s) + Weight(o, t)
  {
    hide IsSpace;
    if s == [] {
      assert s + t == t;
    } else {
      assert (s + t)[1..] == s[1..] + t;
      WeightAppend(o, s[1..], t);
    }
  }

  lemma {:induction false} WeightOfAppend(o: Settings, a: seq<string>, b: seq<string>)
    ensures WeightOf(o, a + b) == WeightOf(o, a) + WeightOf(o, b)
  {
    hide Weight;
    if a == [] {
      assert a + b == b;
    } else {
      assert (a + b)[1..] == a[1..] + b;
      WeightOfAppend(o, a[1..], b);
    }
  }

  lemma {:induction false} SpaceIsLight(o: Settings, s: string)
    requires o.trimLines
    ensures AllSpace(s) <==> Weight(o, s) == 0
  {
    hide IsSpace;
    if s != [] {
      SpaceIsLight(o, s[1..]);
      assert AllSpace(s) <==> IsSpace(s[0]) && AllSpace(s[1..]) by {
        assert s == [s[0]] + s[1..];
      }
    }
  }

  lemma {:induction false} UntrimmedWeight(o: Settings, s: string)
    requires !o.trimLines
    ensures Weight(o, s) == |s|
  {
    if s != [] {
      UntrimmedWeight(o, s[1..]);
    }
  }

  lemma TrimKeepsWeight(o: Settings, s: string)
    requires o.trimLines
    ensures Weight(o, Trim(s)) == Weight(o, s)
  {
    hide Trim, AllSpace, IsSpace, Weight;
    var before, after := TrimStrips(s);
    SpaceIsLight(o, before);
    SpaceIsLight(o, after);
    WeightAppend(o, before + Trim(s), after);
    WeightAppend(o, before, Trim(s));
  }

  /** As a line, a text weighs the same; untrimmed, it may lose one carriage return. */
  lemma LineWeight(o: Settings, s: string)
    ensures WeightOf(o, NormalizeAll(o, [s])) == if o.trimLines then Weight(o, s) else |WithoutReturn(s)|
    ensures WeightOf(o, NormalizeAll(o, [s])) <= Weight(o, s)
    ensures LastLine(o, s) == if s == [] then [] else NormalizeAll(o, [s])
  {
    NormalizeOne(o, s);
    if o.trimLines {
      NormalizeTrims(o, s);
      TrimKeepsWeight(o, s);
      SingleWeight(o, Trim(s));
    } else {
      UntrimmedWeight(o, s);
      UntrimmedWeight(o, WithoutReturn(s));
      SingleWeight(o, WithoutReturn(s));
    }
    hide NormalizeAll, Trim;
  }

  lemma SingleWeight(o: Settings, line: string)
    ensures WeightOf(o, [line]) == Weight(o, line) && Weight(o, []) == 0
  {
    assert [line][1..] == [];
  }

  lemma NoLineRemains(o: Settings, s: string)
    requires Usable(o) && IndexOf(s, o.delimiter, 0).None?
    ensures Remaining(o, s) == LastLine(o, s)
  {
    NoLine(s, o.delimiter);
    NormalizeNone(o);
    hide NormalizeAll;
  }

  /** Splitting loses at least one delimiter, if there is one. */
  lemma {:induction false} RemainingWeight(o: Settings, s: string)
    requires Usable(o)
    ensures WeightOf(o, Remaining(o, s)) <= Weight(o, s)
    ensures IndexOf(s, o.delimiter, 0).Some? ==> WeightOf(o, Remaining(o, s)) + Weight(o, o.delimiter) <= Weight(o, s)
    decreases |s|
  {
    hide NormalizeAll, Remaining, LastLine, Weight, IndexOf;
    match IndexOf(s, o.delimiter, 0)
    case None =>
      NoLineRemains(o, s);
      LineWeight(o, s);
    case Some(i) =>
      var first, rest := s[..i], s[i + |o.delimiter|..];
      RemainingFrom(o, s, i);
      RemainingWeight(o, rest);
      LineWeight(o, first);
      WeightOfAppend(o, NormalizeAll(o, [first]), Remaining(o, rest));
      WeightAppend(o, first, o.delimiter + rest);
      WeightAppend(o, o.delimiter, rest);
  }

  /** All that is left is at most one line; where that would swallow a delimiter, none is left at all. */
  predicate OneLineLeft(o: Settings, s: string)
    requires Usable(o)
  {
    if o.trimLines && AllSpace(o.delimiter) then |Remaining(o, s)| <= 1
    else
      match IndexOf(s, o.delimiter, 0)
      case None => true
      case Some(i) => !o.trimLines && o.delimiter == "\r" && i == |s| - 1
  }

  /** A carriage return as the delimiter is stripped like any other, if it comes last. */
  lemma OneReturn(o: Settings, s: string, i: nat)
    requires Usable(o) && !o.trimLines && o.delimiter == "\r"
    requires IndexOf(s, o.delimiter, 0) == Some(i) && i == |s| - 1
    ensures LastLine(o, s) == Remaining(o, s)
  {
    ReturnStripped(s, i);
    RemainingFrom(o, s, i);
    NothingLeft(o, s[i + 1..]);
    NormalizeOne(o, s);
    NormalizeOne(o, s[..i]);
    hide NormalizeAll, Remaining, IndexOf, WithoutReturn;
    assert NormalizeAll(o, [s[..i]]) + [] == NormalizeAll(o, [s[..i]]);
  }

  lemma ReturnStripped(s: string, i: nat)
    requires IndexOf(s, "\r", 0) == Some(i) && i == |s| - 1
    ensures WithoutReturn(s) == s[..i] == WithoutReturn(s[..i])
  {
    FirstReturn(s, i);
    hide IndexOf;
  }

  lemma FirstReturn(s: string, i: nat)
    requires IndexOf(s, "\r", 0) == Some(i)
    ensures i < |s| && s[i] == '\r' && (i > 0 ==> s[i - 1] != '\r')
  {
    IndexOfIsFirst(s, "\r", 0);
    hide IndexOf;
    assert s[i..i + 1] == [s[i]];
    if i > 0 {
      assert !OccursAt(s, "\r", i - 1);
      assert s[i - 1..i] == [s[i - 1]];
    }
  }

  lemma LastIsDelimiter(s: string, d: string, i: nat)
    requires IndexOf(s, d, 0) == Some(i) && |d| == 1
    ensures i == |s| - 1 ==> d == [s[i]]
  {
    IndexOfIsFirst(s, d, 0);
  }

  lemma NothingLeft(o: Settings, s: string)
    requires Usable(o) && s == []
    ensures Remaining(o, s) == []
  {
    IndexOfIsFirst(s, o.delimiter, 0);
    NoLineRemains(o, s);
  }

  /** Untrimmed, a text that ends in a carriage return loses it however it is delivered. */
  lemma ReturnIsLost(o: Settings, s: string)
    requires Usable(o) && !o.trimLines && s != [] && s[|s| - 1] == '\r'
    ensures WeightOf(o, Remaining(o, s)) < |s|
  {
    UntrimmedWeight(o, s);
    UntrimmedWeight(o, o.delimiter);
    RemainingWeight(o, s);
    LineWeight(o, s);
    if IndexOf(s, o.delimiter, 0).None? {
      NoLineRemains(o, s);
    }
    hide Remaining, LastLine, NormalizeAll, Weight, WeightOf, IndexOf;
  }

  /** With a delimiter before it, that carriage return is lost beside the delimiter. */
  lemma BothAreLost(o: Settings, s: string, i: nat)
    requires Usable(o) && !o.trimLines && IndexOf(s, o.delimiter, 0) == Some(i)
    requires i + |o.delimiter| < |s| && s[|s| - 1] == '\r'
    ensures WeightOf(o, Remaining(o, s)) < |s| - |o.delimiter|
  {
    hide Remaining, NormalizeAll, Weight, WeightOf, IndexOf;
    var first, rest := s[..i], s[i + |o.delimiter|..];
    RemainingFrom(o, s, i);
    ReturnIsLost(o, rest);
    UntrimmedWeight(o, first);
    LineWeight(o, first);
    WeightOfAppend(o, NormalizeAll(o, [first]), Remaining(o, rest));
  }

  lemma SwallowedUntrimmed(o: Settings, s: string, i: nat)
    requires Usable(o) && !o.trimLines && IndexOf(s, o.delimiter, 0) == Some(i)
    requires o.delimiter != "\r" || i != |s| - 1
    ensures LastLine(o, s) != Remaining(o, s)
  {
    UntrimmedWeight(o, s);
    UntrimmedWeight(o, o.delimiter);
    RemainingWeight(o, s);
    LineWeight(o, s);
    hide Remaining, LastLine, NormalizeAll, Weight, WeightOf, IndexOf;
    if |o.delimiter| == 1 && s[|s| - 1] == '\r' {
      LastIsDelimiter(s, o.delimiter, i);
      BothAreLost(o, s, i);
    }
  }

  /** Exactly a text with one line left delivers the same taken as one line, whatever the settings. */
  lemma OneLineIff(o: Settings, s: string)
    requires Usable(o)
    ensures LastLine(o, s) == Remaining(o, s) <==> OneLineLeft(o, s)
  {
    hide Remaining, LastLine, Weight, WeightOf, IndexOf;
    if o.trimLines && AllSpace(o.delimiter) {
      OneLineIsWhole(o, s);
    } else if IndexOf(s, o.delimiter, 0).None? {
      NoLineRemains(o, s);
    } else {
      var i := IndexOf(s, o.delimiter, 0).value;
      if o.trimLines {
        SpaceIsLight(o, o.delimiter);
        RemainingWeight(o, s);
        LineWeight(o, s);
      } else if o.delimiter == "\r" && i == |s| - 1 {
        OneReturn(o, s, i);
      } else {
        SwallowedUntrimmed(o, s, i);
      }
    }
  }

  /**
   * Whichever callbacks throw, and also when the last call was cut short: closing delivers the split of
   * the stream exactly if no more than one line was still to come.
   */
  lemma ClosedStreamIsSplitIff(o: Settings, chunks: seq<string>, failures: set<nat>)
    requires Usable(o) && NeverCapped(o, Reader([], []), chunks, failures)
    ensures var r := FeedAll(o, Reader([], []), chunks, failures);
            FinalLine(o, r, failures).0.delivered == Remaining(o, Concat(chunks)) <==> OneLineLeft(o, r.rest)
  {
    var r := FeedAll(o, Reader([], []), chunks, failures);
    WholeStream(o, chunks, failures);
    FinalLineIs(o, r, failures);
    OneLineIff(o, r.rest);
    hide FeedAll, Remaining, LastLine, FinalLine, OneLineLeft;
    assert (r.delivered + LastLine(o, r.rest))[|r.delivered|..] == LastLine(o, r.rest);
    assert (r.delivered + Remaining(o, r.rest))[|r.delivered|..] == Remaining(o, r.rest);
  }
}
