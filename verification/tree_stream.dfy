/**
 * What reaches the parser, told from the events alone: a session holds exactly the data that arrived
 * since it was opened, in order, and belongs to the oldest request still unanswered.
 */
module TreeStream {
  import opened Options
  import opened TreeData
  import opened TreeProtocol

  /** A stream begins, ends or stalls: whatever was buffered before is gone. */
  predicate Boundary(e: Event) {
    e.TreeStart? || e.TreeEnd? || e.StreamStalls?
  }

  function LastBoundary(es: seq<Event>): (k: Option<nat>)
    ensures k.Some? ==> k.value < |es| && Boundary(es[k.value])
  {
    if es == [] then None
    else
      match LastBoundary(es[1..])
      case Some(k) => Some(k + 1)
      case None => if Boundary(es[0]) then Some(0) else None
  }

  lemma {:induction false} LastBoundaryIsLast(es: seq<Event>)
    ensures var k := LastBoundary(es);
            forall i :: 0 <= i < |es| && (k.None? || k.value < i) ==> !Boundary(es[i])
  {
    hide Boundary;
    if es != [] {
      LastBoundaryIsLast(es[1..]);
      assert forall i :: 0 < i < |es| ==> es[i] == es[1..][i - 1];
    }
  }

  function Carried(e: Event): seq<string> {
    if e.TreeData? then [e.data] else []
  }

  /** What the data events carry, in order. */
  function DataOf(es: seq<Event>): seq<string> {
    if es == [] then [] else Carried(es[0]) + DataOf(es[1..])
  }

  /** The data that arrived since the last boundary. */
  function Received(es: seq<Event>): seq<string> {
    match LastBoundary(es)
    case None => DataOf(es)
    case Some(k) => DataOf(es[k + 1..])
  }

  /** A stream is open once it has begun or any data has come. */
  predicate Opened(es: seq<Event>) {
    Received(es) != [] || (LastBoundary(es).Some? && es[LastBoundary(es).value].TreeStart?)
  }

  function Buffered(s: State): seq<string> {
    if s.active.Some? then s.active.value.parts else []
  }

  lemma FailLeavesStream(c: Config, s: State, n: NetworkId)
    ensures Fail(c, s, n).active == s.active && Fail(c, s, n).jobs == s.jobs
  {
  }

  lemma AcceptLeavesStream(c: Config, s: State, n: NetworkId, unsynced: bool, signature: string)
    ensures Accept(c, s, n, unsynced, signature).active == s.active
    ensures Accept(c, s, n, unsynced, signature).jobs == s.jobs
  {
  }

  lemma StepBuffers(c: Config, s: State, e: Event)
    requires Enabled(s, e)
    ensures var s' := Step(c, s, e);
            if Boundary(e) then Buffered(s') == [] && (s'.active.Some? <==> e.TreeStart?)
            else && Buffered(s') == Buffered(s) + Carried(e)
                 && (s'.active.Some? <==> s.active.Some? || e.TreeData?)
  {
    hide Fail, Accept;
    match e
    case CommandError(_, _, _) =>
      if s.pending != [] {
        var n := s.pending[0];
        FailLeavesStream(c, s.(pending := s.pending[1..], watchdogs := s.watchdogs - {n}), n);
      }
    case WatchdogFires(n) => FailLeavesStream(c, s.(watchdogs := s.watchdogs - {n}), n);
    case StreamStalls =>
      var n := if s.active.Some? then s.active.value.network else s.deadline.value;
      FailLeavesStream(c, s.(deadline := None, active := None), n);
    case TreeEnd(_) =>
      if s.active.Some? {
        var n := s.active.value.network;
        FailLeavesStream(c, s.(deadline := None, active := None, parsing := s.parsing - {n}), n);
      }
    case ParseReturns(i, outcome) =>
      var s1 := s.(jobs := s.jobs[..i] + s.jobs[i + 1..]);
      FailLeavesStream(c, s1, s.jobs[i].network);
      if outcome.DeviceData? {
        AcceptLeavesStream(c, s1, s.jobs[i].network, outcome.unsynced, outcome.signature);
      }
    case _ =>
  }

  lemma {:induction false} RunBuffers(c: Config, s: State, es: seq<Event>)
    requires CanRun(c, s, es)
    ensures var s', k := Run(c, s, es), LastBoundary(es);
            && Buffered(s') == (if k.Some? then [] else Buffered(s)) + Received(es)
            && (s'.active.Some? <==> Opened(es) || (k.None? && s.active.Some?))
    decreases |es|
  {
    hide Step, Received, Opened, Buffered, Enabled;
    if es == [] {
      assert Received(es) == [] && !Opened(es) by { Nothing(); }
    } else {
      StepBuffers(c, s, es[0]);
      RunBuffers(c, Step(c, s, es[0]), es[1..]);
      ReceivedFrom(es);
      hide Carried;
      assert Buffered(s) + (Carried(es[0]) + Received(es[1..])) == (Buffered(s) + Carried(es[0])) + Received(es[1..]);
    }
  }

  lemma Nothing()
    ensures LastBoundary([]) == None && Received([]) == [] && !Opened([])
  {
  }

  /** What the first event adds to what the rest say. */
  lemma ReceivedFrom(es: seq<Event>)
    requires es != []
    ensures var e, rest, k := es[0], es[1..], LastBoundary(es[1..]);
            && (LastBoundary(es).None? <==> k.None? && !Boundary(e))
            && Received(es) == (if k.None? && !Boundary(e) then Carried(e) else []) + Received(rest)
            && (Opened(es) <==> Opened(rest) || (k.None? && (e.TreeStart? || e.TreeData?)))
  {
    var e, rest := es[0], es[1..];
    DataOfFrom(es);
    hide DataOf, Carried, Boundary;
    var k := LastBoundary(rest);
    if k.Some? {
      assert LastBoundary(es) == Some(k.value + 1);
      assert rest[k.value + 1..] == es[k.value + 2..] && rest[k.value] == es[k.value + 1];
    } else if Boundary(e) {
      assert LastBoundary(es) == Some(0) && es[0 + 1..] == rest;
    } else {
      assert LastBoundary(es) == None;
    }
    hide LastBoundary;
    StartIsBoundary(e);
  }

  lemma DataOfFrom(es: seq<Event>)
    requires es != []
    ensures DataOf(es) == Carried(es[0]) + DataOf(es[1..])
  {
  }

  lemma StartIsBoundary(e: Event)
    ensures (e.TreeStart? ==> Boundary(e)) && (e.TreeData? ==> !Boundary(e)) && (Carried(e) != [] <==> e.TreeData?)
  {
  }

  /**
   * Over every run at all, removals included: a session is open exactly if the events opened one, and
   * it holds exactly the data that arrived since, in the order it came.
   */
  lemma StreamHoldsData(c: Config, es: seq<Event>)
    requires CanRun(c, INITIAL, es)
    ensures var s := Run(c, INITIAL, es);
            && (s.active.Some? <==> Opened(es))
            && (s.active.Some? ==> s.active.value.parts == Received(es))
  {
    RunBuffers(c, INITIAL, es);
    hide Run, CanRun, Opened, Received;
  }

  /** Each piece of data, from whatever state, restarts the stall timer of the session it goes to. */
  lemma DataRearms(c: Config, s: State, data: string)
    ensures var s' := Step(c, s, TreeData(data));
            && s'.active.Some? && s'.deadline == Some(s'.active.value.network)
            && (s.active.Some? ==> s'.active.value.network == s.active.value.network)
  {
  }

  lemma {:induction false} CanRunPrefix(c: Config, s: State, es: seq<Event>)
    requires CanRun(c, s, es) && es != []
    ensures var front := es[..|es| - 1];
            && CanRun(c, s, front) && Enabled(Run(c, s, front), es[|es| - 1])
            && Run(c, s, es) == Step(c, Run(c, s, front), es[|es| - 1])
    decreases |es|
  {
    hide Step, Enabled;
    var front := es[..|es| - 1];
    if |es| > 1 {
      CanRunPrefix(c, Step(c, s, es[0]), es[1..]);
      assert es[1..][..|es| - 2] == front[1..];
    } else {
      assert es[1..] == [] && front == [];
    }
  }

  /** The end of a stream that brought data for a known network hands exactly that data to the parser. */
  lemma EndParsesReceived(c: Config, es: seq<Event>)
    requires CanRun(c, INITIAL, es)
    ensures var s := Run(c, INITIAL, es);
            var s' := Step(c, s, TreeEnd(false));
            && (Received(es) != [] ==> s.active.Some?)
            && s'.jobs == s.jobs + if Received(es) == [] || s.active.value.network == Unknown then []
                                   else var n := s.active.value.network;
                                        [ParseJob(n, EpochOf(s, n), Document(Received(es)))]
  {
    StreamHoldsData(c, es);
    hide Document;
  }

  predicate Delivers(es: seq<Event>, k: nat, xml: string) {
    k < |es| && es[k] == TreeEnd(false) && Received(es[..k]) != [] && xml == Document(Received(es[..k]))
  }

  /** Only the end of a stream starts a parse, and nothing else touches the text of one. */
  lemma JobsComeFromEnds(c: Config, s: State, e: Event, job: ParseJob)
    requires Enabled(s, e) && job in Step(c, s, e).jobs
    ensures job in s.jobs || (e == TreeEnd(false) && Buffered(s) != [] && job.xml == Document(Buffered(s)))
  {
    hide Fail, Accept, Document;
    match e
    case CommandError(_, _, _) =>
      if s.pending != [] {
        var n := s.pending[0];
        FailLeavesStream(c, s.(pending := s.pending[1..], watchdogs := s.watchdogs - {n}), n);
      }
    case WatchdogFires(n) => FailLeavesStream(c, s.(watchdogs := s.watchdogs - {n}), n);
    case StreamStalls =>
      var n := if s.active.Some? then s.active.value.network else s.deadline.value;
      FailLeavesStream(c, s.(deadline := None, active := None), n);
    case TreeEnd(_) =>
      if s.active.Some? {
        var n := s.active.value.network;
        FailLeavesStream(c, s.(deadline := None, active := None, parsing := s.parsing - {n}), n);
      }
    case ParseReturns(i, outcome) =>
      var s1 := s.(jobs := s.jobs[..i] + s.jobs[i + 1..]);
      FailLeavesStream(c, s1, s.jobs[i].network);
      if outcome.DeviceData? {
        AcceptLeavesStream(c, s1, s.jobs[i].network, outcome.unsynced, outcome.signature);
      }
    case _ =>
  }

  /** Every text in the parser's hands is one whole stream: what one TreeEnd found received, in order. */
  lemma {:induction false} ParserSeesStreams(c: Config, es: seq<Event>, job: ParseJob)
    requires CanRun(c, INITIAL, es) && job in Run(c, INITIAL, es).jobs
    ensures exists k: nat :: Delivers(es, k, job.xml)
    decreases |es|
  {
    hide Step, Document, Received;
    if es != [] {
      var front, last := es[..|es| - 1], es[|es| - 1];
      CanRunPrefix(c, INITIAL, es);
      var s := Run(c, INITIAL, front);
      JobsComeFromEnds(c, s, last, job);
      if job in s.jobs {
        ParserSeesStreams(c, front, job);
        var k: nat :| Delivers(front, k, job.xml);
        assert front[..k] == es[..k];
        assert Delivers(es, k, job.xml);
      } else {
        StreamHoldsData(c, front);
        assert Delivers(es, |es| - 1, job.xml);
      }
    }
  }

  /** The text gives back the lines: nothing is run together or lost. */
  lemma {:induction false} DocumentLines(parts: seq<string>)
    requires forall p :: p in parts ==> '\n' !in p
    ensures SplitOn(Document(parts), '\n') == parts + [""]
  {
    if parts != [] {
      JoinEnded(parts);
      SplitOfJoin(parts + [""], '\n');
    }
  }

  lemma {:induction false} JoinEnded(parts: seq<string>)
    requires parts != []
    ensures Join(parts + [""], '\n') == Document(parts)
  {
    var more := parts + [""];
    if |parts| == 1 {
      assert more[1..] == [""];
    } else {
      JoinEnded(parts[1..]);
      assert more[1..] == parts[1..] + [""];
    }
  }

  // Whose tree it is.

  /** Where the last request for n was sent, counted from the start. */
  function LastSent(sent: seq<NetworkId>, n: NetworkId): (i: int)
    ensures -1 <= i < |sent|
    ensures i >= 0 ==> sent[i] == n
    ensures forall j :: i < j < |sent| ==> sent[j] != n
  {
    if sent == [] then -1
    else if sent[|sent| - 1] == n then |sent| - 1
    else LastSent(sent[..|sent| - 1], n)
  }

  /** The queue holds requests in the order they were sent, each network once. */
  ghost predicate OldestFirst(pending: seq<NetworkId>, sent: seq<NetworkId>) {
    && (forall i :: 0 <= i < |pending| ==> LastSent(sent, pending[i]) >= 0)
    && (forall i, j :: 0 <= i < j < |pending| ==> LastSent(sent, pending[i]) < LastSent(sent, pending[j]))
  }

  lemma SentAppend(sent: seq<NetworkId>, n: NetworkId, m: NetworkId)
    ensures LastSent(sent + [n], m) == if m == n then |sent| else LastSent(sent, m)
  {
    assert (sent + [n])[..|sent|] == sent;
  }

  lemma QueueOldestFirst(c: Config, s: State, n: NetworkId)
    requires OldestFirst(s.pending, s.sent)
    ensures var s' := QueueRequest(c, s, n); OldestFirst(s'.pending, s'.sent)
  {
    hide LastSent;
    forall m ensures LastSent(s.sent + [n], m) == if m == n then |s.sent| else LastSent(s.sent, m) {
      SentAppend(s.sent, n, m);
    }
    forall m ensures LastSent(s.sent, m) < |s.sent| {
      assert -1 <= LastSent(s.sent, m) < |s.sent|;
    }
  }

  lemma {:induction false} RemoveOldestFirst(pending: seq<NetworkId>, sent: seq<NetworkId>, n: NetworkId)
    requires OldestFirst(pending, sent)
    ensures OldestFirst(RemoveFirst(pending, n), sent)
    ensures forall m :: m in RemoveFirst(pending, n) ==> m in pending
  {
    hide OldestFirst, LastSent;
    if pending != [] {
      var rest := pending[1..];
      TailOldestFirst(pending, sent);
      RemoveOldestFirst(rest, sent, n);
      HeadIsOldest(pending, sent);
      ConsOldestFirst(pending[0], RemoveFirst(rest, n), sent);
    }
  }

  lemma HeadIsOldest(pending: seq<NetworkId>, sent: seq<NetworkId>)
    requires OldestFirst(pending, sent) && pending != []
    ensures LastSent(sent, pending[0]) >= 0
    ensures forall m :: m in pending[1..] ==> LastSent(sent, pending[0]) < LastSent(sent, m)
  {
    hide LastSent;
    forall m | m in pending[1..] ensures LastSent(sent, pending[0]) < LastSent(sent, m) {
      var i :| 0 <= i < |pending[1..]| && pending[1..][i] == m;
      assert pending[i + 1] == m;
    }
  }

  lemma ConsOldestFirst(n: NetworkId, rest: seq<NetworkId>, sent: seq<NetworkId>)
    requires OldestFirst(rest, sent) && LastSent(sent, n) >= 0
    requires forall m :: m in rest ==> LastSent(sent, n) < LastSent(sent, m)
    ensures OldestFirst([n] + rest, sent)
  {
    hide LastSent;
  }

  lemma FailOldestFirst(c: Config, s: State, n: NetworkId)
    requires OldestFirst(s.pending, s.sent)
    ensures var s' := Fail(c, s, n); OldestFirst(s'.pending, s'.sent)
  {
    RemoveOldestFirst(s.pending, s.sent, n);
    hide OldestFirst, RemoveFirst;
  }

  lemma AcceptLeavesQueue(c: Config, s: State, n: NetworkId, unsynced: bool, signature: string)
    ensures var s' := Accept(c, s, n, unsynced, signature); s'.pending == s.pending && s'.sent == s.sent
  {
  }

  lemma TailOldestFirst(pending: seq<NetworkId>, sent: seq<NetworkId>)
    requires OldestFirst(pending, sent) && pending != []
    ensures OldestFirst(pending[1..], sent)
  {
    hide LastSent;
  }

  lemma StepOldestFirst(c: Config, s: State, e: Event)
    requires OldestFirst(s.pending, s.sent) && Enabled(s, e)
    ensures var s' := Step(c, s, e); OldestFirst(s'.pending, s'.sent)
  {
    hide OldestFirst, QueueRequest, RemoveFirst, CommandFailed, Stall, EndStream, Parsed, StartStream, StreamData, Fail;
    match e
    case Request(n) => QueueOldestFirst(c, s, n);
    case NetworkCreated(n) => QueueOldestFirst(c, s, n);
    case SyncComplete(n) => QueueOldestFirst(c, ClearResync(s, n), n);
    case RetryFires(n) => QueueOldestFirst(c, s.(retries := s.retries - {n}), n);
    case ResyncFires(n) => QueueOldestFirst(c, s.(resyncTimers := s.resyncTimers - {n}), n);
    case NetworkRemoved(n) => RemoveOldestFirst(s.pending, s.sent, n);
    case CommandError(_, _, _) => RefusedOldestFirst(c, s);
    case WatchdogFires(n) => FailOldestFirst(c, s.(watchdogs := s.watchdogs - {n}), n);
    case StreamStalls => StallOldestFirst(c, s);
    case TreeStart => StartOldestFirst(s);
    case TreeData(data) => StartOldestFirst(s);
    case TreeEnd(throws) => EndOldestFirst(c, s, throws);
    case ParseReturns(i, outcome) => ParsedOldestFirst(c, s, i, outcome);
    case Stop =>
  }

  lemma RefusedOldestFirst(c: Config, s: State)
    requires OldestFirst(s.pending, s.sent)
    ensures var s' := CommandFailed(c, s); OldestFirst(s'.pending, s'.sent)
  {
    hide Fail;
    if s.pending != [] {
      var n := s.pending[0];
      TailOldestFirst(s.pending, s.sent);
      FailOldestFirst(c, s.(pending := s.pending[1..], watchdogs := s.watchdogs - {n}), n);
    }
    hide OldestFirst;
  }

  lemma StallOldestFirst(c: Config, s: State)
    requires OldestFirst(s.pending, s.sent) && s.deadline.Some?
    ensures var s' := Stall(c, s); OldestFirst(s'.pending, s'.sent)
  {
    hide Fail, OldestFirst;
    var n := if s.active.Some? then s.active.value.network else s.deadline.value;
    FailOldestFirst(c, s.(deadline := None, active := None), n);
  }

  lemma StartOldestFirst(s: State)
    requires OldestFirst(s.pending, s.sent)
    ensures OldestFirst(StartStream(s).pending, StartStream(s).sent)
    ensures forall data :: OldestFirst(StreamData(s, data).pending, StreamData(s, data).sent)
  {
    if s.pending != [] {
      TailOldestFirst(s.pending, s.sent);
    }
    hide OldestFirst;
  }

  lemma EndOldestFirst(c: Config, s: State, throws: bool)
    requires OldestFirst(s.pending, s.sent)
    ensures var s' := EndStream(c, s, throws); OldestFirst(s'.pending, s'.sent)
  {
    hide Fail, OldestFirst, Document;
    if s.active.Some? {
      var n := s.active.value.network;
      FailOldestFirst(c, s.(deadline := None, active := None, parsing := s.parsing - {n}), n);
    }
  }

  lemma ParsedOldestFirst(c: Config, s: State, i: nat, outcome: Outcome)
    requires OldestFirst(s.pending, s.sent) && i < |s.jobs|
    ensures var s' := Parsed(c, s, i, outcome); OldestFirst(s'.pending, s'.sent)
  {
    hide OldestFirst, Fail, Accept;
    var s1 := s.(jobs := s.jobs[..i] + s.jobs[i + 1..]);
    FailOldestFirst(c, s1, s.jobs[i].network);
    if outcome.DeviceData? {
      AcceptLeavesQueue(c, s1, s.jobs[i].network, outcome.unsynced, outcome.signature);
    }
  }

  lemma {:induction false} RunOldestFirst(c: Config, s: State, es: seq<Event>)
    requires OldestFirst(s.pending, s.sent) && CanRun(c, s, es)
    ensures var s' := Run(c, s, es); OldestFirst(s'.pending, s'.sent)
    decreases |es|
  {
    hide Step, OldestFirst;
    if es != [] {
      StepOldestFirst(c, s, es[0]);
      RunOldestFirst(c, Step(c, s, es[0]), es[1..]);
    }
  }

  /**
   * Over every run: a stream that begins while requests are unanswered belongs to the one sent longest
   * ago, and only that one is answered by it.
   */
  lemma StartAnswersOldest(c: Config, es: seq<Event>)
    requires CanRun(c, INITIAL, es) && Run(c, INITIAL, es).pending != []
    ensures var s := Run(c, INITIAL, es);
            var s' := Step(c, s, TreeStart);
            && s'.active.Some? && s'.active.value.network in s.pending
            && (forall m :: m in s.pending && m != s'.active.value.network ==>
                  m in s'.pending && LastSent(s.sent, s'.active.value.network) < LastSent(s.sent, m))
            && s'.active.value.network !in s'.pending
  {
    var s := Run(c, INITIAL, es);
    RunOldestFirst(c, INITIAL, es);
    HeadIsOldest(s.pending, s.sent);
    hide LastSent, Run, OldestFirst;
    assert s.pending == [s.pending[0]] + s.pending[1..];
  }
}
