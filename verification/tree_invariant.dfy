/**
 * The TREEXML protocol seen from one network at a time: every step is one local move, and every local
 * move keeps the invariant.
 */
module TreeInvariant {
  import opened Options
  import opened TreeProtocol

  /** The callbacks still to come for one network, by the epochs they were started under. */
  function JobsOf(jobs: seq<ParseJob>, n: NetworkId): seq<nat> {
    if jobs == [] then []
    else if jobs[0].network == n then [jobs[0].epoch] + JobsOf(jobs[1..], n)
    else JobsOf(jobs[1..], n)
  }

  /** Everything the protocol holds about one network. */
  datatype View = View(
    queued: nat,
    streaming: bool,
    parsing: bool,
    watchdog: bool,
    retry: bool,
    resyncTimer: bool,
    attempts: Option<nat>,
    resync: Option<Resync>,
    epoch: nat,
    jobs: seq<nat>,
    sends: nat)
  {
    predicate InFlight() {
      queued > 0 || streaming || parsing
    }

    /** A network is outstanding in at most one of the three ways, and at most once. */
    predicate Exclusive() {
      && queued <= 1
      && !(queued > 0 && streaming) && !(queued > 0 && parsing) && !(streaming && parsing)
    }

    /** An outstanding request has exactly the timer that will give up on it, and no retry. */
    predicate Guarded() {
      && (watchdog <==> queued > 0)
      && (retry ==> !InFlight())
      && (resyncTimer ==> !streaming && !parsing)
    }

    /** A network being parsed has exactly one callback to come, and it is not stale. */
    predicate JobMatches() {
      jobs == if parsing then [epoch] else []
    }

    /** Timers belong to tracked networks, and every budget is within its cap. */
    predicate Budgeted(c: Config) {
      && (watchdog ==> attempts.Some?)
      && (attempts.Some? ==> attempts.value <= c.maxRetries)
      && (retry ==> attempts.Some? && attempts.value >= 1)
      && (resync.Some? ==> 1 <= resync.value.attempts <= c.maxResyncs && resync.value.signature.Some?)
      && (resyncTimer ==> resync.Some?)
    }

    predicate Inv(c: Config, n: NetworkId) {
      Exclusive() && Guarded() && JobMatches() && Budgeted(c)
    }

    function Queue(): View {
      var v := this.(retry := false, attempts := Some(attempts.GetOr(0)));
      if InFlight() then v else v.(queued := queued + 1, watchdog := true, epoch := epoch + 1, sends := sends + 1)
    }

    function Dequeue(): View {
      this.(queued := if queued == 0 then 0 else queued - 1)
    }

    function Fail(c: Config): View {
      var a := attempts.GetOr(0) + 1;
      if a > c.maxRetries then Dequeue().(watchdog := false, retry := false, attempts := None)
      else Dequeue().(retry := true, attempts := Some(a))
    }

    function Accept(c: Config, unsynced: bool, signature: string): View {
      var v := this.(watchdog := false, retry := false, attempts := None);
      var r := (if resync.Some? then resync.value.attempts else 0) + 1;
      if !unsynced || (resync.Some? && resync.value.signature == Some(signature)) || r > c.maxResyncs then
        v.(resync := None, resyncTimer := false)
      else
        v.(resync := Some(Resync(r, Some(signature))), resyncTimer := true)
    }
  }

  ghost function ViewOf(s: State, n: NetworkId): View {
    View(multiset(s.pending)[n], Streaming(s, n), n in s.parsing,
         n in s.watchdogs, n in s.retries, n in s.resyncTimers,
         if n in s.attempts then Some(s.attempts[n]) else None,
         if n in s.resyncs then Some(s.resyncs[n]) else None,
         EpochOf(s, n), JobsOf(s.jobs, n), multiset(s.sent)[n])
  }

  ghost predicate Inv(c: Config, s: State) {
    && (s.deadline.Some? <==> s.active.Some?)
    && Unknown !in s.parsing
    && forall n :: ViewOf(s, n).Inv(c, n)
  }

  /** What holds of the stream in every run at all, removals included. */
  predicate Loose(s: State) {
    (s.deadline.Some? ==> s.active.Some?) && Unknown !in s.parsing
  }

  predicate Disruptive(e: Event) {
    e.NetworkRemoved? || e.Stop?
  }

  /** What one step of the whole protocol looks like from a single network. */
  datatype Move =
    | Idle
    | Asked(renewBudget: bool)
    | RetryFired
    | ResyncFired
    | Rejected
    | Started
    | Strayed
    | Lost
    | StreamFailed
    | ParseStarted
    | TreeRefused
    | TreeAccepted(unsynced: bool, signature: string)

  predicate CanMove(v: View, n: NetworkId, move: Move) {
    match move
    case RetryFired => v.retry
    case ResyncFired => v.resyncTimer
    case Rejected => v.queued > 0
    case Started => v.queued > 0
    case Strayed => n == Unknown && !v.InFlight()
    case Lost => v.streaming
    case StreamFailed => v.streaming
    case ParseStarted => v.streaming
    case TreeRefused => v.parsing
    case TreeAccepted(_, _) => v.parsing
    case _ => true
  }

  function Apply(c: Config, n: NetworkId, v: View, move: Move): View {
    match move
    case Idle => v
    case Asked(renew) => (if renew then v.(resync := None, resyncTimer := false) else v).Queue()
    case RetryFired => v.(retry := false).Queue()
    case ResyncFired => v.(resyncTimer := false).Queue()
    case Rejected => v.(watchdog := false).Fail(c)
    case Started => v.Dequeue().(streaming := true, watchdog := false, retry := false, resyncTimer := false)
    case Strayed => v.(streaming := true, watchdog := false, retry := false, resyncTimer := false)
    case Lost => v.(streaming := false)
    case StreamFailed => v.(streaming := false).Fail(c)
    case ParseStarted => v.(streaming := false, parsing := true, jobs := v.jobs + [v.epoch])
    case TreeRefused => v.(jobs := []).Fail(c).(parsing := false)
    case TreeAccepted(unsynced, signature) => v.(jobs := []).Accept(c, unsynced, signature).(parsing := false)
  }

  function StartMove(s: State, n: NetworkId): Move {
    if StreamNetwork(s) == n then
      if n in s.pending then Started else if Streaming(s, n) then Idle else Strayed
    else if Streaming(s, n) then Lost
    else Idle
  }

  function MoveOf(c: Config, s: State, e: Event, n: NetworkId): Move
    requires Enabled(s, e)
  {
    match e
    case Request(k) => if k == n then Asked(false) else Idle
    case NetworkCreated(k) => if InScope(c, k) && k == n then Asked(false) else Idle
    case SyncComplete(k) => if InScope(c, k) && k == n then Asked(true) else Idle
    case CommandError(code, notFound, path) =>
      if IsTreeError(code, notFound, path) && s.pending != [] && s.pending[0] == n then Rejected else Idle
    case WatchdogFires(k) => if k == n then Rejected else Idle
    case RetryFires(k) => if k == n then RetryFired else Idle
    case ResyncFires(k) => if k == n then ResyncFired else Idle
    case StreamStalls => if Streaming(s, n) then StreamFailed else Idle
    case TreeStart => StartMove(s, n)
    case TreeData(_) => if s.active.None? then StartMove(s, n) else Idle
    case TreeEnd(parserThrows) =>
      if !Streaming(s, n) then Idle
      else if s.active.value.parts == [] || n == Unknown then Lost
      else if parserThrows then StreamFailed
      else ParseStarted
    case ParseReturns(i, outcome) =>
      if s.jobs[i].network != n then Idle
      else if outcome.DeviceData? then TreeAccepted(outcome.unsynced, outcome.signature)
      else TreeRefused
    case _ => Idle
  }

  lemma {:induction false} JobsOfAppend(a: seq<ParseJob>, b: seq<ParseJob>, n: NetworkId)
    ensures JobsOf(a + b, n) == JobsOf(a, n) + JobsOf(b, n)
  {
    if a == [] {
      assert a + b == b;
    } else {
      assert (a + b)[0] == a[0] && (a + b)[1..] == a[1..] + b;
      JobsOfAppend(a[1..], b, n);
    }
  }

  lemma {:induction false} RemoveFirstCounts(ns: seq<NetworkId>, n: NetworkId)
    ensures multiset(RemoveFirst(ns, n)) == multiset(ns) - multiset{n}
  {
    if ns != [] {
      assert ns == [ns[0]] + ns[1..];
      if ns[0] != n {
        RemoveFirstCounts(ns[1..], n);
      }
    }
  }

  lemma JobsOfRemove(jobs: seq<ParseJob>, i: nat, n: NetworkId)
    requires i < |jobs|
    ensures jobs[i].network != n ==> JobsOf(jobs[..i] + jobs[i + 1..], n) == JobsOf(jobs, n)
    ensures jobs[i].network == n ==> |JobsOf(jobs, n)| == |JobsOf(jobs[..i] + jobs[i + 1..], n)| + 1
    ensures jobs[i].network == n && |JobsOf(jobs, n)| == 1 ==> JobsOf(jobs, n) == [jobs[i].epoch]
  {
    var before, after := jobs[..i], jobs[i + 1..];
    assert jobs == before + ([jobs[i]] + after);
    JobsOfAppend(before, [jobs[i]] + after, n);
    JobsOfAppend([jobs[i]], after, n);
    JobsOfAppend(before, after, n);
  }

  // How each building block changes the view of one network and leaves the others alone.

  lemma QueueView(c: Config, s: State, n: NetworkId)
    ensures ViewOf(QueueRequest(c, s, n), n) == ViewOf(s, n).Queue()
  {
  }

  lemma QueueOthers(c: Config, s: State, n: NetworkId, m: NetworkId)
    requires m != n
    ensures ViewOf(QueueRequest(c, s, n), m) == ViewOf(s, m)
  {
  }

  lemma PauseView(c: Config, s: State, n: NetworkId)
    ensures ViewOf(Pause(c, s, n), n) == ViewOf(s, n).Dequeue().(watchdog := false, retry := false, attempts := None)
  {
    RemoveFirstCounts(s.pending, n);
  }

  lemma RetryView(s: State, n: NetworkId)
    ensures ViewOf(ScheduleRetry(s, n), n) ==
            ViewOf(s, n).Dequeue().(retry := true, attempts := Some(AttemptsOf(s, n) + 1))
  {
    RemoveFirstCounts(s.pending, n);
  }

  lemma FailView(c: Config, s: State, n: NetworkId)
    ensures ViewOf(Fail(c, s, n), n) == ViewOf(s, n).Fail(c)
  {
    PauseView(c, s, n);
    RetryView(s, n);
  }

  lemma PauseOthers(c: Config, s: State, n: NetworkId, m: NetworkId)
    requires m != n
    ensures ViewOf(Pause(c, s, n), m) == ViewOf(s, m)
  {
    RemoveFirstCounts(s.pending, n);
  }

  lemma RetryOthers(s: State, n: NetworkId, m: NetworkId)
    requires m != n
    ensures ViewOf(ScheduleRetry(s, n), m) == ViewOf(s, m)
  {
    RemoveFirstCounts(s.pending, n);
  }

  lemma FailOthers(c: Config, s: State, n: NetworkId, m: NetworkId)
    requires m != n
    ensures ViewOf(Fail(c, s, n), m) == ViewOf(s, m)
  {
    PauseOthers(c, s, n, m);
    RetryOthers(s, n, m);
  }

  lemma ScheduleOthers(c: Config, s: State, n: NetworkId, signature: string, m: NetworkId)
    requires m != n
    ensures ViewOf(ScheduleResync(c, s, n, signature), m) == ViewOf(s, m)
  {
    ClearResyncView(s, n, m);
  }

  lemma ClearResyncView(s: State, n: NetworkId, m: NetworkId)
    ensures ViewOf(ClearResync(s, n), m) ==
            if m == n then ViewOf(s, m).(resync := None, resyncTimer := false) else ViewOf(s, m)
  {
  }

  lemma ScheduleView(c: Config, s: State, n: NetworkId, signature: string)
    requires ResyncAttempts(s, n) < c.maxResyncs
    ensures ViewOf(ScheduleResync(c, s, n, signature), n) ==
            ViewOf(s, n).(resync := Some(Resync(ResyncAttempts(s, n) + 1, Some(signature))), resyncTimer := true)
  {
  }

  /** Accepting a tree settles the request before the re-fetch is considered. */
  function Settled(c: Config, s: State, n: NetworkId): State {
    ClearTreeState(s, n).(accepted := s.accepted + [n], statuses := WithStatus(c, s, n, Resolved))
  }

  lemma SettledView(c: Config, s: State, n: NetworkId, m: NetworkId)
    ensures ViewOf(Settled(c, s, n), m) ==
            if m == n then ViewOf(s, m).(watchdog := false, retry := false, attempts := None) else ViewOf(s, m)
  {
  }

  predicate Refetches(c: Config, s: State, n: NetworkId, unsynced: bool, signature: string) {
    && unsynced && !(n in s.resyncs && s.resyncs[n].signature == Some(signature))
    && ResyncAttempts(s, n) < c.maxResyncs
  }

  lemma AcceptIs(c: Config, s: State, n: NetworkId, unsynced: bool, signature: string)
    ensures Accept(c, s, n, unsynced, signature) ==
            if Refetches(c, s, n, unsynced, signature) then ScheduleResync(c, Settled(c, s, n), n, signature)
            else ClearResync(Settled(c, s, n), n)
  {
  }

  lemma AcceptView(c: Config, s: State, n: NetworkId, unsynced: bool, signature: string)
    ensures ViewOf(Accept(c, s, n, unsynced, signature), n) == ViewOf(s, n).Accept(c, unsynced, signature)
  {
    hide Accept, ClearResync, ScheduleResync;
    AcceptIs(c, s, n, unsynced, signature);
    SettledView(c, s, n, n);
    ClearResyncView(Settled(c, s, n), n, n);
    if ResyncAttempts(s, n) < c.maxResyncs {
      ScheduleView(c, Settled(c, s, n), n, signature);
    }
  }

  lemma AcceptOthers(c: Config, s: State, n: NetworkId, unsynced: bool, signature: string, m: NetworkId)
    requires m != n
    ensures ViewOf(Accept(c, s, n, unsynced, signature), m) == ViewOf(s, m)
  {
    hide Accept, ClearResync, ScheduleResync, Settled;
    AcceptIs(c, s, n, unsynced, signature);
    SettledView(c, s, n, m);
    ScheduleOthers(c, Settled(c, s, n), n, signature, m);
    ClearResyncView(Settled(c, s, n), n, m);
  }

  // Every step, seen from any one network, is one of the moves above.

  lemma StartSelf(s: State)
    ensures var n := StreamNetwork(s); var v := ViewOf(s, n);
            ViewOf(StartStream(s), n) == v.(queued := if s.pending == [] then v.queued else v.queued - 1,
                                            streaming := true, watchdog := false, retry := false, resyncTimer := false)
  {
    if s.pending != [] {
      assert s.pending == [s.pending[0]] + s.pending[1..];
    }
  }

  lemma StartOthers(s: State, n: NetworkId)
    requires n != StreamNetwork(s)
    ensures ViewOf(StartStream(s), n) == ViewOf(s, n).(streaming := false)
  {
    if s.pending != [] {
      assert s.pending == [s.pending[0]] + s.pending[1..];
    }
  }

  lemma StartProjects(c: Config, s: State, n: NetworkId)
    requires ViewOf(s, n).Inv(c, n) && Unknown !in s.parsing
    ensures CanMove(ViewOf(s, n), n, StartMove(s, n))
    ensures ViewOf(StartStream(s), n) == Apply(c, n, ViewOf(s, n), StartMove(s, n))
  {
    if n == StreamNetwork(s) {
      StartSelf(s);
      assert s.pending == [] || n in s.pending;
      assert s.pending == [] ==> n !in s.pending;
    } else {
      StartOthers(s, n);
    }
  }

  lemma DataProjects(s: State, data: string, n: NetworkId)
    ensures ViewOf(StreamData(s, data), n) == ViewOf(if s.active.None? then StartStream(s) else s, n)
  {
  }

  lemma FailAfter(c: Config, s: State, k: NetworkId, n: NetworkId)
    ensures ViewOf(Fail(c, s, k), n) == if n == k then ViewOf(s, n).Fail(c) else ViewOf(s, n)
  {
    FailView(c, s, k);
    if n != k {
      FailOthers(c, s, k, n);
    }
  }

  /** Closing a session or a parse touches one flag of one network. */
  lemma DoneView(s: State, k: NetworkId, n: NetworkId)
    ensures ViewOf(s.(parsing := s.parsing - {k}), n) == ViewOf(s, n).(parsing := n != k && n in s.parsing)
    ensures Streaming(s, k) ==>
              ViewOf(s.(deadline := None, active := None), n) == ViewOf(s, n).(streaming := false)
  {
  }

  lemma EndThrew(c: Config, s: State, n: NetworkId)
    requires s.active.Some? && s.active.value.parts != [] && s.active.value.network != Unknown
    requires ViewOf(s, n).Inv(c, n)
    ensures var v, v' := ViewOf(s, n), ViewOf(EndStream(c, s, true), n);
            v' == if Streaming(s, n) then v.(streaming := false).Fail(c) else v
  {
    var k := s.active.value.network;
    var s1 := s.(deadline := None, active := None);
    var s2 := s1.(parsing := s1.parsing - {k});
    DoneView(s, k, n);
    DoneView(s1, k, n);
    FailAfter(c, s2, k, n);
    assert EndStream(c, s, true) == Fail(c, s2, k);
    assert ViewOf(s2, n) == ViewOf(s, n).(streaming := false);
  }

  lemma EndParses(c: Config, s: State, n: NetworkId)
    requires s.active.Some? && s.active.value.parts != [] && s.active.value.network != Unknown
    ensures var v, v' := ViewOf(s, n), ViewOf(EndStream(c, s, false), n);
            v' == if Streaming(s, n) then
                    v.(streaming := false, parsing := true, jobs := v.jobs + [v.epoch])
                  else v
  {
    var k := s.active.value.network;
    JobsOfAppend(s.jobs, [ParseJob(k, EpochOf(s, k), Document(s.active.value.parts))], n);
  }

  lemma EndLost(c: Config, s: State, parserThrows: bool, n: NetworkId)
    requires s.active.Some? ==> s.active.value.parts == [] || s.active.value.network == Unknown
    ensures ViewOf(EndStream(c, s, parserThrows), n) == ViewOf(s, n).(streaming := false)
  {
  }

  lemma EndProjects(c: Config, s: State, parserThrows: bool, n: NetworkId)
    requires ViewOf(s, n).Inv(c, n)
    ensures CanMove(ViewOf(s, n), n, MoveOf(c, s, TreeEnd(parserThrows), n))
    ensures ViewOf(EndStream(c, s, parserThrows), n) ==
            Apply(c, n, ViewOf(s, n), MoveOf(c, s, TreeEnd(parserThrows), n))
  {
    if s.active.None? || s.active.value.parts == [] || s.active.value.network == Unknown {
      EndLost(c, s, parserThrows, n);
    } else if parserThrows {
      EndThrew(c, s, n);
    } else {
      EndParses(c, s, n);
    }
  }

  lemma JobDropped(c: Config, s: State, i: nat, n: NetworkId)
    requires i < |s.jobs| && ViewOf(s, n).Inv(c, n)
    ensures var s1 := s.(jobs := s.jobs[..i] + s.jobs[i + 1..]);
            && (n == s.jobs[i].network ==>
                  && n in s.parsing && s.jobs[i].epoch == EpochOf(s, n)
                  && ViewOf(s1, n) == ViewOf(s, n).(jobs := []))
            && (n != s.jobs[i].network ==> ViewOf(s1, n) == ViewOf(s, n))
  {
    JobsOfRemove(s.jobs, i, n);
  }

  lemma ParseRefused(c: Config, s: State, i: nat, outcome: Outcome, n: NetworkId)
    requires i < |s.jobs| && !outcome.DeviceData? && ViewOf(s, n).Inv(c, n)
    ensures var v, v' := ViewOf(s, n), ViewOf(Parsed(c, s, i, outcome), n);
            v' == if n == s.jobs[i].network then v.(jobs := []).Fail(c).(parsing := false) else v
  {
    var k := s.jobs[i].network;
    var s1 := s.(jobs := s.jobs[..i] + s.jobs[i + 1..]);
    var s2 := if EpochOf(s1, k) != s.jobs[i].epoch then s1 else Fail(c, s1, k);
    JobDropped(c, s, i, n);
    FailAfter(c, s1, k, n);
    DoneView(s2, k, n);
    assert Parsed(c, s, i, outcome) == s2.(parsing := s2.parsing - {k});
  }

  lemma ParseIsAccept(c: Config, s: State, i: nat, unsynced: bool, signature: string)
    requires i < |s.jobs|
    requires s.jobs[i].epoch == EpochOf(s, s.jobs[i].network)
    ensures var s1 := s.(jobs := s.jobs[..i] + s.jobs[i + 1..]);
            var s2 := Accept(c, s1, s.jobs[i].network, unsynced, signature);
            Parsed(c, s, i, DeviceData(unsynced, signature)) == s2.(parsing := s2.parsing - {s.jobs[i].network})
  {
  }

  lemma ParseAccepted(c: Config, s: State, i: nat, unsynced: bool, signature: string)
    requires i < |s.jobs|
    requires ViewOf(s, s.jobs[i].network).Inv(c, s.jobs[i].network)
    ensures var k := s.jobs[i].network;
            ViewOf(Parsed(c, s, i, DeviceData(unsynced, signature)), k) ==
            ViewOf(s, k).(jobs := []).Accept(c, unsynced, signature).(parsing := false)
  {
    var k := s.jobs[i].network;
    var s1 := s.(jobs := s.jobs[..i] + s.jobs[i + 1..]);
    JobDropped(c, s, i, k);
    ParseIsAccept(c, s, i, unsynced, signature);
    AcceptView(c, s1, k, unsynced, signature);
    DoneView(Accept(c, s1, k, unsynced, signature), k, k);
  }

  lemma ParseAcceptedOthers(c: Config, s: State, i: nat, unsynced: bool, signature: string, n: NetworkId)
    requires i < |s.jobs| && n != s.jobs[i].network && ViewOf(s, n).Inv(c, n)
    ensures ViewOf(Parsed(c, s, i, DeviceData(unsynced, signature)), n) == ViewOf(s, n)
  {
    var k := s.jobs[i].network;
    var s1 := s.(jobs := s.jobs[..i] + s.jobs[i + 1..]);
    var s2 := if EpochOf(s1, k) != s.jobs[i].epoch then s1 else Accept(c, s1, k, unsynced, signature);
    JobDropped(c, s, i, n);
    hide Accept;
    AcceptOthers(c, s1, k, unsynced, signature, n);
    DoneView(s2, k, n);
    assert Parsed(c, s, i, DeviceData(unsynced, signature)) == s2.(parsing := s2.parsing - {k});
  }

  lemma ParseProjects(c: Config, s: State, i: nat, outcome: Outcome, n: NetworkId)
    requires i < |s.jobs| && ViewOf(s, n).Inv(c, n)
    ensures CanMove(ViewOf(s, n), n, MoveOf(c, s, ParseReturns(i, outcome), n))
    ensures ViewOf(Parsed(c, s, i, outcome), n) ==
            Apply(c, n, ViewOf(s, n), MoveOf(c, s, ParseReturns(i, outcome), n))
  {
    hide Parsed, View.Fail, View.Accept, View.Queue;
    JobDropped(c, s, i, n);
    if outcome.DeviceData? {
      if n == s.jobs[i].network {
        ParseAccepted(c, s, i, outcome.unsynced, outcome.signature);
      } else {
        ParseAcceptedOthers(c, s, i, outcome.unsynced, outcome.signature, n);
      }
    } else {
      ParseRefused(c, s, i, outcome, n);
    }
  }

  lemma WatchdogView(s: State, k: NetworkId, n: NetworkId)
    ensures ViewOf(s.(watchdogs := s.watchdogs - {k}), n) ==
            if n == k then ViewOf(s, n).(watchdog := false) else ViewOf(s, n)
  {
  }

  lemma RetryTimerView(s: State, k: NetworkId, n: NetworkId)
    ensures ViewOf(s.(retries := s.retries - {k}), n) ==
            if n == k then ViewOf(s, n).(retry := false) else ViewOf(s, n)
  {
  }

  lemma ResyncTimerView(s: State, k: NetworkId, n: NetworkId)
    ensures ViewOf(s.(resyncTimers := s.resyncTimers - {k}), n) ==
            if n == k then ViewOf(s, n).(resyncTimer := false) else ViewOf(s, n)
  {
  }

  lemma QueueAfter(c: Config, s: State, k: NetworkId, n: NetworkId)
    ensures ViewOf(QueueRequest(c, s, k), n) == if n == k then ViewOf(s, n).Queue() else ViewOf(s, n)
  {
    QueueView(c, s, k);
    if n != k {
      QueueOthers(c, s, k, n);
    }
  }

  lemma SyncProjects(c: Config, s: State, k: NetworkId, n: NetworkId)
    ensures ViewOf(QueueRequest(c, ClearResync(s, k), k), n) ==
            if n == k then ViewOf(s, n).(resync := None, resyncTimer := false).Queue() else ViewOf(s, n)
  {
    ClearResyncView(s, k, n);
    QueueAfter(c, ClearResync(s, k), k, n);
  }

  lemma RejectionView(s: State, n: NetworkId)
    requires s.pending != [] && (n == s.pending[0] ==> multiset(s.pending)[n] == 1)
    ensures var k := s.pending[0]; var v := ViewOf(s, n);
            ViewOf(s.(pending := s.pending[1..], watchdogs := s.watchdogs - {k}), n) ==
            if n == k then v.(queued := 0, watchdog := false) else v
  {
    assert s.pending == [s.pending[0]] + s.pending[1..];
  }

  lemma RejectionProjects(c: Config, s: State, n: NetworkId)
    requires s.pending != [] && ViewOf(s, n).Inv(c, n)
    ensures var k := s.pending[0];
            ViewOf(CommandFailed(c, s), n) == if n == k then ViewOf(s, n).(watchdog := false).Fail(c) else ViewOf(s, n)
  {
    var k := s.pending[0];
    assert n == k ==> multiset(s.pending)[n] == 1;
    RejectionView(s, n);
    FailAfter(c, s.(pending := s.pending[1..], watchdogs := s.watchdogs - {k}), k, n);
  }

  lemma StallProjects(c: Config, s: State, n: NetworkId)
    requires s.deadline.Some? && s.active.Some?
    ensures ViewOf(Stall(c, s), n) ==
            if Streaming(s, n) then ViewOf(s, n).(streaming := false).Fail(c) else ViewOf(s, n)
  {
    DoneView(s, s.active.value.network, n);
    FailAfter(c, s.(deadline := None, active := None), s.active.value.network, n);
  }

  lemma TimerProjects(c: Config, s: State, e: Event, n: NetworkId)
    requires ViewOf(s, n).Inv(c, n) && Enabled(s, e)
    requires e.WatchdogFires? || e.RetryFires? || e.ResyncFires?
    ensures CanMove(ViewOf(s, n), n, MoveOf(c, s, e, n))
    ensures ViewOf(Step(c, s, e), n) == Apply(c, n, ViewOf(s, n), MoveOf(c, s, e, n))
  {
    var k := e.network;
    match e
    case WatchdogFires(_) =>
      WatchdogView(s, k, n);
      FailAfter(c, s.(watchdogs := s.watchdogs - {k}), k, n);
    case RetryFires(_) =>
      RetryTimerView(s, k, n);
      QueueAfter(c, s.(retries := s.retries - {k}), k, n);
    case ResyncFires(_) =>
      ResyncTimerView(s, k, n);
      QueueAfter(c, s.(resyncTimers := s.resyncTimers - {k}), k, n);
  }

  lemma RequestProjects(c: Config, s: State, e: Event, n: NetworkId)
    requires e.Request? || e.NetworkCreated? || e.SyncComplete?
    ensures CanMove(ViewOf(s, n), n, MoveOf(c, s, e, n))
    ensures ViewOf(Step(c, s, e), n) == Apply(c, n, ViewOf(s, n), MoveOf(c, s, e, n))
  {
    QueueAfter(c, s, e.network, n);
    SyncProjects(c, s, e.network, n);
  }

  lemma ResponseProjects(c: Config, s: State, e: Event, n: NetworkId)
    requires Loose(s) && ViewOf(s, n).Inv(c, n) && Enabled(s, e)
    requires e.CommandError? || e.StreamStalls? || e.TreeStart? || e.TreeData?
    ensures CanMove(ViewOf(s, n), n, MoveOf(c, s, e, n))
    ensures ViewOf(Step(c, s, e), n) == Apply(c, n, ViewOf(s, n), MoveOf(c, s, e, n))
  {
    match e
    case CommandError(_, _, _) =>
      if s.pending != [] {
        RejectionProjects(c, s, n);
      }
    case StreamStalls => StallProjects(c, s, n);
    case TreeStart => StartProjects(c, s, n);
    case TreeData(data) =>
      StartProjects(c, s, n);
      DataProjects(s, data, n);
  }

  lemma RemoveOthers(c: Config, s: State, n: NetworkId, m: NetworkId)
    requires m != n
    ensures ViewOf(Remove(c, s, n), m) == ViewOf(s, m)
  {
    RemoveFirstCounts(s.pending, n);
  }

  /** Neither stops the session nor removes this network. */
  predicate Spares(e: Event, n: NetworkId) {
    !e.Stop? && e != NetworkRemoved(n)
  }

  /**
   * A step that spares network n is, seen from n, one local move, and it takes no more than n's own
   * invariant: the other networks may have been removed at any moment.
   */
  lemma SparingStepProjects(c: Config, s: State, e: Event, n: NetworkId)
    requires Loose(s) && ViewOf(s, n).Inv(c, n) && Enabled(s, e) && Spares(e, n)
    ensures CanMove(ViewOf(s, n), n, MoveOf(c, s, e, n))
    ensures ViewOf(Step(c, s, e), n) == Apply(c, n, ViewOf(s, n), MoveOf(c, s, e, n))
  {
    hide View.Inv;
    if e.Request? || e.NetworkCreated? || e.SyncComplete? {
      RequestProjects(c, s, e, n);
    } else if e.WatchdogFires? || e.RetryFires? || e.ResyncFires? {
      TimerProjects(c, s, e, n);
    } else if e.TreeEnd? {
      EndProjects(c, s, e.parserThrows, n);
    } else if e.ParseReturns? {
      ParseProjects(c, s, e.job, e.outcome, n);
    } else if e.NetworkRemoved? {
      RemoveOthers(c, s, e.network, n);
    } else {
      ResponseProjects(c, s, e, n);
    }
  }

  /** Seen from any one network, every step that does not remove networks is one local move. */
  lemma StepProjects(c: Config, s: State, e: Event, n: NetworkId)
    requires Inv(c, s) && Enabled(s, e) && !Disruptive(e)
    ensures CanMove(ViewOf(s, n), n, MoveOf(c, s, e, n))
    ensures ViewOf(Step(c, s, e), n) == Apply(c, n, ViewOf(s, n), MoveOf(c, s, e, n))
  {
    assert ViewOf(s, n).Inv(c, n);
    hide View.Inv, Step, MoveOf, CanMove, Apply;
    SparingStepProjects(c, s, e, n);
  }

  /** Each local move keeps the local invariant. */
  lemma MoveKeeps(c: Config, n: NetworkId, v: View, move: Move)
    requires v.Inv(c, n) && CanMove(v, n, move)
    ensures Apply(c, n, v, move).Inv(c, n)
  {
  }

  /** What the protocol keeps for one network, whatever becomes of the others. */
  ghost predicate LocalInv(c: Config, s: State, n: NetworkId) {
    Loose(s) && ViewOf(s, n).Inv(c, n)
  }

  lemma FailStaysLoose(c: Config, s: State, n: NetworkId)
    requires Loose(s)
    ensures Loose(Fail(c, s, n)) && Fail(c, s, n).active == s.active && Fail(c, s, n).parsing == s.parsing
  {
  }

  lemma AcceptStaysLoose(c: Config, s: State, n: NetworkId, unsynced: bool, signature: string)
    requires Loose(s)
    ensures Loose(Accept(c, s, n, unsynced, signature))
  {
  }

  lemma StepStaysLoose(c: Config, s: State, e: Event)
    requires Loose(s) && Enabled(s, e)
    ensures Loose(Step(c, s, e))
  {
    hide Fail, Accept;
    match e
    case CommandError(_, _, _) =>
      if s.pending != [] {
        FailStaysLoose(c, s.(pending := s.pending[1..], watchdogs := s.watchdogs - {s.pending[0]}), s.pending[0]);
      }
    case WatchdogFires(n) => FailStaysLoose(c, s.(watchdogs := s.watchdogs - {n}), n);
    case StreamStalls => FailStaysLoose(c, s.(deadline := None, active := None), s.active.value.network);
    case TreeEnd(_) =>
      if s.active.Some? {
        var n := s.active.value.network;
        FailStaysLoose(c, s.(deadline := None, active := None, parsing := s.parsing - {n}), n);
      }
    case ParseReturns(i, outcome) =>
      var s1 := s.(jobs := s.jobs[..i] + s.jobs[i + 1..]);
      FailStaysLoose(c, s1, s.jobs[i].network);
      if outcome.DeviceData? {
        AcceptStaysLoose(c, s1, s.jobs[i].network, outcome.unsynced, outcome.signature);
      }
    case _ =>
  }

  lemma SparingStepKeeps(c: Config, s: State, e: Event, n: NetworkId)
    requires LocalInv(c, s, n) && Enabled(s, e) && Spares(e, n)
    ensures LocalInv(c, Step(c, s, e), n)
  {
    hide Step, MoveOf, CanMove, Apply, Loose, View.Inv;
    StepStaysLoose(c, s, e);
    SparingStepProjects(c, s, e, n);
    MoveKeeps(c, n, ViewOf(s, n), MoveOf(c, s, e, n));
  }

  /** Stop aside, only other networks are removed. */
  predicate Sparing(es: seq<Event>, n: NetworkId) {
    forall i :: 0 <= i < |es| ==> Spares(es[i], n)
  }

  /** Over every run in which other networks may be removed at any moment, a network's own invariant holds. */
  lemma {:induction false} SparingRunKeeps(c: Config, s: State, es: seq<Event>, n: NetworkId)
    requires LocalInv(c, s, n) && CanRun(c, s, es) && Sparing(es, n)
    ensures LocalInv(c, Run(c, s, es), n)
    decreases |es|
  {
    hide Step, LocalInv;
    if es != [] {
      SparingStepKeeps(c, s, es[0], n);
      SparingRunKeeps(c, Step(c, s, es[0]), es[1..], n);
    }
  }
}
