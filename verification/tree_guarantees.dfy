/**
 * What the TREEXML protocol guarantees over whole runs without removals or shutdown: the invariant, no
 * request that nothing will release, and the ways a request ends. TreeLimits says where this stops.
 */
module TreeGuarantees {
  import opened Options
  import opened TreeProtocol
  import opened TreeInvariant

  lemma InitialInv(c: Config)
    ensures Inv(c, INITIAL)
  {
    forall n ensures ViewOf(INITIAL, n).Inv(c, n) {
    }
  }

  /** The invariant is each network's own, and no open session without its stall timer. */
  lemma InvIffLocal(c: Config, s: State)
    ensures Inv(c, s) <==> (forall n :: LocalInv(c, s, n)) && (s.active.Some? ==> s.deadline.Some?)
  {
    hide View.Inv;
    if (forall n :: LocalInv(c, s, n)) && (s.active.Some? ==> s.deadline.Some?) {
      assert LocalInv(c, s, Unknown);
      forall n ensures ViewOf(s, n).Inv(c, n) {
        assert LocalInv(c, s, n);
      }
    }
  }

  /** Nothing but the stream itself moves the session, its deadline or the set of parses. */
  lemma FailLeavesStream(c: Config, s: State, n: NetworkId)
    requires !Streaming(s, n)
    ensures var s' := Fail(c, s, n); s'.deadline == s.deadline && s'.active == s.active && s'.parsing == s.parsing
  {
  }

  lemma AcceptLeavesStream(c: Config, s: State, n: NetworkId, unsynced: bool, signature: string)
    requires !Streaming(s, n)
    ensures var s' := Accept(c, s, n, unsynced, signature);
            s'.deadline == s.deadline && s'.active == s.active && s'.parsing == s.parsing
  {
  }

  ghost predicate StreamInv(s: State) {
    (s.deadline.Some? <==> s.active.Some?) && Unknown !in s.parsing
  }

  lemma ParsedKeepsStream(c: Config, s: State, i: nat, outcome: Outcome)
    requires StreamInv(s) && i < |s.jobs| && !Streaming(s, s.jobs[i].network)
    ensures StreamInv(Parsed(c, s, i, outcome))
  {
    var n := s.jobs[i].network;
    var s1 := s.(jobs := s.jobs[..i] + s.jobs[i + 1..]);
    FailLeavesStream(c, s1, n);
    if outcome.DeviceData? {
      AcceptLeavesStream(c, s1, n, outcome.unsynced, outcome.signature);
    }
  }

  lemma StepKeepsStream(c: Config, s: State, e: Event)
    requires Inv(c, s) && Enabled(s, e) && !Disruptive(e)
    ensures StreamInv(Step(c, s, e))
  {
    match e
    case ParseReturns(i, outcome) =>
      var n := s.jobs[i].network;
      assert ViewOf(s, n).Inv(c, n);
      JobDropped(c, s, i, n);
      ParsedKeepsStream(c, s, i, outcome);
    case WatchdogFires(n) =>
      assert ViewOf(s, n).Inv(c, n);
      FailLeavesStream(c, s.(watchdogs := s.watchdogs - {n}), n);
    case CommandError(_, _, _) =>
      if s.pending != [] {
        var n := s.pending[0];
        assert ViewOf(s, n).Inv(c, n);
        FailLeavesStream(c, s.(pending := s.pending[1..], watchdogs := s.watchdogs - {n}), n);
      }
    case TreeEnd(_) =>
      if s.active.Some? {
        var n := s.active.value.network;
        FailLeavesStream(c, s.(deadline := None, active := None, parsing := s.parsing - {n}), n);
      }
    case StreamStalls =>
      FailLeavesStream(c, s.(deadline := None, active := None), s.active.value.network);
    case _ =>
  }

  lemma StepKeeps(c: Config, s: State, e: Event)
    requires Inv(c, s) && Enabled(s, e) && !Disruptive(e)
    ensures Inv(c, Step(c, s, e))
  {
    StepKeepsStream(c, s, e);
    forall n ensures ViewOf(Step(c, s, e), n).Inv(c, n) {
      StepProjects(c, s, e, n);
      MoveKeeps(c, n, ViewOf(s, n), MoveOf(c, s, e, n));
    }
  }

  predicate Undisturbed(es: seq<Event>) {
    forall i :: 0 <= i < |es| ==> !Disruptive(es[i])
  }

  /** The invariant holds in every state a run without removals or shutdown can reach. */
  lemma {:induction false} RunKeeps(c: Config, s: State, es: seq<Event>)
    requires Inv(c, s) && CanRun(c, s, es) && Undisturbed(es)
    ensures Inv(c, Run(c, s, es))
    decreases |es|
  {
    if es != [] {
      StepKeeps(c, s, es[0]);
      RunKeeps(c, Step(c, s, es[0]), es[1..]);
    }
  }

  lemma CountedTwice(ns: seq<NetworkId>, i: nat, j: nat)
    requires i < j < |ns| && ns[i] == ns[j]
    ensures multiset(ns)[ns[i]] >= 2
  {
    var head := ns[..j];
    assert ns == head + ([ns[j]] + ns[j + 1..]);
    assert head[i] in head;
  }

  /**
   * The invariant in the protocol's own terms, and so what RunKeeps says of every reachable state: no
   * network is queued twice; queued, streaming and parsing exclude each other; watchdogs are armed for
   * exactly the queued networks, the stall timer exactly while a session is open; retries only for
   * networks not in flight; and every budget is within its cap.
   */
  lemma InvariantShape(c: Config, s: State)
    requires Inv(c, s)
    ensures forall i, j :: 0 <= i < j < |s.pending| ==> s.pending[i] != s.pending[j]
    ensures forall n :: n in s.pending ==> !Streaming(s, n) && n !in s.parsing
    ensures forall n :: n in s.parsing ==> !Streaming(s, n)
    ensures forall n :: n in s.watchdogs <==> n in s.pending
    ensures s.deadline.Some? <==> s.active.Some?
    ensures forall n :: n in s.retries ==> !InFlight(s, n)
    ensures forall n :: n in s.attempts ==> s.attempts[n] <= c.maxRetries
    ensures forall n :: n in s.resyncs ==> s.resyncs[n].attempts <= c.maxResyncs
  {
    forall i, j | 0 <= i < j < |s.pending| ensures s.pending[i] != s.pending[j] {
      assert ViewOf(s, s.pending[i]).Inv(c, s.pending[i]);
      if s.pending[i] == s.pending[j] {
        CountedTwice(s.pending, i, j);
      }
    }
    forall n
      ensures n in s.pending ==> !Streaming(s, n) && n !in s.parsing
      ensures n in s.parsing ==> !Streaming(s, n)
      ensures n in s.watchdogs <==> n in s.pending
      ensures n in s.retries ==> !InFlight(s, n)
      ensures n in s.attempts ==> s.attempts[n] <= c.maxRetries
      ensures n in s.resyncs ==> s.resyncs[n].attempts <= c.maxResyncs
    {
      assert ViewOf(s, n).Inv(c, n);
    }
  }

  /** A timer or a callback whose arrival gives up on, or finishes, the outstanding request for n. */
  ghost predicate Releases(s: State, e: Event, n: NetworkId) {
    && Enabled(s, e)
    && match e
       case WatchdogFires(k) => k == n
       case StreamStalls => Streaming(s, n)
       case ParseReturns(i, _) => s.jobs[i].network == n
       case _ => false
  }

  lemma {:induction false} JobIndex(jobs: seq<ParseJob>, n: NetworkId) returns (i: nat)
    requires JobsOf(jobs, n) != []
    ensures i < |jobs| && jobs[i].network == n
  {
    if jobs[0].network == n {
      i := 0;
    } else {
      i := JobIndex(jobs[1..], n);
      i := i + 1;
    }
  }

  /** No outstanding request can wedge the in-flight guard: something armed will release it. */
  lemma OutstandingHasReleaser(c: Config, s: State, n: NetworkId) returns (e: Event)
    requires Inv(c, s) && InFlight(s, n)
    ensures Releases(s, e, n)
  {
    assert ViewOf(s, n).Inv(c, n);
    if n in s.pending {
      e := WatchdogFires(n);
    } else if Streaming(s, n) {
      e := StreamStalls;
    } else {
      var i := JobIndex(s.jobs, n);
      e := ParseReturns(i, ParseFailed);
    }
  }

  /** Whatever the parse outcome, a releaser that arrives ends the outstanding request. */
  lemma ReleaserReleases(c: Config, s: State, e: Event, n: NetworkId)
    requires Inv(c, s) && Releases(s, e, n)
    ensures InFlight(s, n) && !InFlight(Step(c, s, e), n)
  {
    hide Step;
    var v := ViewOf(s, n);
    assert v.Inv(c, n);
    StepProjects(c, s, e, n);
    if e.ParseReturns? {
      JobDropped(c, s, e.job, n);
    }
    assert MoveOf(c, s, e, n) in {Rejected, StreamFailed, TreeRefused} || MoveOf(c, s, e, n).TreeAccepted?;
    MoveReleases(c, n, v, MoveOf(c, s, e, n));
    assert ViewOf(Step(c, s, e), n).InFlight() == InFlight(Step(c, s, e), n);
  }

  lemma MoveReleases(c: Config, n: NetworkId, v: View, move: Move)
    requires v.Inv(c, n) && CanMove(v, n, move)
    requires move in {Rejected, StreamFailed, TreeRefused} || move.TreeAccepted?
    ensures v.InFlight() && !Apply(c, n, v, move).InFlight()
  {
  }

  /** Outstanding, or waiting for its retry: the protocol itself will try this network again. */
  predicate Alive(s: State, n: NetworkId) {
    InFlight(s, n) || n in s.retries
  }

  /** The request for n fails in this step, with no retry left in its budget. */
  ghost predicate Exhausts(c: Config, s: State, e: Event, n: NetworkId)
    requires Enabled(s, e)
  {
    MoveOf(c, s, e, n) in {Rejected, StreamFailed, TreeRefused} && AttemptsOf(s, n) == c.maxRetries
  }

  /** The stream of n is dropped without a retry: another network's tree starts, or its own ends empty. */
  predicate DropsStream(s: State, e: Event, n: NetworkId) {
    && Streaming(s, n)
    && ((e.TreeStart? && s.pending != [])
        || (e.TreeEnd? && (s.active.value.parts == [] || n == Unknown)))
  }

  /**
   * A live network stops being live in exactly three ways: its tree is accepted, its retries run
   * out, or its stream is dropped. The last is the one case that leaves it neither resolved nor paused.
   */
  lemma LiveUntilSettled(c: Config, s: State, e: Event, n: NetworkId)
    requires Inv(c, s) && Enabled(s, e) && !Disruptive(e) && Alive(s, n)
    ensures !Alive(Step(c, s, e), n) <==>
            MoveOf(c, s, e, n).TreeAccepted? || Exhausts(c, s, e, n) || DropsStream(s, e, n)
  {
    hide Step, Apply, MoveOf, Enabled, CanMove, DropsStream, Disruptive;
    var v := ViewOf(s, n);
    assert v.Inv(c, n);
    StepProjects(c, s, e, n);
    var v' := ViewOf(Step(c, s, e), n);
    assert v'.InFlight() == InFlight(Step(c, s, e), n);
    DropIsLost(c, s, e, n);
    MoveEndsLife(c, n, v, MoveOf(c, s, e, n));
  }

  lemma DropIsLost(c: Config, s: State, e: Event, n: NetworkId)
    requires ViewOf(s, n).Inv(c, n) && Enabled(s, e) && !Disruptive(e)
    ensures MoveOf(c, s, e, n).Lost? <==> DropsStream(s, e, n)
  {
  }

  lemma MoveEndsLife(c: Config, n: NetworkId, v: View, move: Move)
    requires v.Inv(c, n) && CanMove(v, n, move) && (v.InFlight() || v.retry)
    ensures var v' := Apply(c, n, v, move);
            !(v'.InFlight() || v'.retry) <==>
            move.TreeAccepted? || move.Lost?
            || (move in {Rejected, StreamFailed, TreeRefused} && v.attempts.GetOr(0) == c.maxRetries)
  {
  }

  /** A network that runs out of retries is paused, out of flight and without watchdog or retry. */
  lemma ExhaustedIsPaused(c: Config, s: State, e: Event, n: NetworkId)
    requires Inv(c, s) && Enabled(s, e) && !Disruptive(e) && Exhausts(c, s, e, n)
    ensures var s' := Step(c, s, e);
            && !Alive(s', n) && n !in s'.watchdogs && n !in s'.attempts
            && (n in s'.resyncTimers <==> n in s.resyncTimers)
            && (c.discoveryEnabled ==> n in s'.statuses && s'.statuses[n] == Paused)
  {
    hide Step;
    var v, move := ViewOf(s, n), MoveOf(c, s, e, n);
    assert v.Inv(c, n);
    StepProjects(c, s, e, n);
    MovePauses(c, n, v, move);
    assert ViewOf(Step(c, s, e), n).InFlight() == InFlight(Step(c, s, e), n);
    if c.discoveryEnabled {
      PauseIsPublished(c, s, e, n);
    }
  }

  lemma MovePauses(c: Config, n: NetworkId, v: View, move: Move)
    requires v.Inv(c, n) && CanMove(v, n, move)
    requires move in {Rejected, StreamFailed, TreeRefused} && v.attempts.GetOr(0) == c.maxRetries
    ensures var v' := Apply(c, n, v, move);
            && !v'.InFlight() && !v'.retry && !v'.watchdog && v'.attempts == None
            && v'.resyncTimer == v.resyncTimer
  {
  }

  lemma FailPublishes(c: Config, s: State, n: NetworkId)
    requires c.discoveryEnabled && AttemptsOf(s, n) == c.maxRetries
    ensures n in Fail(c, s, n).statuses && Fail(c, s, n).statuses[n] == Paused
  {
  }

  lemma InvAt(c: Config, s: State, n: NetworkId)
    requires Inv(c, s)
    ensures ViewOf(s, n).Inv(c, n) && (s.deadline.Some? <==> s.active.Some?)
  {
  }

  lemma ParsePauses(c: Config, s: State, i: nat, outcome: Outcome)
    requires i < |s.jobs| && !outcome.DeviceData? && s.jobs[i].epoch == EpochOf(s, s.jobs[i].network)
    requires c.discoveryEnabled && AttemptsOf(s, s.jobs[i].network) == c.maxRetries
    ensures var n, s' := s.jobs[i].network, Parsed(c, s, i, outcome); n in s'.statuses && s'.statuses[n] == Paused
  {
    hide Fail, Accept;
    FailPublishes(c, s.(jobs := s.jobs[..i] + s.jobs[i + 1..]), s.jobs[i].network);
  }

  lemma EndPauses(c: Config, s: State, n: NetworkId)
    requires Streaming(s, n) && n != Unknown && s.active.value.parts != []
    requires c.discoveryEnabled && AttemptsOf(s, n) == c.maxRetries
    ensures var s' := Step(c, s, TreeEnd(true)); n in s'.statuses && s'.statuses[n] == Paused
  {
    hide Fail;
    FailPublishes(c, s.(deadline := None, active := None, parsing := s.parsing - {n}), n);
  }

  lemma StallPauses(c: Config, s: State, n: NetworkId)
    requires s.deadline.Some? && Streaming(s, n) && c.discoveryEnabled && AttemptsOf(s, n) == c.maxRetries
    ensures var s' := Step(c, s, StreamStalls); n in s'.statuses && s'.statuses[n] == Paused
  {
    hide Fail;
    FailPublishes(c, s.(deadline := None, active := None), n);
  }

  lemma RequestPauses(c: Config, s: State, e: Event, n: NetworkId)
    requires e == WatchdogFires(n) || (e.CommandError? && s.pending != [] && s.pending[0] == n)
    requires e.CommandError? ==> IsTreeError(e.code, e.saysNotFound, e.namesPath)
    requires Enabled(s, e) && c.discoveryEnabled && AttemptsOf(s, n) == c.maxRetries
    ensures var s' := Step(c, s, e); n in s'.statuses && s'.statuses[n] == Paused
  {
    hide Fail;
    FailPublishes(c, s.(watchdogs := s.watchdogs - {n}), n);
    if e.CommandError? {
      FailPublishes(c, s.(pending := s.pending[1..], watchdogs := s.watchdogs - {n}), n);
    }
  }

  lemma PauseIsPublished(c: Config, s: State, e: Event, n: NetworkId)
    requires Inv(c, s) && Enabled(s, e) && !Disruptive(e) && Exhausts(c, s, e, n) && c.discoveryEnabled
    ensures n in Step(c, s, e).statuses && Step(c, s, e).statuses[n] == Paused
  {
    InvAt(c, s, n);
    if e.ParseReturns? {
      hide Parsed, Inv;
      JobDropped(c, s, e.job, n);
      ParsePauses(c, s, e.job, e.outcome);
    } else if e.StreamStalls? {
      hide Step, Inv;
      StallPauses(c, s, n);
    } else if e.TreeEnd? {
      hide Step, Inv;
      EndPauses(c, s, n);
    } else {
      hide Step, Inv;
      RequestPauses(c, s, e, n);
    }
  }
}
