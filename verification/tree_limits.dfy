/**
 * Where the protocol's guarantees stop: exactly when a removal or a shutdown keeps the invariant,
 * what still holds in every run whatever happens, and the runs that defeat the stronger claims.
 */
module TreeLimits {
  import opened Options
  import opened TreeProtocol
  import opened TreeInvariant
  import opened TreeGuarantees
  import opened TreeBound

  // Removals and shutdown.

  lemma RemoveSelf(c: Config, s: State, n: NetworkId)
    requires c.discoveryEnabled
    ensures var v := ViewOf(s, n);
            ViewOf(Remove(c, s, n), n) ==
            v.Dequeue().(watchdog := false, retry := false, resyncTimer := false, attempts := None,
                         resync := None, epoch := 0, parsing := false)
  {
    RemoveFirstCounts(s.pending, n);
  }

  /** Removing a network keeps the invariant unless its tree is just then arriving or being parsed. */
  lemma RemovalKeepsIff(c: Config, s: State, n: NetworkId)
    requires Inv(c, s) && c.discoveryEnabled
    ensures Inv(c, Remove(c, s, n)) <==> !Streaming(s, n) && n !in s.parsing
  {
    var s' := Remove(c, s, n);
    assert ViewOf(s, n).Inv(c, n);
    RemoveSelf(c, s, n);
    if !Streaming(s, n) && n !in s.parsing {
      forall m ensures ViewOf(s', m).Inv(c, m) {
        assert ViewOf(s, m).Inv(c, m);
        if m != n {
          RemoveOthers(c, s, n, m);
        }
      }
    } else {
      assert !ViewOf(s', n).Inv(c, n) || !(s'.deadline.Some? <==> s'.active.Some?);
    }
  }

  /** Shutting down keeps the invariant only if no request is queued and no stream is open. */
  lemma StopKeepsIff(c: Config, s: State)
    requires Inv(c, s)
    ensures Inv(c, StopAll(s)) <==> s.pending == [] && s.active.None?
  {
    var s' := StopAll(s);
    forall n ensures ViewOf(s', n) ==
                     ViewOf(s, n).(watchdog := false, retry := false, resyncTimer := false,
                                   attempts := None, resync := None) {
      assert ViewOf(s, n).Inv(c, n);
    }
    if s.pending == [] && s.active.None? {
      forall n ensures ViewOf(s', n).Inv(c, n) {
        assert ViewOf(s, n).Inv(c, n);
      }
    } else if s.pending != [] {
      assert s.pending[0] in s.pending;
      assert !ViewOf(s', s.pending[0]).Inv(c, s.pending[0]);
    }
  }

  // What holds in every run at all, removals and shutdown included.

  /** No timer outlives the record that can cancel it. */
  predicate Owned(s: State) {
    s.watchdogs <= s.attempts.Keys && s.retries <= s.attempts.Keys && s.resyncTimers <= s.resyncs.Keys
  }

  lemma FailOwned(c: Config, s: State, n: NetworkId)
    requires Owned(s)
    ensures Owned(Fail(c, s, n))
  {
  }

  lemma QueueOwned(c: Config, s: State, n: NetworkId)
    requires Owned(s)
    ensures Owned(QueueRequest(c, s, n))
  {
  }

  lemma AcceptOwned(c: Config, s: State, n: NetworkId, unsynced: bool, signature: string)
    requires Owned(s)
    ensures Owned(Accept(c, s, n, unsynced, signature))
  {
  }

  lemma StepOwned(c: Config, s: State, e: Event)
    requires Owned(s) && Enabled(s, e)
    ensures Owned(Step(c, s, e))
  {
    hide Fail, Accept, QueueRequest;
    match e
    case Request(n) => QueueOwned(c, s, n);
    case NetworkCreated(n) => QueueOwned(c, s, n);
    case SyncComplete(n) => QueueOwned(c, ClearResync(s, n), n);
    case RetryFires(n) => QueueOwned(c, s.(retries := s.retries - {n}), n);
    case ResyncFires(n) => QueueOwned(c, s.(resyncTimers := s.resyncTimers - {n}), n);
    case CommandError(_, _, _) =>
      if s.pending != [] {
        var n := s.pending[0];
        FailOwned(c, s.(pending := s.pending[1..], watchdogs := s.watchdogs - {n}), n);
      }
    case WatchdogFires(n) => FailOwned(c, s.(watchdogs := s.watchdogs - {n}), n);
    case StreamStalls =>
      var n := if s.active.Some? then s.active.value.network else s.deadline.value;
      FailOwned(c, s.(deadline := None, active := None), n);
    case TreeEnd(_) =>
      if s.active.Some? {
        var n := s.active.value.network;
        FailOwned(c, s.(deadline := None, active := None, parsing := s.parsing - {n}), n);
      }
    case ParseReturns(i, outcome) =>
      var s1 := s.(jobs := s.jobs[..i] + s.jobs[i + 1..]);
      FailOwned(c, s1, s.jobs[i].network);
      if outcome.DeviceData? {
        AcceptOwned(c, s1, s.jobs[i].network, outcome.unsynced, outcome.signature);
      }
    case _ =>
  }

  /** After any run whatever, shutting down leaves no timer armed: stop means stopped. */
  lemma {:induction false} StopSilences(c: Config, s: State, es: seq<Event>)
    requires Owned(s) && CanRun(c, s, es)
    ensures Owned(Run(c, s, es))
    ensures var s' := StopAll(Run(c, s, es));
            s'.watchdogs == {} && s'.retries == {} && s'.resyncTimers == {} && s'.deadline == None
    decreases |es|
  {
    hide Step;
    if es != [] {
      StepOwned(c, s, es[0]);
      StopSilences(c, Step(c, s, es[0]), es[1..]);
    }
  }

  // Pausing for good.

  /** Its re-fetch timer is not running alongside a request or a retry. */
  predicate Calm(v: View) {
    v.resyncTimer ==> !v.InFlight() && !v.retry
  }

  lemma MoveStaysCalm(c: Config, n: NetworkId, v: View, move: Move)
    requires v.Inv(c, n) && CanMove(v, n, move) && Calm(v) && (move.Asked? ==> move.renewBudget || !v.resyncTimer)
    ensures Calm(Apply(c, n, v, move))
  {
  }

  /**
   * A network that nobody asks for while its re-fetch timer runs never has that timer running
   * alongside a request, so when its retries run out it is paused with no timer at all.
   */
  lemma ExhaustedIsSilent(c: Config, s: State, es: seq<Event>, e: Event, n: NetworkId)
    requires Inv(c, s) && Calm(ViewOf(s, n)) && CanRun(c, s, es) && Undisturbed(es) && Unasked(es, n)
    requires Enabled(Run(c, s, es), e) && !Disruptive(e) && Exhausts(c, Run(c, s, es), e, n)
    ensures var v := ViewOf(Run(c, Run(c, s, es), [e]), n);
            !v.InFlight() && !v.watchdog && !v.retry && !v.resyncTimer
  {
    hide Step;
    var s' := Run(c, s, es);
    RunKeeps(c, s, es);
    StaysCalm(c, s, es, n);
    var v, move := ViewOf(s', n), MoveOf(c, s', e, n);
    assert v.Inv(c, n);
    StepProjects(c, s', e, n);
    MovePauses(c, n, v, move);
    MoveReleases(c, n, v, move);
    assert [e][1..] == [];
    assert Run(c, s', [e]) == Step(c, s', e);
  }

  lemma {:induction false} StaysCalm(c: Config, s: State, es: seq<Event>, n: NetworkId)
    requires Inv(c, s) && Calm(ViewOf(s, n)) && CanRun(c, s, es) && Undisturbed(es) && Unasked(es, n)
    ensures Calm(ViewOf(Run(c, s, es), n))
    decreases |es|
  {
    hide Step;
    if es != [] {
      assert ViewOf(s, n).Inv(c, n) && !Asks(es[0], n);
      StepProjects(c, s, es[0], n);
      StepKeeps(c, s, es[0]);
      MoveStaysCalm(c, n, ViewOf(s, n), MoveOf(c, s, es[0], n));
      StaysCalm(c, Step(c, s, es[0]), es[1..], n);
    }
  }

  // Runs that defeat the stronger claims.

  /** Removed while its tree is being parsed, then requested again when it is re-created. */
  function RemovedAndAskedAgain(c: Config, s: State, n: NetworkId): State {
    Step(c, Step(c, s, NetworkRemoved(n)), Request(n))
  }

  lemma AskedAgain(c: Config, s: State, n: NetworkId)
    requires Inv(c, s) && c.discoveryEnabled && n in s.parsing
    ensures var s2 := RemovedAndAskedAgain(c, s, n);
            && s2.jobs == s.jobs && n in s2.pending && n in s2.watchdogs && n !in s2.retries
            && n !in s2.parsing && !Streaming(s2, n) && n !in s2.resyncTimers && EpochOf(s2, n) == 1
  {
    hide QueueRequest;
    var s1 := Remove(c, s, n);
    assert ViewOf(s, n).Inv(c, n);
    RemoveSelf(c, s, n);
    QueueView(c, s1, n);
    QueueLeavesJobs(c, s1, n);
    assert ViewOf(QueueRequest(c, s1, n), n).queued == 1;
  }

  lemma QueueLeavesJobs(c: Config, s: State, n: NetworkId)
    ensures QueueRequest(c, s, n).jobs == s.jobs
  {
  }

  /**
   * Removal forgets the epoch, so the parse of a network's first tree passes for the answer to the
   * request made after re-creation: its watchdog is cancelled and the new request is left
   * outstanding with neither timer nor callback. It happens exactly when the epoch was 1.
   */
  lemma StaleTreeStrandsRequest(c: Config, s: State, n: NetworkId, i: nat, unsynced: bool, signature: string)
    requires Inv(c, s) && c.discoveryEnabled && i < |s.jobs| && s.jobs[i].network == n
    ensures var s2 := RemovedAndAskedAgain(c, s, n);
            && i < |s2.jobs|
            && var s3 := Step(c, s2, ParseReturns(i, DeviceData(unsynced, signature)));
               && InFlight(s3, n) && n !in s3.parsing && !Streaming(s3, n)
               && (n !in s3.watchdogs <==> EpochOf(s, n) == 1)
  {
    assert ViewOf(s, n).Inv(c, n);
    JobDropped(c, s, i, n);
    AskedAgain(c, s, n);
    AcceptKeepsPending(c, RemovedAndAskedAgain(c, s, n), i, n, unsynced, signature);
  }

  lemma AcceptKeepsPending(c: Config, s: State, i: nat, n: NetworkId, unsynced: bool, signature: string)
    requires i < |s.jobs| && s.jobs[i].network == n && n in s.pending && n in s.watchdogs && !Streaming(s, n)
    ensures var s' := Parsed(c, s, i, DeviceData(unsynced, signature));
            && n in s'.pending && n !in s'.parsing && !Streaming(s', n)
            && (n in s'.watchdogs <==> s.jobs[i].epoch != EpochOf(s, n))
  {
    hide Accept, Fail;
    AcceptLeavesQueue(c, s.(jobs := s.jobs[..i] + s.jobs[i + 1..]), n, unsynced, signature);
  }

  lemma AcceptLeavesQueue(c: Config, s: State, n: NetworkId, unsynced: bool, signature: string)
    ensures var s' := Accept(c, s, n, unsynced, signature);
            s'.pending == s.pending && s'.active == s.active && n !in s'.watchdogs
  {
  }

  /** `unknown` is neither requested nor waiting for anything; at most a stray stream is open. */
  predicate UnknownIsQuiet(s: State) {
    Unknown !in s.pending && Unknown !in s.retries && Unknown !in s.resyncTimers
  }

  /** A stray stream stalls while `unknown` has retries left. */
  predicate StrayStall(c: Config, s: State, e: Event) {
    e.StreamStalls? && Streaming(s, Unknown) && AttemptsOf(s, Unknown) < c.maxRetries
  }

  /**
   * A response nobody requested is charged to `unknown`. The bridge comes to ask C-Gate for a network
   * of that name, although no one ever requested it, exactly when such a stream stalls with retries
   * left: only that arms a retry, and the retry sends the command.
   */
  lemma UnknownIsRetriedIff(c: Config, s: State, e: Event)
    requires Inv(c, s) && UnknownIsQuiet(s) && Enabled(s, e) && !Disruptive(e) && !Asks(e, Unknown)
    ensures var s' := Step(c, s, e);
            && (Unknown in s'.retries <==> StrayStall(c, s, e))
            && (UnknownIsQuiet(s') <==> !StrayStall(c, s, e))
            && SendsOf(s', Unknown) == SendsOf(s, Unknown)
            && (StrayStall(c, s, e) ==> Enabled(s', RetryFires(Unknown))
                                        && Step(c, s', RetryFires(Unknown)).sent == s'.sent + [Unknown])
  {
    hide Step;
    var v, move, s' := ViewOf(s, Unknown), MoveOf(c, s, e, Unknown), Step(c, s, e);
    assert v.Inv(c, Unknown);
    StepProjects(c, s, e, Unknown);
    StepKeeps(c, s, e);
    QuietMove(c, v, move);
    assert ViewOf(s', Unknown).Inv(c, Unknown);
    assert ViewOf(s', Unknown).InFlight() == InFlight(s', Unknown);
    assert move.StreamFailed? <==> e.StreamStalls? && Streaming(s, Unknown);
    if Unknown in s'.retries {
      RetrySends(c, s');
    }
  }

  lemma QuietMove(c: Config, v: View, move: Move)
    requires v.Inv(c, Unknown) && CanMove(v, Unknown, move) && !move.Asked? && !v.parsing
    requires v.queued == 0 && !v.retry && !v.resyncTimer
    ensures var v' := Apply(c, Unknown, v, move);
            && (v'.retry <==> move.StreamFailed? && v.attempts.GetOr(0) < c.maxRetries)
            && v'.queued == 0 && !v'.resyncTimer && v'.sends == v.sends
  {
  }

  lemma RetrySends(c: Config, s: State)
    requires Unknown in s.retries && !InFlight(s, Unknown)
    ensures Step(c, s, RetryFires(Unknown)).sent == s.sent + [Unknown]
  {
  }

  /** So over whole runs: without a stray stall nothing is ever sent for `unknown`. */
  lemma {:induction false} WithoutStallsUnknownIsSilent(c: Config, s: State, es: seq<Event>)
    requires Inv(c, s) && UnknownIsQuiet(s) && CanRun(c, s, es) && Undisturbed(es) && Unasked(es, Unknown)
    requires !StallsStray(c, s, es)
    ensures UnknownIsQuiet(Run(c, s, es)) && SendsOf(Run(c, s, es), Unknown) == SendsOf(s, Unknown)
    decreases |es|
  {
    hide Step, StrayStall;
    if es != [] {
      assert !Asks(es[0], Unknown);
      UnknownIsRetriedIff(c, s, es[0]);
      StepKeeps(c, s, es[0]);
      WithoutStallsUnknownIsSilent(c, Step(c, s, es[0]), es[1..]);
    }
  }

  predicate StallsStray(c: Config, s: State, es: seq<Event>)
    requires CanRun(c, s, es)
    decreases |es|
  {
    es != [] && (StrayStall(c, s, es[0]) || StallsStray(c, Step(c, s, es[0]), es[1..]))
  }

  /** Only the network's own request and retry timers go off. */
  predicate OnlyTimeOuts(es: seq<Event>, n: NetworkId) {
    forall i :: 0 <= i < |es| ==> es[i] == WatchdogFires(n) || es[i] == RetryFires(n)
  }

  lemma TimeOutMoves(c: Config, n: NetworkId, v: View)
    requires v.Inv(c, n) && v.queued > 0 && v.resyncTimer
    ensures var v' := Apply(c, n, v, Rejected); var a := v.attempts.GetOr(0);
            && v'.resyncTimer && v'.queued == 0 && !v'.InFlight() && (v'.retry <==> a < c.maxRetries)
            && (a < c.maxRetries ==> var v'' := Apply(c, n, v', RetryFired);
                                     v''.queued == 1 && v''.resyncTimer && v''.attempts == Some(a + 1))
  {
  }

  /** A queued network whose every fetch times out ends paused, and its re-fetch timer runs on. */
  lemma {:induction false} TimesOut(c: Config, s: State, n: NetworkId) returns (es: seq<Event>)
    requires Inv(c, s) && n in s.pending && n in s.resyncTimers
    ensures OnlyTimeOuts(es, n) && CanRun(c, s, es)
    ensures n in Run(c, s, es).resyncTimers && !Alive(Run(c, s, es), n)
    decreases c.maxRetries - AttemptsOf(s, n)
  {
    hide Step, Apply, View.Inv, InFlight, View.InFlight;
    assert ViewOf(s, n).Inv(c, n) && ViewOf(s, n).queued > 0;
    TimeOutMoves(c, n, ViewOf(s, n));
    TimeOutIsArmed(c, s, n);
    var s1 := Step(c, s, WatchdogFires(n));
    StepProjects(c, s, WatchdogFires(n), n);
    StepKeeps(c, s, WatchdogFires(n));
    InFlightView(s1, n);
    if n in s1.retries {
      var s2 := Step(c, s1, RetryFires(n));
      StepProjects(c, s1, RetryFires(n), n);
      StepKeeps(c, s1, RetryFires(n));
      assert ViewOf(s2, n).queued == 1;
      var rest := TimesOut(c, s2, n);
      Then(c, s1, RetryFires(n), rest);
      Then(c, s, WatchdogFires(n), [RetryFires(n)] + rest);
      es := [WatchdogFires(n)] + ([RetryFires(n)] + rest);
    } else {
      Then(c, s, WatchdogFires(n), []);
      es := [WatchdogFires(n)] + [];
    }
  }

  lemma InFlightView(s: State, n: NetworkId)
    ensures ViewOf(s, n).InFlight() == InFlight(s, n)
  {
  }

  lemma TimeOutIsArmed(c: Config, s: State, n: NetworkId)
    requires Inv(c, s) && n in s.pending
    ensures n in s.watchdogs && AttemptsOf(s, n) <= c.maxRetries
  {
    assert ViewOf(s, n).Inv(c, n);
  }

  /**
   * Asked for while its re-fetch timer runs, a network can run out of retries and be paused with that
   * timer still armed.
   */
  lemma PausedWithRefetchPending(c: Config, s: State, n: NetworkId) returns (es: seq<Event>)
    requires Inv(c, s) && n in s.resyncTimers && n !in s.pending
    ensures OnlyTimeOuts(es, n) && CanRun(c, s, [Request(n)] + es)
    ensures var s' := Run(c, s, [Request(n)] + es); n in s'.resyncTimers && !Alive(s', n)
  {
    hide Step;
    assert ViewOf(s, n).Inv(c, n);
    StepProjects(c, s, Request(n), n);
    StepKeeps(c, s, Request(n));
    var s1 := Step(c, s, Request(n));
    assert ViewOf(s1, n).queued == 1 && ViewOf(s1, n).resyncTimer;
    es := TimesOut(c, s1, n);
    Then(c, s, Request(n), es);
  }
}
