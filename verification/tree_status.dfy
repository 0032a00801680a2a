/**
 * What the outside sees of the TREEXML protocol: which event sends which command, and the status each
 * network is published with.
 */
module TreeStatus {
  import opened Options
  import opened TreeGuarantees
  import opened TreeInvariant
  import opened TreeProtocol

  /** The network an event asks the tree of: by hand, on arrival in scope, or by a retry or re-fetch timer. */
  function Asks(c: Config, e: Event): Option<NetworkId> {
    match e
    case Request(n) => Some(n)
    case NetworkCreated(n) => if c.discoveryEnabled && (c.scope == [] || n in c.scope) then Some(n) else None
    case SyncComplete(n) => if c.discoveryEnabled && (c.scope == [] || n in c.scope) then Some(n) else None
    case RetryFires(n) => Some(n)
    case ResyncFires(n) => Some(n)
    case _ => None
  }

  /** Waiting for an answer, receiving it, or having it parsed. */
  predicate IsOutstanding(s: State, n: NetworkId) {
    n in s.pending || (s.active.Some? && s.active.value.network == n) || n in s.parsing
  }

  /** The network whose fetch an event reports as failed. */
  function Fails(s: State, e: Event): Option<NetworkId>
    requires Enabled(s, e)
  {
    match e
    case CommandError(code, notFound, path) =>
      if code == "401" && notFound && !path && s.pending != [] then Some(s.pending[0]) else None
    case WatchdogFires(n) => Some(n)
    case StreamStalls => if s.active.Some? then Some(s.active.value.network) else s.deadline
    case TreeEnd(throws) =>
      if throws && s.active.Some? && s.active.value.parts != [] && s.active.value.network != Unknown then
        Some(s.active.value.network)
      else None
    case ParseReturns(i, outcome) =>
      if !outcome.DeviceData? && EpochOf(s, s.jobs[i].network) == s.jobs[i].epoch then Some(s.jobs[i].network)
      else None
    case _ => None
  }

  /** The network whose tree an event brings. */
  function Brings(s: State, e: Event): Option<NetworkId>
    requires Enabled(s, e)
  {
    match e
    case ParseReturns(i, outcome) =>
      if outcome.DeviceData? && EpochOf(s, s.jobs[i].network) == s.jobs[i].epoch then Some(s.jobs[i].network)
      else None
    case _ => None
  }

  lemma FailSpeaks(c: Config, s: State, n: NetworkId)
    ensures var s' := Fail(c, s, n);
            && s'.sent == s.sent && s'.accepted == s.accepted
            && s'.statuses == if c.discoveryEnabled && AttemptsOf(s, n) >= c.maxRetries then s.statuses[n := Paused]
                              else s.statuses
  {
  }

  lemma AcceptSpeaks(c: Config, s: State, n: NetworkId, unsynced: bool, signature: string)
    ensures var s' := Accept(c, s, n, unsynced, signature);
            && s'.sent == s.sent && s'.accepted == s.accepted + [n]
            && s'.statuses == if c.discoveryEnabled then s.statuses[n := Resolved] else s.statuses
  {
  }

  /** The step that fails a network is that failure, but for records that concern no other. */
  lemma FailureStep(c: Config, s: State, e: Event)
    requires Enabled(s, e)
    requires e.CommandError? || e.WatchdogFires? || e.StreamStalls? || e.TreeEnd? || e.ParseReturns?
    ensures var s', n := Step(c, s, e), Fails(s, e);
            && s'.sent == s.sent
            && s'.accepted == (if Brings(s, e).Some? then s.accepted + [Brings(s, e).value] else s.accepted)
            && s'.statuses ==
               if !c.discoveryEnabled then s.statuses
               else if Brings(s, e).Some? then s.statuses[Brings(s, e).value := Resolved]
               else if n.Some? && AttemptsOf(s, n.value) >= c.maxRetries then s.statuses[n.value := Paused]
               else s.statuses
  {
    hide Fail, Accept, Document;
    match e
    case CommandError(_, _, _) =>
      if s.pending != [] {
        var n := s.pending[0];
        FailSpeaks(c, s.(pending := s.pending[1..], watchdogs := s.watchdogs - {n}), n);
      }
    case WatchdogFires(n) => FailSpeaks(c, s.(watchdogs := s.watchdogs - {n}), n);
    case StreamStalls =>
      var n := if s.active.Some? then s.active.value.network else s.deadline.value;
      FailSpeaks(c, s.(deadline := None, active := None), n);
    case TreeEnd(throws) =>
      hide EndStream;
      EndSpeaks(c, s, throws);
    case ParseReturns(i, outcome) =>
      hide Parsed;
      ParsedSpeaks(c, s, i, outcome);
  }

  lemma EndSpeaks(c: Config, s: State, throws: bool)
    ensures var s', n := EndStream(c, s, throws), Fails(s, TreeEnd(throws));
            && s'.sent == s.sent && s'.accepted == s.accepted
            && s'.statuses == if c.discoveryEnabled && n.Some? && AttemptsOf(s, n.value) >= c.maxRetries then
                                s.statuses[n.value := Paused]
                              else s.statuses
  {
    hide Fail, Document;
    if s.active.Some? {
      var n := s.active.value.network;
      FailSpeaks(c, s.(deadline := None, active := None, parsing := s.parsing - {n}), n);
    }
  }

  lemma ParsedSpeaks(c: Config, s: State, i: nat, outcome: Outcome)
    requires i < |s.jobs|
    ensures var s', n, k := Parsed(c, s, i, outcome), Fails(s, ParseReturns(i, outcome)), s.jobs[i].network;
            var brings := Brings(s, ParseReturns(i, outcome)) == Some(k);
            && s'.sent == s.sent && s'.accepted == (if brings then s.accepted + [k] else s.accepted)
            && s'.statuses == if !c.discoveryEnabled then s.statuses
                              else if brings then s.statuses[k := Resolved]
                              else if n.Some? && AttemptsOf(s, k) >= c.maxRetries then s.statuses[k := Paused]
                              else s.statuses
  {
    hide Fail, Accept;
    var s1 := s.(jobs := s.jobs[..i] + s.jobs[i + 1..]);
    FailSpeaks(c, s1, s.jobs[i].network);
    if outcome.DeviceData? {
      AcceptSpeaks(c, s1, s.jobs[i].network, outcome.unsynced, outcome.signature);
    }
  }

  /**
   * From whatever state, one step sends TREEXML to a network if and only if the event asks for it and
   * its tree is not outstanding, and never to two.
   */
  lemma CommandIff(c: Config, s: State, e: Event)
    requires Enabled(s, e)
    ensures var n := Asks(c, e);
            Step(c, s, e).sent == s.sent + if n.Some? && !IsOutstanding(s, n.value) then [n.value] else []
  {
    if e.CommandError? || e.WatchdogFires? || e.StreamStalls? || e.TreeEnd? || e.ParseReturns? {
      FailureStep(c, s, e);
      hide Step;
    }
  }

  /** A network out of scope is left alone altogether, and a refusal is heeded only if it is about a tree. */
  lemma DisregardedIff(c: Config, s: State, e: Event)
    requires Enabled(s, e)
    ensures (e.NetworkCreated? || e.SyncComplete?) && Asks(c, e).None? ==> Step(c, s, e) == s
    ensures e.CommandError? ==>
              (Step(c, s, e) != s <==> e.code == "401" && e.saysNotFound && !e.namesPath && s.pending != [])
  {
    if e.CommandError? && s.pending != [] {
      FailShortens(c, s.(pending := s.pending[1..], watchdogs := s.watchdogs - {s.pending[0]}), s.pending[0]);
    }
    hide Fail, QueueRequest;
  }

  lemma FailShortens(c: Config, s: State, n: NetworkId)
    ensures |Fail(c, s, n).pending| <= |s.pending|
  {
    RemoveShortens(s.pending, n);
  }

  lemma {:induction false} RemoveShortens(ns: seq<NetworkId>, n: NetworkId)
    ensures |RemoveFirst(ns, n)| <= |ns|
  {
    if ns != [] {
      RemoveShortens(ns[1..], n);
    }
  }

  /**
   * The published statuses, from whatever state: asking makes a network discovering, its tree resolves
   * it, a failure beyond its retries pauses it, removal and shutdown forget it, and nothing else speaks.
   */
  lemma StatusFollows(c: Config, s: State, e: Event)
    requires c.discoveryEnabled && Enabled(s, e)
    ensures Step(c, s, e).statuses ==
            if Asks(c, e).Some? then s.statuses[Asks(c, e).value := Discovering]
            else if Brings(s, e).Some? then s.statuses[Brings(s, e).value := Resolved]
            else if Fails(s, e).Some? && AttemptsOf(s, Fails(s, e).value) >= c.maxRetries then
              s.statuses[Fails(s, e).value := Paused]
            else if e.NetworkRemoved? then s.statuses - {e.network}
            else if e.Stop? then map[]
            else s.statuses
  {
    if e.CommandError? || e.WatchdogFires? || e.StreamStalls? || e.TreeEnd? || e.ParseReturns? {
      FailureStep(c, s, e);
      hide Step;
    }
  }

  /** With discovery off nothing is published. */
  lemma NoStatusWhenOff(c: Config, s: State, e: Event)
    requires !c.discoveryEnabled && Enabled(s, e)
    ensures Step(c, s, e).statuses == if e.Stop? then map[] else s.statuses
  {
    if e.CommandError? || e.WatchdogFires? || e.StreamStalls? || e.TreeEnd? || e.ParseReturns? {
      FailureStep(c, s, e);
      hide Step;
    }
  }

  // A status is no lie.

  /** A network the protocol will still try by itself is published as discovering. */
  predicate StatusHolds(s: State, n: NetworkId) {
    Alive(s, n) ==> n in s.statuses && s.statuses[n] == Discovering
  }

  lemma MoveRevives(c: Config, n: NetworkId, v: View, move: Move)
    requires v.Inv(c, n) && CanMove(v, n, move) && n != Unknown
    requires !move.Asked? && !move.RetryFired? && !move.ResyncFired?
    ensures var v' := Apply(c, n, v, move);
            v'.InFlight() || v'.retry ==>
              && (v.InFlight() || v.retry) && !move.TreeAccepted?
              && !(move in {Rejected, StreamFailed, TreeRefused} && v.attempts.GetOr(0) >= c.maxRetries)
  {
  }

  lemma CauseIsMove(c: Config, s: State, e: Event, n: NetworkId)
    requires LocalInv(c, s, n) && Enabled(s, e) && Spares(e, n)
    ensures Asks(c, e) != Some(n) ==>
              !MoveOf(c, s, e, n).Asked? && !MoveOf(c, s, e, n).RetryFired? && !MoveOf(c, s, e, n).ResyncFired?
    ensures Brings(s, e) == Some(n) ==> MoveOf(c, s, e, n).TreeAccepted?
    ensures Fails(s, e) == Some(n) ==> MoveOf(c, s, e, n) in {Rejected, StreamFailed, TreeRefused}
  {
    if e.ParseReturns? {
      JobDropped(c, s, e.job, n);
    }
  }

  /** A network alive after a step that does not ask for it was alive before, and did not settle. */
  lemma AliveStays(c: Config, s: State, e: Event, n: NetworkId)
    requires n != Unknown && LocalInv(c, s, n) && Enabled(s, e) && Spares(e, n)
    requires Asks(c, e) != Some(n) && Alive(Step(c, s, e), n)
    ensures Alive(s, n) && Brings(s, e) != Some(n)
    ensures Fails(s, e) == Some(n) ==> AttemptsOf(s, n) < c.maxRetries
  {
    SparingStepProjects(c, s, e, n);
    CauseIsMove(c, s, e, n);
    AliveIsView(s, n);
    AliveIsView(Step(c, s, e), n);
    hide Step, MoveOf, Asks, Fails, Brings, Enabled, CanMove, Apply, Alive;
    assert ViewOf(s, n).attempts.GetOr(0) == AttemptsOf(s, n);
    MoveRevives(c, n, ViewOf(s, n), MoveOf(c, s, e, n));
  }

  lemma StepKeepsStatus(c: Config, s: State, e: Event, n: NetworkId)
    requires c.discoveryEnabled && n != Unknown
    requires LocalInv(c, s, n) && StatusHolds(s, n) && Enabled(s, e) && Spares(e, n)
    ensures StatusHolds(Step(c, s, e), n)
  {
    hide Step, Asks, Fails, Brings, Enabled, Alive, LocalInv, AttemptsOf;
    StatusFollows(c, s, e);
    if Asks(c, e) != Some(n) && Alive(Step(c, s, e), n) {
      AliveStays(c, s, e, n);
    }
  }

  lemma AliveIsView(s: State, n: NetworkId)
    ensures Alive(s, n) <==> ViewOf(s, n).InFlight() || ViewOf(s, n).retry
  {
  }

  /**
   * Over every run that does not remove it: as long as a network is outstanding or waits for a retry it
   * is published as discovering, so one shown as resolved or paused is left in peace by the protocol.
   */
  lemma {:induction false} LiveIsDiscovering(c: Config, s: State, es: seq<Event>, n: NetworkId)
    requires c.discoveryEnabled && n != Unknown
    requires LocalInv(c, s, n) && StatusHolds(s, n) && CanRun(c, s, es) && Sparing(es, n)
    ensures StatusHolds(Run(c, s, es), n)
    decreases |es|
  {
    hide Step, LocalInv, StatusHolds;
    if es != [] {
      StepKeepsStatus(c, s, es[0], n);
      SparingStepKeeps(c, s, es[0], n);
      LiveIsDiscovering(c, Step(c, s, es[0]), es[1..], n);
    }
  }
}
