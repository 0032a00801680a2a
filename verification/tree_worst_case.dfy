/**
 * The bound of TreeBound is exact: a schedule of timeouts, retries and re-fetches that reaches it.
 */
module TreeWorstCase {
  import opened Options
  import opened TreeProtocol
  import opened TreeInvariant
  import opened TreeGuarantees
  import opened TreeBound

  /** Successive trees differ, so no re-fetch is cut short as unchanged. */
  function Signature(r: nat): string {
    if r % 2 == 0 then "12:1" else "12:2"
  }

  /** Only network n is tracked, its request is queued, and it has used a retries and r re-fetches. */
  predicate Waiting(s: State, n: NetworkId, a: nat, r: nat) {
    && s.pending == [n] && s.active == None && s.watchdogs == {n} && s.retries == {} && s.resyncTimers == {}
    && s.attempts == map[n := a]
    && s.resyncs == (if r == 0 then map[] else map[n := Resync(r, Some(Signature(r)))])
    && s.parsing == {} && s.jobs == []
  }

  function TimeOut(n: NetworkId): seq<Event> {
    [WatchdogFires(n), RetryFires(n)]
  }

  /** A tree that is usable but still has units without groups, and the re-fetch it schedules. */
  function PartialTree(n: NetworkId, r: nat): seq<Event> {
    [TreeStart, TreeData("<Network/>"), TreeEnd(false)] +
    [ParseReturns(0, DeviceData(true, Signature(r + 1))), ResyncFires(n)]
  }

  lemma TimeOutRuns(c: Config, s: State, n: NetworkId, a: nat, r: nat)
    requires Waiting(s, n, a, r) && a < c.maxRetries
    ensures CanRun(c, s, TimeOut(n))
    ensures var s' := Run(c, s, TimeOut(n)); Waiting(s', n, a + 1, r) && s'.sent == s.sent + [n]
  {
    var s1 := Step(c, s, WatchdogFires(n));
    assert s1.pending == [] && s1.retries == {n} && s1.attempts == map[n := a + 1];
    assert Enabled(s1, RetryFires(n));
    assert Waiting(Step(c, s1, RetryFires(n)), n, a + 1, r) && Step(c, s1, RetryFires(n)).sent == s.sent + [n];
    hide Step, Waiting, Enabled;
    Then(c, s1, RetryFires(n), []);
    Then(c, s, WatchdogFires(n), [RetryFires(n)]);
    assert TimeOut(n) == [WatchdogFires(n)] + [RetryFires(n)];
  }

  /** Only network n is tracked and its tree is with the parser. */
  predicate BeingParsed(s: State, n: NetworkId, a: nat, r: nat) {
    && s.pending == [] && s.active == None && s.watchdogs == {} && s.retries == {} && s.resyncTimers == {}
    && s.attempts == map[n := a]
    && s.resyncs == (if r == 0 then map[] else map[n := Resync(r, Some(Signature(r)))])
    && s.parsing == {n} && |s.jobs| == 1 && s.jobs[0].network == n && s.jobs[0].epoch == EpochOf(s, n)
  }

  lemma StreamRuns(c: Config, s: State, n: NetworkId, a: nat, r: nat)
    requires Waiting(s, n, a, r) && n != Unknown
    ensures var es := [TreeStart, TreeData("<Network/>"), TreeEnd(false)];
            CanRun(c, s, es) && BeingParsed(Run(c, s, es), n, a, r) && Run(c, s, es).sent == s.sent
  {
    var s1 := Step(c, s, TreeStart);
    var s2 := Step(c, s1, TreeData("<Network/>"));
    var s3 := Step(c, s2, TreeEnd(false));
    assert s1.active == Some(Session(n, []));
    assert [] + ["<Network/>"] == ["<Network/>"];
    assert s2.active == Some(Session(n, ["<Network/>"]));
    Then(c, s2, TreeEnd(false), []);
    Then(c, s1, TreeData("<Network/>"), [TreeEnd(false)]);
    Then(c, s, TreeStart, [TreeData("<Network/>")] + [TreeEnd(false)]);
    assert [TreeStart, TreeData("<Network/>"), TreeEnd(false)]
        == [TreeStart] + ([TreeData("<Network/>")] + [TreeEnd(false)]);
  }

  /** The partial tree has been accepted and its re-fetch timer is the only thing left. */
  predicate Refetching(s: State, n: NetworkId, r: nat) {
    && s.pending == [] && s.active == None && s.watchdogs == {} && s.retries == {} && s.resyncTimers == {n}
    && s.attempts == map[] && s.resyncs == map[n := Resync(r, Some(Signature(r)))]
    && s.parsing == {} && s.jobs == []
  }

  lemma ParseStep(c: Config, s: State, n: NetworkId, a: nat, r: nat)
    requires BeingParsed(s, n, a, r) && r < c.maxResyncs
    ensures var s' := Step(c, s, ParseReturns(0, DeviceData(true, Signature(r + 1))));
            Refetching(s', n, r + 1) && s'.sent == s.sent
  {
    var s' := Step(c, s, ParseReturns(0, DeviceData(true, Signature(r + 1))));
    assert s'.jobs == [] && s'.parsing == {};
    assert s'.resyncs == map[n := Resync(r + 1, Some(Signature(r + 1)))];
  }

  lemma RefetchStep(c: Config, s: State, n: NetworkId, r: nat)
    requires Refetching(s, n, r) && r > 0
    ensures var s' := Step(c, s, ResyncFires(n)); Waiting(s', n, 0, r) && s'.sent == s.sent + [n]
  {
  }

  lemma ParseRuns(c: Config, s: State, n: NetworkId, a: nat, r: nat)
    requires BeingParsed(s, n, a, r) && r < c.maxResyncs
    ensures var es := [ParseReturns(0, DeviceData(true, Signature(r + 1))), ResyncFires(n)];
            CanRun(c, s, es) && Waiting(Run(c, s, es), n, 0, r + 1) && Run(c, s, es).sent == s.sent + [n]
  {
    var e := ParseReturns(0, DeviceData(true, Signature(r + 1)));
    ParseStep(c, s, n, a, r);
    RefetchStep(c, Step(c, s, e), n, r + 1);
    Then(c, Step(c, s, e), ResyncFires(n), []);
    Then(c, s, e, [ResyncFires(n)]);
    assert [e, ResyncFires(n)] == [e] + [ResyncFires(n)];
  }

  lemma PartialTreeRuns(c: Config, s: State, n: NetworkId, a: nat, r: nat)
    requires Waiting(s, n, a, r) && n != Unknown && r < c.maxResyncs
    ensures CanRun(c, s, PartialTree(n, r))
    ensures var s' := Run(c, s, PartialTree(n, r)); Waiting(s', n, 0, r + 1) && s'.sent == s.sent + [n]
  {
    StreamRuns(c, s, n, a, r);
    var es := [TreeStart, TreeData("<Network/>"), TreeEnd(false)];
    ParseRuns(c, Run(c, s, es), n, a, r);
    RunAppend(c, s, es, [ParseReturns(0, DeviceData(true, Signature(r + 1))), ResyncFires(n)]);
  }

  function WorstSends(c: Config, a: nat, r: nat): nat
    requires a <= c.maxRetries && r <= c.maxResyncs
    decreases c.maxResyncs - r, c.maxRetries - a
  {
    if a < c.maxRetries then 1 + WorstSends(c, a + 1, r)
    else if r < c.maxResyncs then 1 + WorstSends(c, 0, r + 1)
    else 0
  }

  lemma {:induction false} WorstSendsTotal(c: Config, a: nat, r: nat)
    requires a <= c.maxRetries && r <= c.maxResyncs
    ensures WorstSends(c, a, r) == (c.maxRetries - a) + (c.maxResyncs - r) * (c.maxRetries + 1)
    decreases c.maxResyncs - r, c.maxRetries - a
  {
    if a < c.maxRetries {
      WorstSendsTotal(c, a + 1, r);
    } else if r < c.maxResyncs {
      WorstSendsTotal(c, 0, r + 1);
      ProductStep(c.maxResyncs - r, c.maxRetries + 1);
    }
  }

  /** A stretch of events that nobody asked for and that only adds `sends` commands for n. */
  ghost predicate Prefix(c: Config, s: State, es: seq<Event>, s': State, n: NetworkId) {
    && CanRun(c, s, es) && Run(c, s, es) == s'
    && Unasked(es, n) && Undisturbed(es)
    && s'.sent == s.sent + [n]
  }

  lemma NextSend(c: Config, s: State, n: NetworkId, a: nat, r: nat)
    returns (es: seq<Event>, s': State, a': nat, r': nat)
    requires Waiting(s, n, a, r) && n != Unknown && a <= c.maxRetries && r <= c.maxResyncs
    requires a < c.maxRetries || r < c.maxResyncs
    ensures Prefix(c, s, es, s', n) && Waiting(s', n, a', r')
    ensures if a < c.maxRetries then a' == a + 1 && r' == r else a' == 0 && r' == r + 1
  {
    hide Step;
    if a < c.maxRetries {
      TimeOutRuns(c, s, n, a, r);
      es, a', r' := TimeOut(n), a + 1, r;
    } else {
      PartialTreeRuns(c, s, n, a, r);
      es, a', r' := PartialTree(n, r), 0, r + 1;
    }
    s' := Run(c, s, es);
  }

  lemma Extend(c: Config, s: State, es: seq<Event>, s': State, rest: seq<Event>, n: NetworkId)
    requires Prefix(c, s, es, s', n)
    requires CanRun(c, s', rest) && Unasked(rest, n) && Undisturbed(rest)
    ensures CanRun(c, s, es + rest) && Unasked(es + rest, n) && Undisturbed(es + rest)
    ensures Run(c, s, es + rest) == Run(c, s', rest)
  {
    RunAppend(c, s, es, rest);
  }

  /** Every fetch times out until its retries are spent, then returns a changed but incomplete tree. */
  lemma {:induction false} WorstRun(c: Config, s: State, n: NetworkId, a: nat, r: nat) returns (es: seq<Event>)
    requires Waiting(s, n, a, r) && n != Unknown && a <= c.maxRetries && r <= c.maxResyncs
    ensures CanRun(c, s, es) && Unasked(es, n) && Undisturbed(es)
    ensures SendsOf(Run(c, s, es), n) == SendsOf(s, n) + WorstSends(c, a, r)
    decreases c.maxResyncs - r, c.maxRetries - a
  {
    hide Step;
    if a < c.maxRetries || r < c.maxResyncs {
      var prefix, s', a', r' := NextSend(c, s, n, a, r);
      var rest := WorstRun(c, s', n, a', r');
      Extend(c, s, prefix, s', rest, n);
      es := prefix + rest;
    } else {
      es := [];
    }
  }

  lemma FirstRequest(c: Config, n: NetworkId)
    ensures var s := Step(c, INITIAL, Request(n)); Waiting(s, n, 0, 0) && s.sent == [n]
  {
  }

  /** No stream starts among timer events, so none strays in. */
  predicate NoStarts(es: seq<Event>) {
    forall i :: 0 <= i < |es| ==> !es[i].TreeStart? && !es[i].TreeData?
  }

  lemma {:induction false} NoneStrayed(c: Config, s: State, es: seq<Event>)
    requires CanRun(c, s, es) && NoStarts(es)
    ensures StrayStarts(c, s, es) == 0
    decreases |es|
  {
    hide Step;
    if es != [] {
      NoneStrayed(c, Step(c, s, es[0]), es[1..]);
    }
  }

  /** Every retry times out until none is left. */
  lemma {:induction false} RetriesRun(c: Config, s: State, n: NetworkId, a: nat, r: nat) returns (es: seq<Event>)
    requires Waiting(s, n, a, r) && a <= c.maxRetries
    ensures CanRun(c, s, es) && NoStarts(es) && Unasked(es, n) && Undisturbed(es)
    ensures SendsOf(Run(c, s, es), n) == SendsOf(s, n) + c.maxRetries - a
    decreases c.maxRetries - a
  {
    hide Step, Waiting;
    if a < c.maxRetries {
      TimeOutRuns(c, s, n, a, r);
      var s' := Run(c, s, TimeOut(n));
      var rest := RetriesRun(c, s', n, a + 1, r);
      Extend(c, s, TimeOut(n), s', rest, n);
      es := TimeOut(n) + rest;
    } else {
      es := [];
    }
  }

  /** From a fresh start, one request can cost exactly the budget: the bound cannot be lowered. */
  lemma BudgetIsReached(c: Config, n: NetworkId) returns (es: seq<Event>)
    ensures CanRun(c, INITIAL, [Request(n)] + es) && Undisturbed(es) && Unasked(es, n)
    ensures StrayCost(c, INITIAL, [Request(n)] + es, n) == 0
    ensures SendsOf(Run(c, INITIAL, [Request(n)] + es), n) == RequestBudget(c, n)
  {
    hide Step, Waiting, INITIAL, NoStarts;
    FirstRequest(c, n);
    var s := Step(c, INITIAL, Request(n));
    if n == Unknown {
      es := RetriesRun(c, s, n, 0, 0);
      NoneStrayed(c, s, es);
    } else {
      es := WorstRun(c, s, n, 0, 0);
      WorstSendsTotal(c, 0, 0);
      ProductStep(c.maxResyncs + 1, c.maxRetries + 1);
    }
    Then(c, INITIAL, Request(n), es);
    assert ([Request(n)] + es)[1..] == es;
  }

  /** A stray stream stalls and its network is asked for. */
  lemma StrayStalls(c: Config)
    requires c.maxRetries > 0
    ensures var s1, es := Step(c, INITIAL, TreeStart), [StreamStalls, RetryFires(Unknown)];
            CanRun(c, s1, es) && Waiting(Run(c, s1, es), Unknown, 1, 0) && Run(c, s1, es).sent == s1.sent + [Unknown]
  {
    var s1 := Step(c, INITIAL, TreeStart);
    var s2 := Step(c, s1, StreamStalls);
    assert s2.retries == {Unknown} && s2.active == None && s2.pending == [];
    assert s2.attempts == map[Unknown := 1];
    Then(c, s2, RetryFires(Unknown), []);
    Then(c, s1, StreamStalls, [RetryFires(Unknown)]);
    assert [StreamStalls, RetryFires(Unknown)] == [StreamStalls] + [RetryFires(Unknown)];
  }

  lemma StartSendsNothing(c: Config)
    ensures Step(c, INITIAL, TreeStart).sent == []
  {
  }

  lemma AfterStray(c: Config) returns (es: seq<Event>)
    ensures var s1 := Step(c, INITIAL, TreeStart);
            && CanRun(c, s1, es) && NoStarts(es) && Undisturbed(es) && Unasked(es, Unknown)
            && SendsOf(Run(c, s1, es), Unknown) == c.maxRetries
  {
    hide Step, Waiting, INITIAL;
    var s1 := Step(c, INITIAL, TreeStart);
    StartSendsNothing(c);
    if c.maxRetries == 0 {
      es := [];
    } else {
      var stall := [StreamStalls, RetryFires(Unknown)];
      StrayStalls(c);
      var s' := Run(c, s1, stall);
      hide CanRun, Run;
      var rest := RetriesRun(c, s', Unknown, 1, 0);
      Extend(c, s1, stall, s', rest, Unknown);
      es := stall + rest;
    }
  }

  /** One response nobody asked for can cost a whole budget of commands for `unknown`, for every setting. */
  lemma StrayCostIsReached(c: Config) returns (es: seq<Event>)
    ensures CanRun(c, INITIAL, es) && Undisturbed(es) && Unasked(es, Unknown)
    ensures StrayStarts(c, INITIAL, es) == 1
    ensures SendsOf(Run(c, INITIAL, es), Unknown) == c.maxRetries
  {
    hide Step, SendsOf, Run, NoStarts;
    var rest := AfterStray(c);
    Then(c, INITIAL, TreeStart, rest);
    NoneStrayed(c, Step(c, INITIAL, TreeStart), rest);
    es := [TreeStart] + rest;
    assert es[1..] == rest;
  }
}
