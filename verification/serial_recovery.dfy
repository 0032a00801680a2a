/**
 * The restart budget of src/serialDeviceRecovery.js: which polls of a network's interface run the
 * recovery script, and how often it can run however the interface flaps.
 */
module SerialRecovery {
  import opened Options
  import opened Backoff

  type Millis = int

  /** The settings as configured; the code clamps the numeric ones to a floor before use. */
  datatype Settings = Settings(
    hasSerialDevice: bool,
    managedMode: bool,
    recoveryEnabled: bool,
    maxAttemptsSetting: int,
    initialDelaySetting: int,
    maxDelaySetting: int,
    stableWindowSetting: int)

  function AtLeast(floor: nat, value: int): (r: nat)
    ensures r >= floor
  {
    if value < floor then floor else value
  }

  function MaxAttempts(c: Settings): nat { AtLeast(1, c.maxAttemptsSetting) }

  function StableWindow(c: Settings): nat { AtLeast(1000, c.stableWindowSetting) }

  function WaitBefore(c: Settings, attempts: nat): nat
    requires attempts > 0
  {
    BackoffDelay(attempts - 1, AtLeast(1000, c.initialDelaySetting), AtLeast(1000, c.maxDelaySetting))
  }

  predicate AppliesHere(c: Settings) {
    c.hasSerialDevice && c.managedMode
  }

  /** What the device path resolves to: a port, nothing at all, or an error that is no evidence. */
  datatype Reading = Port(path: string) | Absent | Unreadable(reason: string)

  function PortOf(reading: Reading): Option<string> {
    if reading.Port? then Some(reading.path) else None
  }

  /** How the recovery script ended, whether it failed to run at all, and what it says of a failure or a new path. */
  datatype ScriptResult = ScriptResult(status: int, spawnError: bool, failure: string, newPath: string)

  /** Exit 1 from a script that did run: the device was absent, so nothing was restarted. */
  predicate DeviceWasAbsent(r: ScriptResult) {
    r.status == 1 && !r.spawnError
  }

  datatype NetworkState = NetworkState(
    attempts: nat,
    lastAttemptAt: Millis,
    lastUpAt: Option<Millis>,
    portInUse: Option<string>)

  const FRESH := NetworkState(0, 0, None, None)

  datatype Action = Ignored | Reported | Recovered | Failed

  /** The device path in effect at a down poll, and what the poll finds there and, if it runs it, from the script. */
  datatype Probe = Probe(device: string, before: Reading, result: ScriptResult, after: Reading)

  /** One run of the script: when, how much of the budget was spent before it, and whether it counts. */
  datatype Attempt = Attempt(at: Millis, spent: nat, charged: bool)

  predicate Renumbered(s: NetworkState, reading: Reading) {
    reading.Absent? || (reading.Port? && s.portInUse.Some? && reading.path != s.portInUse.value)
  }

  /** The interface was seen up since the last attempt, and that attempt is a stable window ago. */
  predicate BudgetResets(c: Settings, s: NetworkState, now: Millis) {
    && s.attempts > 0
    && s.lastUpAt.Some? && s.lastUpAt.value >= s.lastAttemptAt
    && now - s.lastAttemptAt >= StableWindow(c)
  }

  function Spent(c: Settings, s: NetworkState, now: Millis): nat {
    if BudgetResets(c, s, now) then 0 else s.attempts
  }

  predicate Runs(c: Settings, s: NetworkState, now: Millis, reading: Reading) {
    var spent := Spent(c, s, now);
    && AppliesHere(c) && Renumbered(s, reading) && c.recoveryEnabled
    && spent < MaxAttempts(c)
    && (spent > 0 ==> now >= s.lastAttemptAt + WaitBefore(c, spent))
  }

  function Down(c: Settings, s: NetworkState, now: Millis, probe: Probe): NetworkState {
    if !(AppliesHere(c) && Renumbered(s, probe.before) && c.recoveryEnabled) then s
    else
      var s1 := s.(attempts := Spent(c, s, now));
      if !Runs(c, s, now, probe.before) then s1
      else
        var charge := if DeviceWasAbsent(probe.result) then 0 else 1;
        s1.(lastAttemptAt := now, attempts := s1.attempts + charge,
            portInUse := if probe.result.status == 0 then PortOf(probe.after) else s1.portInUse)
  }

  function Up(c: Settings, s: NetworkState, now: Millis, reading: Reading): NetworkState {
    if !AppliesHere(c) then s else s.(lastUpAt := Some(now), portInUse := PortOf(reading))
  }

  datatype Poll =
    | IsDown(now: Millis, probe: Probe)
    | IsUp(now: Millis, reading: Reading)

  /** One network's record, the script runs made for it so far, and the time of the latest poll. */
  datatype Track = Track(state: NetworkState, log: seq<Attempt>, clock: Millis)

  const START := Track(FRESH, [], 0)

  /** The runs made so far, with the one a down poll may add. */
  function RunsAfter(c: Settings, s: NetworkState, log: seq<Attempt>, now: Millis, probe: Probe): seq<Attempt> {
    if Runs(c, s, now, probe.before) then log + [Attempt(now, Spent(c, s, now), !DeviceWasAbsent(probe.result))]
    else log
  }

  function Step(c: Settings, t: Track, p: Poll): Track {
    match p
    case IsUp(now, reading) => Track(Up(c, t.state, now, reading), t.log, now)
    case IsDown(now, probe) => Track(Down(c, t.state, now, probe), RunsAfter(c, t.state, t.log, now, probe), now)
  }

  function Run(c: Settings, t: Track, ps: seq<Poll>): Track
    decreases |ps|
  {
    if ps == [] then t else Run(c, Step(c, t, ps[0]), ps[1..])
  }

  /** The clock does not run backwards. */
  predicate Clocked(t: Track, ps: seq<Poll>)
    decreases |ps|
  {
    ps == [] || (t.clock <= ps[0].now && Clocked(Track(t.state, t.log, ps[0].now), ps[1..]))
  }

  /** The times of the runs that spent budget. */
  function Charges(log: seq<Attempt>): seq<Millis> {
    if log == [] then []
    else Charges(log[..|log| - 1]) + (if log[|log| - 1].charged then [log[|log| - 1].at] else [])
  }

  // The rate bound.

  /** Any MaxAttempts + 1 consecutive charged runs span at least the stable window. */
  ghost predicate RateBounded(c: Settings, charges: seq<Millis>) {
    forall i, j :: 0 <= i && i + MaxAttempts(c) <= j < |charges| ==> charges[i] + StableWindow(c) <= charges[j]
  }

  /**
   * The last `attempts` charges are the current budget; every earlier one is at least a stable
   * window before the last attempt.
   */
  ghost predicate Budget(c: Settings, attempts: nat, lastAttemptAt: Millis, charges: seq<Millis>) {
    && attempts <= MaxAttempts(c) && attempts <= |charges|
    && (forall i :: 0 <= i < |charges| ==> charges[i] <= lastAttemptAt)
    && (forall i :: 0 <= i < |charges| - attempts ==> charges[i] + StableWindow(c) <= lastAttemptAt)
    && (forall i, j :: 0 <= i <= j < |charges| ==> charges[i] <= charges[j])
    && RateBounded(c, charges)
  }

  ghost predicate Inv(c: Settings, t: Track) {
    && 0 <= t.state.lastAttemptAt <= t.clock && (t.state.lastUpAt.Some? ==> t.state.lastUpAt.value <= t.clock)
    && Budget(c, t.state.attempts, t.state.lastAttemptAt, Charges(t.log))
  }

  lemma ChargesAppend(log: seq<Attempt>, a: Attempt)
    ensures Charges(log + [a]) == if a.charged then Charges(log) + [a.at] else Charges(log)
  {
    assert (log + [a])[..|log|] == log;
  }

  /** A run at `now` on a budget carried on, or reset a stable window after the last attempt. */
  lemma RunKeepsBudget(c: Settings, attempts: nat, last: Millis, charges: seq<Millis>, spent: nat, now: Millis)
    requires Budget(c, attempts, last, charges) && last <= now && spent < MaxAttempts(c)
    requires spent == attempts || (spent == 0 && last + StableWindow(c) <= now)
    ensures Budget(c, spent, now, charges)
    ensures Budget(c, spent + 1, now, charges + [now])
  {
  }

  lemma RunStepKeeps(c: Settings, t: Track, now: Millis, probe: Probe)
    requires Inv(c, t) && t.clock <= now && Runs(c, t.state, now, probe.before)
    ensures Inv(c, Step(c, t, IsDown(now, probe)))
  {
    hide Budget, BackoffDelay;
    var a := Attempt(now, Spent(c, t.state, now), !DeviceWasAbsent(probe.result));
    ChargesAppend(t.log, a);
    RunKeepsBudget(c, t.state.attempts, t.state.lastAttemptAt, Charges(t.log), a.spent, now);
  }

  lemma StepKeeps(c: Settings, t: Track, p: Poll)
    requires Inv(c, t) && t.clock <= p.now
    ensures Inv(c, Step(c, t, p))
  {
    if p.IsDown? && Runs(c, t.state, p.now, p.probe.before) {
      RunStepKeeps(c, t, p.now, p.probe);
    }
  }

  /** However the interface flaps, the bound holds over every run of polls. */
  lemma {:induction false} RunsStayBounded(c: Settings, t: Track, ps: seq<Poll>)
    requires Inv(c, t) && Clocked(t, ps)
    ensures Inv(c, Run(c, t, ps))
    decreases |ps|
  {
    if ps != [] {
      StepKeeps(c, t, ps[0]);
      ClockedFrom(t, Step(c, t, ps[0]), ps[1..], ps[0].now);
      RunsStayBounded(c, Step(c, t, ps[0]), ps[1..]);
    }
  }

  lemma {:induction false} ClockedFrom(t: Track, t': Track, ps: seq<Poll>, now: Millis)
    requires t'.clock == now && Clocked(Track(t.state, t.log, now), ps)
    ensures Clocked(t', ps)
    decreases |ps|
  {
    if ps != [] {
      ClockedFrom(t, Track(t'.state, t'.log, ps[0].now), ps[1..], ps[0].now);
    }
  }

  /** The charged runs whose time lies in a window of the given width. */
  ghost function InWindow(charges: seq<Millis>, start: Millis, width: nat): set<int> {
    set i | 0 <= i < |charges| && start <= charges[i] < start + width
  }

  function Range(lo: int, hi: int): (r: set<int>)
    requires lo <= hi
    ensures |r| == hi - lo
    ensures forall i :: i in r <==> lo <= i < hi
    decreases hi - lo
  {
    if lo == hi then {} else Range(lo, hi - 1) + {hi - 1}
  }

  lemma SubsetSize(a: set<int>, b: set<int>)
    requires a <= b
    ensures |a| <= |b|
  {
    assert b == a + (b - a);
  }

  /** No window as wide as the stable window ever holds more than MaxAttempts charged runs. */
  lemma WindowHoldsAtMost(c: Settings, ps: seq<Poll>, start: Millis)
    requires Clocked(START, ps)
    ensures |InWindow(Charges(Run(c, START, ps).log), start, StableWindow(c))| <= MaxAttempts(c)
  {
    RunsStayBounded(c, START, ps);
    var charges := Charges(Run(c, START, ps).log);
    var window := InWindow(charges, start, StableWindow(c));
    if window != {} {
      var first := FirstIn(charges, start, StableWindow(c));
      SubsetSize(window, Range(first, first + MaxAttempts(c)));
    }
  }

  lemma FirstIn(charges: seq<Millis>, start: Millis, width: nat) returns (first: nat)
    requires InWindow(charges, start, width) != {}
    ensures first in InWindow(charges, start, width)
    ensures forall i :: i in InWindow(charges, start, width) ==> first <= i
  {
    first := 0;
    while first !in InWindow(charges, start, width)
      invariant forall i :: i in InWindow(charges, start, width) ==> first <= i
      decreases |charges| - first
    {
      var i :| i in InWindow(charges, start, width);
      first := first + 1;
    }
  }

  // The spacing of runs.

  /**
   * Successive runs of the script. The budget count either carries on from the previous run, and
   * then at least the backoff for that count has passed, or it was reset, and then at least the
   * stable window has.
   */
  predicate Spaced(c: Settings, a: Attempt, b: Attempt) {
    && a.at <= b.at
    && var carried := a.spent + (if a.charged then 1 else 0);
       if b.spent == carried then b.spent > 0 ==> a.at + WaitBefore(c, b.spent) <= b.at
       else b.spent == 0 && a.at + StableWindow(c) <= b.at
  }

  ghost predicate LogInv(c: Settings, t: Track) {
    && t.state.lastAttemptAt <= t.clock
    && (forall i :: 0 <= i < |t.log| - 1 ==> Spaced(c, t.log[i], t.log[i + 1]))
    && (t.log == [] ==> t.state.attempts == 0)
    && (t.log != [] ==>
          var last := t.log[|t.log| - 1];
          t.state.lastAttemptAt == last.at && t.state.attempts == last.spent + (if last.charged then 1 else 0))
  }

  lemma StepKeepsLog(c: Settings, t: Track, p: Poll)
    requires LogInv(c, t) && t.clock <= p.now
    ensures LogInv(c, Step(c, t, p))
  {
    hide BackoffDelay;
  }

  lemma {:induction false} RunsAreSpaced(c: Settings, t: Track, ps: seq<Poll>)
    requires LogInv(c, t) && Clocked(t, ps)
    ensures LogInv(c, Run(c, t, ps))
    decreases |ps|
  {
    if ps != [] {
      StepKeepsLog(c, t, ps[0]);
      ClockedFrom(t, Step(c, t, ps[0]), ps[1..], ps[0].now);
      RunsAreSpaced(c, Step(c, t, ps[0]), ps[1..]);
    }
  }

  // One outage.

  predicate AllDown(ps: seq<Poll>) {
    forall i :: 0 <= i < |ps| ==> ps[i].IsDown?
  }

  /** The interface has not been seen up since the last attempt, not even in the same millisecond. */
  predicate DownSinceAttempt(s: NetworkState) {
    s.lastUpAt.None? || s.lastUpAt.value < s.lastAttemptAt
  }

  lemma BudgetInCap(c: Settings, t: Track)
    requires Inv(c, t)
    ensures t.state.attempts <= MaxAttempts(c) && t.state.lastAttemptAt <= t.clock
    ensures t.state.lastUpAt.Some? ==> t.state.lastUpAt.value <= t.clock
  {
  }

  /** A poll's own charge, and that it does not touch the up stamp. */
  lemma DownCharges(c: Settings, t: Track, now: Millis, probe: Probe)
    requires Inv(c, t) && t.clock <= now
    ensures var t1 := Step(c, t, IsDown(now, probe));
            && Inv(c, t1) && t1.clock == now && t1.state.lastUpAt == t.state.lastUpAt
            && (if Runs(c, t.state, now, probe.before) then
                  && t1.state.lastAttemptAt == now
                  && |Charges(t1.log)| - |Charges(t.log)| == (if DeviceWasAbsent(probe.result) then 0 else 1)
                  && t1.state.attempts == Spent(c, t.state, now) + |Charges(t1.log)| - |Charges(t.log)|
                else
                  && t1.log == t.log && t1.state.lastAttemptAt == t.state.lastAttemptAt
                  && t1.state.attempts in {t.state.attempts, Spent(c, t.state, now)})
  {
    StepKeeps(c, t, IsDown(now, probe));
    if Runs(c, t.state, now, probe.before) {
      ChargesAppend(t.log, Attempt(now, Spent(c, t.state, now), !DeviceWasAbsent(probe.result)));
    }
    hide Inv, WaitBefore, Charges;
  }

  /** While the interface stays down, the budget is never refilled: the cap really is a cap. */
  lemma {:induction false} OutageIsCapped(c: Settings, t: Track, ps: seq<Poll>)
    requires Inv(c, t) && Clocked(t, ps) && AllDown(ps) && DownSinceAttempt(t.state)
    ensures |Charges(Run(c, t, ps).log)| <= |Charges(t.log)| + MaxAttempts(c) - t.state.attempts
    decreases |ps|
  {
    hide Inv, Charges;
    BudgetInCap(c, t);
    if ps != [] {
      var t1 := Step(c, t, ps[0]);
      assert Spent(c, t.state, ps[0].now) == t.state.attempts;
      DownCharges(c, t, ps[0].now, ps[0].probe);
      ClockedFrom(t, t1, ps[1..], ps[0].now);
      hide Runs, Spent, Step;
      OutageIsCapped(c, t1, ps[1..]);
    }
  }

  /**
   * An exhausted budget lets a down poll run the script again exactly when the interface was seen
   * up no earlier than the last attempt and that attempt is a stable window ago. The comparison
   * counts an up poll in the very millisecond of the attempt, although the outage began after it.
   */
  lemma ExhaustedRunsAgainIff(c: Settings, s: NetworkState, now: Millis, probe: Probe)
    requires AppliesHere(c) && c.recoveryEnabled && Renumbered(s, probe.before) && s.attempts >= MaxAttempts(c)
    ensures Runs(c, s, now, probe.before) <==>
            s.lastUpAt.Some? && s.lastUpAt.value >= s.lastAttemptAt && now >= s.lastAttemptAt + StableWindow(c)
  {
  }

  lemma {:induction false} ClockedFollows(t: Track, ps: seq<Poll>)
    requires Clocked(t, ps)
    ensures forall i :: 0 <= i < |ps| ==> t.clock <= ps[i].now
    decreases |ps|
  {
    if ps != [] {
      ClockedFollows(Track(t.state, t.log, ps[0].now), ps[1..]);
    }
  }

  /** The interface was last seen up before this time. */
  predicate UpBefore(s: NetworkState, now: Millis) {
    s.lastUpAt.Some? ==> s.lastUpAt.value < now
  }

  /**
   * An outage from its first down poll on, however long the interface had been up before: if no poll
   * falls into the millisecond of the last up poll, at most MaxAttempts runs are charged.
   */
  lemma {:induction false} OutageFromUpIsCapped(c: Settings, t: Track, ps: seq<Poll>)
    requires Inv(c, t) && Clocked(t, ps) && AllDown(ps)
    requires forall i :: 0 <= i < |ps| ==> UpBefore(t.state, ps[i].now)
    ensures |Charges(Run(c, t, ps).log)| <= |Charges(t.log)| + MaxAttempts(c)
    decreases |ps|
  {
    hide Inv, Charges, Down, Runs, Spent;
    if ps != [] {
      var t1 := Step(c, t, ps[0]);
      assert ps[0].IsDown? && UpBefore(t.state, ps[0].now);
      DownCharges(c, t, ps[0].now, ps[0].probe);
      ClockedFrom(t, t1, ps[1..], ps[0].now);
      if Runs(c, t.state, ps[0].now, ps[0].probe.before) {
        OutageIsCapped(c, t1, ps[1..]);
      } else {
        OutageFromUpIsCapped(c, t1, ps[1..]);
      }
    }
  }

  lemma WaitIsPositive(c: Settings, attempts: nat)
    requires attempts > 0
    ensures WaitBefore(c, attempts) > 0
  {
  }

  /** Budget for a run in this very millisecond, whatever the device shows. */
  predicate HasBudget(c: Settings, s: NetworkState, now: Millis) {
    var spent := Spent(c, s, now);
    spent < MaxAttempts(c) && (spent > 0 ==> now >= s.lastAttemptAt + WaitBefore(c, spent))
  }

  /** Without budget in the up poll's own millisecond nothing happens in it, and the outage is capped. */
  lemma {:induction false} WithoutBudgetCapped(c: Settings, t: Track, ps: seq<Poll>)
    requires Inv(c, t) && Clocked(t, ps) && AllDown(ps)
    requires t.state.lastUpAt == Some(t.clock) && !HasBudget(c, t.state, t.clock)
    ensures |Charges(Run(c, t, ps).log)| <= |Charges(t.log)| + MaxAttempts(c)
    decreases |ps|
  {
    hide Inv, Charges;
    if ps != [] {
      if ps[0].now == t.clock {
        var t1 := Step(c, t, ps[0]);
        assert Spent(c, t.state, t.clock) == t.state.attempts;
        assert t1 == t;
        ClockedFrom(t, t1, ps[1..], ps[0].now);
        WithoutBudgetCapped(c, t1, ps[1..]);
      } else {
        ClockedFollows(Track(t.state, t.log, ps[0].now), ps[1..]);
        OutageFromUpIsCapped(c, t, ps);
      }
    }
  }

  /** In any outage at all the up poll's own millisecond buys at most one run beyond the cap. */
  lemma {:induction false} OutageOverrunsByOneAtMost(c: Settings, t: Track, ps: seq<Poll>)
    requires Inv(c, t) && Clocked(t, ps) && AllDown(ps)
    ensures |Charges(Run(c, t, ps).log)| <= |Charges(t.log)| + MaxAttempts(c) + 1
    decreases |ps|
  {
    hide Inv, Charges, WaitBefore;
    if ps != [] {
      var t1 := Step(c, t, ps[0]);
      BudgetInCap(c, t);
      DownCharges(c, t, ps[0].now, ps[0].probe);
      ClockedFrom(t, t1, ps[1..], ps[0].now);
      if UpBefore(t.state, ps[0].now) {
        ClockedFollows(Track(t.state, t.log, ps[0].now), ps[1..]);
        OutageFromUpIsCapped(c, t, ps);
      } else if |Charges(t1.log)| == |Charges(t.log)| {
        OutageOverrunsByOneAtMost(c, t1, ps[1..]);
      } else {
        WaitIsPositive(c, t1.state.attempts);
        WithoutBudgetCapped(c, t1, ps[1..]);
      }
    }
  }

  /** The device gone when the interface drops, and a script that finds and restarts nothing new. */
  const GONE := Probe("/dev/ttyUSB0", Absent, ScriptResult(0, false, "", ""), Absent)

  lemma RunThen(c: Settings, t: Track, p: Poll, ps: seq<Poll>)
    requires t.clock <= p.now && Clocked(Step(c, t, p), ps)
    ensures Clocked(t, [p] + ps) && Run(c, t, [p] + ps) == Run(c, Step(c, t, p), ps)
  {
    assert ([p] + ps)[1..] == ps;
    ClockedFrom(Step(c, t, p), Track(t.state, t.log, p.now), ps, p.now);
  }

  /** Left down long enough, a network spends all the budget it has left. */
  lemma {:induction false} SpendsTheRest(c: Settings, t: Track) returns (ps: seq<Poll>)
    requires Inv(c, t) && AppliesHere(c) && c.recoveryEnabled && DownSinceAttempt(t.state)
    ensures AllDown(ps) && Clocked(t, ps)
    ensures |Charges(Run(c, t, ps).log)| == |Charges(t.log)| + MaxAttempts(c) - t.state.attempts
    decreases MaxAttempts(c) - t.state.attempts
  {
    hide BackoffDelay, Charges, Budget;
    BudgetInCap(c, t);
    if t.state.attempts == MaxAttempts(c) {
      ps := [];
    } else {
      var wait := if t.state.attempts > 0 then WaitBefore(c, t.state.attempts) else 0;
      var p := IsDown(t.clock + wait + 1, GONE);
      DownCharges(c, t, p.now, GONE);
      var rest := SpendsTheRest(c, Step(c, t, p));
      RunThen(c, t, p, rest);
      ps := [p] + rest;
    }
  }

  /**
   * A run charged in the millisecond of the last up poll is one too many: the budget refills a stable
   * window later although the interface has been down all along, and the outage can charge the cap
   * once more.
   */
  lemma UpMillisecondBuysAnotherRun(c: Settings, t: Track, probe: Probe) returns (ps: seq<Poll>)
    requires Inv(c, t) && t.state.lastUpAt == Some(t.clock)
    requires Runs(c, t.state, t.clock, probe.before) && !DeviceWasAbsent(probe.result)
    ensures AllDown([IsDown(t.clock, probe)] + ps) && Clocked(t, [IsDown(t.clock, probe)] + ps)
    ensures |Charges(Run(c, t, [IsDown(t.clock, probe)] + ps).log)| == |Charges(t.log)| + MaxAttempts(c) + 1
  {
    hide BackoffDelay, Charges, Inv;
    var p1 := IsDown(t.clock, probe);
    var t1 := Step(c, t, p1);
    DownCharges(c, t, t.clock, probe);
    var p2 := IsDown(t.clock + StableWindow(c), GONE);
    var t2 := Step(c, t1, p2);
    DownCharges(c, t1, p2.now, GONE);
    assert Spent(c, t1.state, p2.now) == 0 && t2.state.attempts == 1;
    var rest := SpendsTheRest(c, t2);
    RunThen(c, t1, p2, rest);
    RunThen(c, t, p1, [p2] + rest);
    ps := [p2] + rest;
  }

  /** Such a run of polls from a fresh start, for every cap: up and down in one millisecond, then down for good. */
  lemma SameMillisecondBuysAnotherRun(c: Settings, at: Millis) returns (ps: seq<Poll>)
    requires AppliesHere(c) && c.recoveryEnabled && at >= 0
    ensures |ps| >= 2 && ps[0] == IsUp(at, Port("/dev/ttyUSB0")) && ps[1] == IsDown(at, GONE) && AllDown(ps[1..])
    ensures Clocked(START, ps) && |Charges(Run(c, START, ps).log)| == MaxAttempts(c) + 1
  {
    var up := IsUp(at, Port("/dev/ttyUSB0"));
    assert Inv(c, START);
    StepKeeps(c, START, up);
    var t := Step(c, START, up);
    assert t.log == [] && HasBudget(c, t.state, at);
    var rest := UpMillisecondBuysAnotherRun(c, t, GONE);
    RunThen(c, START, up, [IsDown(at, GONE)] + rest);
    ps := [up] + ([IsDown(at, GONE)] + rest);
    assert ps[1..] == [IsDown(at, GONE)] + rest;
  }

  /**
   * From just after an up poll, some outage exceeds the cap if and only if there is budget for a run
   * in that same millisecond.
   */
  lemma OutageCanOverrunIff(c: Settings, t: Track)
    requires Inv(c, t) && t.state.lastUpAt == Some(t.clock) && AppliesHere(c) && c.recoveryEnabled
    ensures (exists ps :: Overruns(c, t, ps)) <==> HasBudget(c, t.state, t.clock)
  {
    if ps :| Overruns(c, t, ps) {
      if !HasBudget(c, t.state, t.clock) {
        WithoutBudgetCapped(c, t, ps);
      }
    }
    if HasBudget(c, t.state, t.clock) {
      var ps := UpMillisecondBuysAnotherRun(c, t, GONE);
      assert Overruns(c, t, [IsDown(t.clock, GONE)] + ps);
    }
  }

  /** An outage that charges more runs than the cap. */
  ghost predicate Overruns(c: Settings, t: Track, ps: seq<Poll>) {
    AllDown(ps) && Clocked(t, ps) && |Charges(Run(c, t, ps).log)| > |Charges(t.log)| + MaxAttempts(c)
  }

  // What the user is told.

  /** A report, by what it says; the texts are not spelled out. */
  datatype Message =
    | Unexaminable(device: string, reason: string)
    | Gone(device: string)
    | Moved(device: string, port: string, from: string)
    | GaveUp(about: Message, attempts: nat)
    | Waiting(about: Message, seconds: nat, tried: nat, attempts: nat)
    | RunFailed(about: Message, reason: string)
    | Restored(newPath: string)

  /** Whole seconds, rounded up. */
  function SecondsUntil(now: Millis, dueAt: Millis): nat
    requires now < dueAt
  {
    (dueAt - now + 999) / 1000
  }

  /** What every further report of a renumbered interface is about. */
  function About(s: NetworkState, probe: Probe): Message
    requires Renumbered(s, probe.before)
  {
    if probe.before.Absent? then Gone(probe.device) else Moved(probe.device, probe.before.path, s.portInUse.value)
  }

  /** What is reported of the recovery itself: given up, waiting, failed, or nothing. */
  function Followup(c: Settings, s: NetworkState, now: Millis, probe: Probe): seq<Message>
    requires Renumbered(s, probe.before)
  {
    var about, spent := About(s, probe), Spent(c, s, now);
    if spent >= MaxAttempts(c) then [GaveUp(about, MaxAttempts(c))]
    else if spent > 0 && now < s.lastAttemptAt + WaitBefore(c, spent) then
      [Waiting(about, SecondsUntil(now, s.lastAttemptAt + WaitBefore(c, spent)), spent, MaxAttempts(c))]
    else if probe.result.status != 0 then [RunFailed(about, probe.result.failure)]
    else []
  }

  /** The reports of a down poll, in order. */
  function Reports(c: Settings, s: NetworkState, now: Millis, probe: Probe): seq<Message> {
    if !AppliesHere(c) then []
    else if probe.before.Unreadable? then [Unexaminable(probe.device, probe.before.reason)]
    else if !Renumbered(s, probe.before) then []
    else [About(s, probe)] + if c.recoveryEnabled then Followup(c, s, now, probe) else []
  }

  /** A report as it reaches the log: at its own level, or as a mere repetition. */
  datatype Saying = Saying(loud: bool, message: Message)

  /** Loud the first time in an outage. */
  function Sayings(reported: set<Message>, messages: seq<Message>): seq<Saying>
    decreases |messages|
  {
    if messages == [] then []
    else [Saying(messages[0] !in reported, messages[0])] + Sayings(reported + {messages[0]}, messages[1..])
  }

  function Told(messages: seq<Message>): set<Message> {
    if messages == [] then {} else {messages[0]} + Told(messages[1..])
  }

  /** Not reported before, neither earlier nor in this list. */
  predicate IsNews(reported: set<Message>, messages: seq<Message>, i: nat)
    requires i < |messages|
  {
    messages[i] !in reported && forall j :: 0 <= j < i ==> messages[j] != messages[i]
  }

  /** However often an outage repeats its reports, each is loud exactly the first time. */
  lemma {:induction false} LoudOnce(reported: set<Message>, messages: seq<Message>, i: nat)
    requires i < |messages|
    ensures |Sayings(reported, messages)| == |messages|
    ensures Sayings(reported, messages)[i] == Saying(IsNews(reported, messages, i), messages[i])
    decreases |messages|
  {
    var rest, told := messages[1..], reported + {messages[0]};
    SayingsLength(told, rest);
    if i > 0 {
      LoudOnce(told, rest, i - 1);
      assert forall j :: 0 < j < i ==> messages[j] == rest[j - 1];
      assert IsNews(reported, messages, i) <==> IsNews(told, rest, i - 1);
    }
  }

  lemma {:induction false} SayingsLength(reported: set<Message>, messages: seq<Message>)
    ensures |Sayings(reported, messages)| == |messages|
    decreases |messages|
  {
    if messages != [] {
      SayingsLength(reported + {messages[0]}, messages[1..]);
    }
  }

  /** The log of several polls is one log: what matters is only what was told before. */
  lemma {:induction false} SayingsAppend(reported: set<Message>, a: seq<Message>, b: seq<Message>)
    ensures Sayings(reported, a + b) == Sayings(reported, a) + Sayings(reported + Told(a), b)
    decreases |a|
  {
    if a == [] {
      assert a + b == b && reported + Told(a) == reported;
    } else {
      assert (a + b)[0] == a[0] && (a + b)[1..] == a[1..] + b;
      SayingsAppend(reported + {a[0]}, a[1..], b);
      assert reported + {a[0]} + Told(a[1..]) == reported + Told(a);
    }
  }

  /** A poll reports a run that failed exactly if it ran the script and the script did fail. */
  lemma FailureIsReportedIff(c: Settings, s: NetworkState, now: Millis, probe: Probe)
    ensures var reports := Reports(c, s, now, probe);
            reports != [] && reports[|reports| - 1].RunFailed?
            <==> Runs(c, s, now, probe.before) && probe.result.status != 0
  {
  }

  /** The recovery object: one record per network, and the script runs it has caused. */
  class SerialDeviceRecovery {
    const settings: Settings
    var networks: map<string, NetworkState>
    var scriptRuns: map<string, seq<Attempt>>
    var reported: map<string, set<Message>>
    var log: seq<Saying>

    function StateOf(networkId: string): NetworkState
      reads this`networks
    {
      if networkId in networks then networks[networkId] else FRESH
    }

    function RunsOf(networkId: string): seq<Attempt>
      reads this`scriptRuns
    {
      if networkId in scriptRuns then scriptRuns[networkId] else []
    }

    function ReportedOf(networkId: string): set<Message>
      reads this`reported
    {
      if networkId in reported then reported[networkId] else {}
    }

    constructor (settings: Settings)
      ensures this.settings == settings && networks == map[] && scriptRuns == map[] && reported == map[] && log == []
    {
      this.settings, networks, scriptRuns, reported, log := settings, map[], map[], map[], [];
    }

    /** Logs a report at its own level the first time in an outage, and quietly after that. */
    method ReportOnce(networkId: string, message: Message)
      modifies this`reported, this`log
      ensures log == old(log) + [Saying(message !in old(ReportedOf(networkId)), message)]
      ensures ReportedOf(networkId) == old(ReportedOf(networkId)) + {message}
      ensures forall other :: other != networkId ==> ReportedOf(other) == old(ReportedOf(other))
    {
      log := log + [Saying(message !in ReportedOf(networkId), message)];
      reported := reported[networkId := ReportedOf(networkId) + {message}];
    }

    /** The outage is over, so its reports may all be made again next time. */
    method HandleInterfaceUp(networkId: string, now: Millis, reading: Reading)
      modifies this
      ensures StateOf(networkId) == Up(settings, old(StateOf(networkId)), now, reading)
      ensures RunsOf(networkId) == old(RunsOf(networkId))
      ensures ReportedOf(networkId) == (if AppliesHere(settings) then {} else old(ReportedOf(networkId)))
      ensures log == old(log)
      ensures forall other :: other != networkId ==>
                                && StateOf(other) == old(StateOf(other)) && RunsOf(other) == old(RunsOf(other))
                                && ReportedOf(other) == old(ReportedOf(other))
    {
      if !settings.hasSerialDevice || !settings.managedMode {
        return;
      }
      var state := StateOf(networkId);
      state := state.(lastUpAt := Some(now), portInUse := PortOf(reading));
      networks := networks[networkId := state];
      reported := reported[networkId := {}];
    }

    /** One down poll; `message` is what it answers its caller with. */
    method HandleInterfaceDown(networkId: string, now: Millis, probe: Probe)
      returns (action: Action, message: Option<Message>)
      modifies this
      ensures StateOf(networkId) == Down(settings, old(StateOf(networkId)), now, probe)
      ensures RunsOf(networkId) == RunsAfter(settings, old(StateOf(networkId)), old(RunsOf(networkId)), now, probe)
      ensures forall other :: other != networkId ==>
                                && StateOf(other) == old(StateOf(other)) && RunsOf(other) == old(RunsOf(other))
                                && ReportedOf(other) == old(ReportedOf(other))
      ensures var reports := Reports(settings, old(StateOf(networkId)), now, probe);
              && log == old(log) + Sayings(old(ReportedOf(networkId)), reports)
              && ReportedOf(networkId) == old(ReportedOf(networkId)) + Told(reports)
              && message == (if action == Recovered then Some(Restored(probe.result.newPath))
                             else if reports == [] then None else Some(reports[|reports| - 1]))
      ensures action in {Recovered, Failed} <==> Runs(settings, old(StateOf(networkId)), now, probe.before)
      ensures action == Recovered ==> probe.result.status == 0
      ensures action == Failed ==> probe.result.status != 0
      ensures action == Ignored <==> !AppliesHere(settings)
    {
      hide BackoffDelay, Followup, Sayings, Told, Down, Runs, RunsAfter;
      ghost var told := ReportedOf(networkId);
      SayNothing(told, log);
      if !(AppliesHere(settings) && Renumbered(StateOf(networkId), probe.before) && settings.recoveryEnabled) {
        NoRecovery(settings, StateOf(networkId), RunsOf(networkId), now, probe);
      }
      if !settings.hasSerialDevice || !settings.managedMode {
        return Ignored, None;
      }
      var state := StateOf(networkId);
      if probe.before.Unreadable? {
        message := Some(Unexaminable(probe.device, probe.before.reason));
        SayOne(told, message.value);
        ReportOnce(networkId, message.value);
        return Reported, message;
      }
      var vanished := probe.before.Absent?;
      var moved := !vanished && state.portInUse.Some? && probe.before.path != state.portInUse.value;
      if !vanished && !moved {
        return Reported, None;
      }
      var about := if vanished then Gone(probe.device)
                   else Moved(probe.device, probe.before.path, state.portInUse.value);
      SayOne(told, about);
      ReportOnce(networkId, about);
      if !settings.recoveryEnabled {
        assert [about] + [] == [about];
        return Reported, Some(about);
      }
      ghost var before, first, followup := old(log), Sayings(told, [about]), Followup(settings, state, now, probe);
      SayMore(told, about, followup, before);
      hide About, Renumbered;
      var answer;
      action, answer := RecoverIfDue(networkId, now, probe, about);
      message := Some(answer);
      SayOne(told + {about}, answer);
      SayNothing(told + {about}, log);
      if action != Recovered {
        ReportOnce(networkId, answer);
      }
    }

    /**
     * A renumbered interface: the budget decides whether the script runs. `message` is still to be
     * reported, unless all went well.
     */
    method RecoverIfDue(networkId: string, now: Millis, probe: Probe, about: Message)
      returns (action: Action, message: Message)
      requires AppliesHere(settings) && settings.recoveryEnabled
      requires Renumbered(StateOf(networkId), probe.before) && about == About(StateOf(networkId), probe)
      modifies this`networks, this`scriptRuns
      ensures StateOf(networkId) == Down(settings, old(StateOf(networkId)), now, probe)
      ensures RunsOf(networkId) == RunsAfter(settings, old(StateOf(networkId)), old(RunsOf(networkId)), now, probe)
      ensures forall other :: other != networkId ==>
                                StateOf(other) == old(StateOf(other)) && RunsOf(other) == old(RunsOf(other))
      ensures Followup(settings, old(StateOf(networkId)), now, probe) == if action == Recovered then [] else [message]
      ensures action == Recovered ==> message == Restored(probe.result.newPath)
      ensures action in {Reported, Recovered, Failed}
      ensures action in {Recovered, Failed} <==> Runs(settings, old(StateOf(networkId)), now, probe.before)
      ensures action == (if action == Reported then Reported
                         else if probe.result.status == 0 then Recovered else Failed)
    {
      hide BackoffDelay;
      var state := StateOf(networkId);
      var seenUp := state.lastUpAt.Some? && state.lastUpAt.value >= state.lastAttemptAt;
      if state.attempts > 0 && seenUp && now - state.lastAttemptAt >= StableWindow(settings) {
        state := state.(attempts := 0);
        networks := networks[networkId := state];
      }
      var maxAttempts := MaxAttempts(settings);
      if state.attempts >= maxAttempts {
        return Reported, GaveUp(about, maxAttempts);
      }
      if state.attempts > 0 {
        var dueAt := state.lastAttemptAt + WaitBefore(settings, state.attempts);
        if now < dueAt {
          return Reported, Waiting(about, SecondsUntil(now, dueAt), state.attempts, maxAttempts);
        }
      }
      RunScript(networkId, now, probe, state);
      if probe.result.status != 0 {
        return Failed, RunFailed(about, probe.result.failure);
      }
      return Recovered, Restored(probe.result.newPath);
    }

    /** One run of the script, charged unless it found no device, and the baseline it leaves if it succeeded. */
    method RunScript(networkId: string, now: Millis, probe: Probe, before: NetworkState)
      modifies this`networks, this`scriptRuns
      ensures var charged := !DeviceWasAbsent(probe.result);
              && RunsOf(networkId) == old(RunsOf(networkId)) + [Attempt(now, before.attempts, charged)]
              && StateOf(networkId) == before.(
                   lastAttemptAt := now,
                   attempts := before.attempts + (if charged then 1 else 0),
                   portInUse := if probe.result.status == 0 then PortOf(probe.after) else before.portInUse)
      ensures forall other :: other != networkId ==>
                                StateOf(other) == old(StateOf(other)) && RunsOf(other) == old(RunsOf(other))
    {
      var state := before.(lastAttemptAt := now);
      var charged := !DeviceWasAbsent(probe.result);
      scriptRuns := scriptRuns[networkId := RunsOf(networkId) + [Attempt(now, state.attempts, charged)]];
      if charged {
        state := state.(attempts := state.attempts + 1);
      }
      networks := networks[networkId := state];
      if probe.result.status == 0 {
        state := state.(portInUse := PortOf(probe.after));
        networks := networks[networkId := state];
      }
    }
  }

  /** Where there is nothing to recover, or nobody wants it, a down poll changes nothing. */
  lemma NoRecovery(c: Settings, s: NetworkState, log: seq<Attempt>, now: Millis, probe: Probe)
    requires !(AppliesHere(c) && Renumbered(s, probe.before) && c.recoveryEnabled)
    ensures Down(c, s, now, probe) == s && RunsAfter(c, s, log, now, probe) == log && !Runs(c, s, now, probe.before)
  {
  }

  lemma SayNothing(reported: set<Message>, log: seq<Saying>)
    ensures log + Sayings(reported, []) == log && reported + Told([]) == reported
  {
  }

  lemma {:induction false} SayMore(reported: set<Message>, about: Message, followup: seq<Message>, log: seq<Saying>)
    ensures log + Sayings(reported, [about] + followup)
            == log + Sayings(reported, [about]) + Sayings(reported + {about}, followup)
    ensures reported + Told([about] + followup) == reported + {about} + Told(followup)
    ensures ([about] + followup)[|followup|] == if followup == [] then about else followup[|followup| - 1]
  {
    SayingsAppend(reported, [about], followup);
    SayOne(reported, about);
    assert ([about] + followup)[1..] == followup;
  }

  lemma {:induction false} SayOne(reported: set<Message>, message: Message)
    ensures Sayings(reported, [message]) == [Saying(message !in reported, message)] && Told([message]) == {message}
  {
    var one := [message];
    assert one[1..] == [];
  }
}
