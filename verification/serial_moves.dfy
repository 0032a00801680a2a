/**
 * When the recovery script runs, told from the polls and the runs before alone: the device has to have
 * gone, or to point at another port than the last one known to work, and there has to be budget.
 */
module SerialMoves {
  import opened Backoff
  import opened Options
  import opened SerialRecovery

  function PortAt(reading: Reading): Option<string> {
    match reading
    case Port(path) => Some(path)
    case Absent => None
    case Unreadable(_) => None
  }

  /** The last poll made the script run. */
  predicate RanLast(c: Settings, ps: seq<Poll>)
    requires ps != []
  {
    |Run(c, START, ps).log| > |Run(c, START, ps[..|ps| - 1]).log|
  }

  /** The port last known to work: what an up poll read, or what was found after a run that succeeded. */
  function Baseline(c: Settings, ps: seq<Poll>): Option<string>
    decreases |ps|
  {
    if ps == [] then None
    else
      match ps[|ps| - 1]
      case IsUp(_, reading) => PortAt(reading)
      case IsDown(_, probe) =>
        if RanLast(c, ps) && probe.result.status == 0 then PortAt(probe.after) else Baseline(c, ps[..|ps| - 1])
  }

  function LastUp(ps: seq<Poll>): Option<Millis>
    decreases |ps|
  {
    if ps == [] then None
    else match ps[|ps| - 1]
         case IsUp(now, _) => Some(now)
         case IsDown(_, _) => LastUp(ps[..|ps| - 1])
  }

  /** The device is gone, or it is at another port than the one known to work. */
  predicate HasMoved(baseline: Option<string>, reading: Reading) {
    reading == Absent || (baseline.Some? && reading.Port? && reading.path != baseline.value)
  }

  /**
   * Nothing has been charged since the budget was last full, or it is full again by now, or there is
   * some left and the wait after the last run is over.
   */
  predicate Affordable(c: Settings, log: seq<Attempt>, lastUp: Option<Millis>, now: Millis) {
    log == [] ||
    var last := log[|log| - 1];
    var charged := last.spent + if last.charged then 1 else 0;
    || charged == 0
    || (lastUp.Some? && last.at <= lastUp.value && last.at + StableWindow(c) <= now)
    || (charged < MaxAttempts(c) && last.at + WaitBefore(c, charged) <= now)
  }

  lemma {:induction false} RunLast(c: Settings, t: Track, ps: seq<Poll>)
    requires ps != []
    ensures Run(c, t, ps) == Step(c, Run(c, t, ps[..|ps| - 1]), ps[|ps| - 1])
    decreases |ps|
  {
    hide Step;
    var front := ps[..|ps| - 1];
    if |ps| == 1 {
      assert ps[1..] == [] && front == [];
    } else {
      RunLast(c, Step(c, t, ps[0]), ps[1..]);
      assert ps[1..][..|ps| - 2] == front[1..];
    }
  }

  /** The record knows of the polls exactly the port that last worked and the last time up. */
  lemma {:induction false} RecordIsHistory(c: Settings, ps: seq<Poll>)
    requires c.hasSerialDevice && c.managedMode
    ensures Run(c, START, ps).state.portInUse == Baseline(c, ps)
    ensures Run(c, START, ps).state.lastUpAt == LastUp(ps)
    decreases |ps|
  {
    hide Renumbered, BackoffDelay;
    if ps != [] {
      RunLast(c, START, ps);
      RecordIsHistory(c, ps[..|ps| - 1]);
      hide Run;
    }
  }

  lemma AffordableIffBudget(c: Settings, t: Track, lastUp: Option<Millis>, now: Millis)
    requires LogInv(c, t) && t.state.lastUpAt == lastUp
    ensures HasBudget(c, t.state, now) <==> Affordable(c, t.log, lastUp, now)
  {
    hide BackoffDelay, Spaced;
  }

  lemma RunsIffBudget(c: Settings, s: NetworkState, now: Millis, reading: Reading)
    ensures Runs(c, s, now, reading) <==>
            && c.hasSerialDevice && c.managedMode && c.recoveryEnabled
            && HasMoved(s.portInUse, reading) && HasBudget(c, s, now)
  {
    hide Spent, WaitBefore;
  }

  /**
   * Over every run of polls from the start: a down poll adds a run to the log if and only if recovery is
   * on for a local device, the device is gone or has moved from the port last known to work, and the
   * runs so far leave budget. A device that has not moved causes neither a run nor a report.
   */
  lemma RunsIffMoved(c: Settings, ps: seq<Poll>, now: Millis, probe: Probe)
    requires Clocked(START, ps)
    ensures var t, t' := Run(c, START, ps), Run(c, START, ps + [IsDown(now, probe)]);
            var moved := HasMoved(Baseline(c, ps), probe.before);
            && (t'.log != t.log <==>
                  && c.hasSerialDevice && c.managedMode && c.recoveryEnabled
                  && moved && Affordable(c, t.log, LastUp(ps), now))
            && (probe.before.Port? && !moved ==> Reports(c, t.state, now, probe) == [] && t'.state == t.state)
  {
    var t, all := Run(c, START, ps), ps + [IsDown(now, probe)];
    RunLast(c, START, all);
    assert all[..|all| - 1] == ps;
    RunsIffBudget(c, t.state, now, probe.before);
    RunsAreSpaced(c, START, ps);
    hide Run, Clocked, LogInv, HasBudget, Affordable, Spent, WaitBefore, Followup, HasMoved, Runs;
    if c.hasSerialDevice && c.managedMode {
      RecordIsHistory(c, ps);
      AffordableIffBudget(c, t, LastUp(ps), now);
      UnmovedIsSilent(c, t.state, now, probe);
    } else {
      NotHereNothing(c, t.state, now, probe);
    }
  }

  lemma NotHereNothing(c: Settings, s: NetworkState, now: Millis, probe: Probe)
    requires !c.hasSerialDevice || !c.managedMode
    ensures Reports(c, s, now, probe) == [] && Down(c, s, now, probe) == s
  {
  }

  lemma UnmovedIsSilent(c: Settings, s: NetworkState, now: Millis, probe: Probe)
    ensures probe.before.Port? && !HasMoved(s.portInUse, probe.before) ==>
              Reports(c, s, now, probe) == [] && Down(c, s, now, probe) == s
  {
  }

  /**
   * What a down poll says first: that the path could not be looked at, and then nothing else; that the
   * device is gone; or where it points now and where it pointed when it last worked.
   */
  lemma FirstReport(c: Settings, ps: seq<Poll>, now: Millis, probe: Probe)
    requires c.hasSerialDevice && c.managedMode
    ensures var reports := Reports(c, Run(c, START, ps).state, now, probe);
            match probe.before
            case Unreadable(reason) => reports == [Unexaminable(probe.device, reason)]
            case Absent => reports != [] && reports[0] == Gone(probe.device)
            case Port(path) =>
              if Baseline(c, ps).Some? && path != Baseline(c, ps).value then
                reports != [] && reports[0] == Moved(probe.device, path, Baseline(c, ps).value)
              else reports == []
  {
    RecordIsHistory(c, ps);
    hide Run, Followup, Baseline;
  }

  /**
   * What follows the first report, with recovery on: that the budget is spent; how long is left to wait,
   * in seconds rounded up, and how much of the budget is gone; or how the run failed.
   */
  lemma SecondReport(c: Settings, s: NetworkState, now: Millis, probe: Probe)
    requires c.hasSerialDevice && c.managedMode && c.recoveryEnabled && HasMoved(s.portInUse, probe.before)
    ensures var reports, spent := Reports(c, s, now, probe), Spent(c, s, now);
            reports[1..] ==
            if spent >= MaxAttempts(c) then [GaveUp(reports[0], MaxAttempts(c))]
            else if spent > 0 && now < s.lastAttemptAt + WaitBefore(c, spent) then
              [Waiting(reports[0], SecondsUntil(now, s.lastAttemptAt + WaitBefore(c, spent)), spent, MaxAttempts(c))]
            else if probe.result.status != 0 then [RunFailed(reports[0], probe.result.failure)]
            else []
    ensures forall dueAt :: now < dueAt ==>
              1000 * (SecondsUntil(now, dueAt) - 1) < dueAt - now <= 1000 * SecondsUntil(now, dueAt)
  {
    hide WaitBefore, Spent;
  }

  /**
   * What a run costs: nothing if the script ran and ended with 1, which says that the device was absent,
   * and one of the budget however else it ended.
   */
  lemma ChargedIff(c: Settings, t: Track, now: Millis, probe: Probe)
    requires Step(c, t, IsDown(now, probe)).log != t.log
    ensures var t' := Step(c, t, IsDown(now, probe));
            var run := t'.log[|t'.log| - 1];
            && t'.log == t.log + [run] && run.at == now
            && (run.charged <==> probe.result.status != 1 || probe.result.spawnError)
            && t'.state.attempts == run.spent + (if run.charged then 1 else 0) && t'.state.lastAttemptAt == now
  {
    hide WaitBefore, Spent, Renumbered;
  }

  // The waits.

  /** The first wait is the configured one within its limits; each further one is twice as long, up to the limit. */
  lemma WaitsDouble(c: Settings, spent: nat)
    requires spent > 0
    ensures var limit := if c.maxDelaySetting < 1000 then 1000 else c.maxDelaySetting;
            var first := if c.initialDelaySetting < 1000 then 1000 else c.initialDelaySetting;
            && WaitBefore(c, 1) == (if first < limit then first else limit)
            && WaitBefore(c, spent + 1) ==
               if 2 * WaitBefore(c, spent) < limit then 2 * WaitBefore(c, spent) else limit
  {
    BackoffDoubles(spent - 1, AtLeast(1000, c.initialDelaySetting), AtLeast(1000, c.maxDelaySetting));
  }

  /** The caps in force: at least one run, and a stable window of at least a second. */
  lemma CapsAreFloored(c: Settings)
    ensures MaxAttempts(c) == if c.maxAttemptsSetting < 1 then 1 else c.maxAttemptsSetting
    ensures StableWindow(c) == if c.stableWindowSetting < 1000 then 1000 else c.stableWindowSetting
  {
  }
}
