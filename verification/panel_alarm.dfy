/**
 * The alarm state machine of src/securityPanelState.js: what the Home Assistant alarm entity shows
 * after each reading, and what alarm_off returns it to.
 */
module PanelAlarm {
  import opened Options

  datatype AlarmState =
    | Disarmed
    | ArmedAway
    | ArmedNight
    | ArmedHome
    | ArmedVacation
    | Arming
    | Pending
    | Triggered

  predicate IsArmed(s: AlarmState) {
    s in {ArmedAway, ArmedNight, ArmedHome, ArmedVacation}
  }

  /** Nothing learned yet, or a panel sitting disarmed. */
  predicate IsIdle(s: Option<AlarmState>) {
    s.None? || s.value == Disarmed
  }

  /** A mode that is absent or not an integer is None; unknown non-zero modes read as armed away. */
  function AlarmStateForArmMode(mode: Option<int>): Option<AlarmState> {
    if mode.None? || mode.value < 0 then None
    else Some(match mode.value
              case 0 => Disarmed
              case 1 => ArmedAway
              case 2 => ArmedNight
              case 3 => ArmedHome
              case 4 => ArmedVacation
              case _ => ArmedAway)
  }

  datatype Entry = Entry(
    state: Option<AlarmState>,
    preAlarmState: Option<AlarmState>,
    blockingZone: Option<string>,
    armMode: Option<int>)

  const FRESH := Entry(None, None, None, None)

  datatype Reading =
    | SystemArm(mode: Option<int>)
    | StatusReport(armState: Option<int>)
    | ExitDelayStarted
    | EntryDelayStarted
    | ArmNotReady(zone: Option<string>)
    | ArmReady
    | AlarmOn
    | AlarmOff
    | OtherReading

  datatype Report = Report(state: AlarmState, blockingZone: Option<string>, armMode: Option<int>)

  /** An empty zone name is no zone. */
  function NamedZone(zone: Option<string>): Option<string> {
    if zone == Some("") then None else zone
  }

  /** The state before the alarm that the entity will return to, after this reading. */
  function Remember(e: Entry, r: Reading): Option<AlarmState> {
    match r
    case EntryDelayStarted => if e.state.Some? && IsArmed(e.state.value) then e.state else e.preAlarmState
    case AlarmOn => if e.state == Some(Triggered) || e.state == Some(Pending) then e.preAlarmState else e.state
    case AlarmOff => None
    case _ => e.preAlarmState
  }

  /** The state the reading puts the entity in, or None when it says nothing. */
  function Target(e: Entry, r: Reading): Option<AlarmState> {
    match r
    case SystemArm(mode) => AlarmStateForArmMode(mode)
    case StatusReport(armState) => AlarmStateForArmMode(armState)
    case ExitDelayStarted => Some(Arming)
    case EntryDelayStarted => Some(Pending)
    case ArmNotReady(_) => Some(Disarmed)
    case ArmReady => Some(Disarmed)
    case AlarmOn => Some(Triggered)
    case AlarmOff => e.preAlarmState
    case OtherReading => None
  }

  /** Readings that must not disturb the state the panel is in. */
  predicate Swallowed(e: Entry, r: Reading) {
    || (r.EntryDelayStarted? && e.state == Some(Triggered))
    || ((r.ArmReady? || r.ArmNotReady?) && !IsIdle(e.state))
    || r.OtherReading?
  }

  function ModeOf(e: Entry, r: Reading): Option<int> {
    match r
    case SystemArm(mode) => if mode.Some? then mode else e.armMode
    case StatusReport(armState) => if armState.Some? then armState else e.armMode
    case _ => e.armMode
  }

  /** applyAlarmReading: the new entry and the transition to publish, if there is one. */
  function Apply(e: Entry, r: Reading): (Entry, Option<Report>) {
    if Swallowed(e, r) then (e, None)
    else
      var e1 := e.(preAlarmState := Remember(e, r));
      var target := Target(e, r);
      var zone := if r.ArmNotReady? then NamedZone(r.zone) else None;
      var mode := ModeOf(e, r);
      if target.None? || (e.state == target && e.blockingZone == zone && e.armMode == mode) then (e1, None)
      else (Entry(target, e1.preAlarmState, zone, mode), Some(Report(target.value, zone, mode)))
  }

  /** The next reading is to count as a transition even if nothing has changed. */
  function Forget(e: Entry): Entry {
    e.(state := None, blockingZone := None)
  }

  datatype Event = Reads(reading: Reading) | Forgets

  function Step(e: Entry, ev: Event): (Entry, Option<Report>) {
    match ev
    case Reads(r) => Apply(e, r)
    case Forgets => (Forget(e), None)
  }

  function After(e: Entry, evs: seq<Event>): Entry
    decreases |evs|
  {
    if evs == [] then e else After(Step(e, evs[0]).0, evs[1..])
  }

  /** Everything published over a run, in order. */
  function Reports(e: Entry, evs: seq<Event>): seq<Report>
    decreases |evs|
  {
    if evs == [] then []
    else
      var (e', report) := Step(e, evs[0]);
      (if report.Some? then [report.value] else []) + Reports(e', evs[1..])
  }

  // Returning from an alarm.

  /** What an intrusion can bring between the first alarm sign and its end. */
  predicate IsIntrusion(ev: Event) {
    && ev.Reads?
    && (ev.reading.EntryDelayStarted? || ev.reading.AlarmOn? || ev.reading.ArmReady? || ev.reading.ArmNotReady?)
  }

  predicate AllIntrusion(evs: seq<Event>) {
    forall i :: 0 <= i < |evs| ==> IsIntrusion(evs[i])
  }

  predicate RaisesAlarm(ev: Event) {
    ev.Reads? && (ev.reading.EntryDelayStarted? || ev.reading.AlarmOn?)
  }

  /** Once the alarm has started, the remembered state does not move until it ends. */
  lemma {:induction false} AlarmKeepsMemory(e: Entry, evs: seq<Event>)
    requires AllIntrusion(evs) && (e.state == Some(Pending) || e.state == Some(Triggered))
    ensures var e' := After(e, evs);
            e'.preAlarmState == e.preAlarmState && (e'.state == Some(Pending) || e'.state == Some(Triggered))
    decreases |evs|
  {
    if evs != [] {
      assert IsIntrusion(evs[0]);
      AlarmKeepsMemory(Step(e, evs[0]).0, evs[1..]);
    }
  }

  lemma {:induction false} AlarmRemembersArmed(e: Entry, evs: seq<Event>)
    requires e.state.Some? && IsArmed(e.state.value) && AllIntrusion(evs)
    requires exists i :: 0 <= i < |evs| && RaisesAlarm(evs[i])
    ensures var e' := After(e, evs);
            e'.preAlarmState == e.state && (e'.state == Some(Pending) || e'.state == Some(Triggered))
    decreases |evs|
  {
    assert IsIntrusion(evs[0]);
    var e1 := Step(e, evs[0]).0;
    if RaisesAlarm(evs[0]) {
      AlarmKeepsMemory(e1, evs[1..]);
    } else {
      assert e1 == e;
      var i :| 0 <= i < |evs| && RaisesAlarm(evs[i]);
      assert RaisesAlarm(evs[1..][i - 1]);
      AlarmRemembersArmed(e, evs[1..]);
    }
  }

  /** Whatever an alarm went through, alarm_off restores and reports the armed state it interrupted. */
  lemma AlarmOffRestoresArmed(e: Entry, evs: seq<Event>)
    requires e.state.Some? && IsArmed(e.state.value) && AllIntrusion(evs)
    requires exists i :: 0 <= i < |evs| && RaisesAlarm(evs[i])
    ensures var (e', report) := Apply(After(e, evs), AlarmOff);
            e'.state == e.state && report.Some? && report.value.state == e.state.value
  {
    AlarmRemembersArmed(e, evs);
  }

  /** The remembered state is never one that is itself part of an alarm. */
  predicate MemoryIsCalm(e: Entry) {
    e.preAlarmState != Some(Pending) && e.preAlarmState != Some(Triggered)
  }

  lemma {:induction false} MemoryStaysCalm(e: Entry, evs: seq<Event>)
    requires MemoryIsCalm(e)
    ensures MemoryIsCalm(After(e, evs))
    decreases |evs|
  {
    if evs != [] {
      MemoryStaysCalm(Step(e, evs[0]).0, evs[1..]);
    }
  }

  // Never reporting an armed panel as disarmed.

  predicate SaysDisarmed(ev: Event) {
    ev.Reads? && (ev.reading == SystemArm(Some(0)) || ev.reading == StatusReport(Some(0)))
  }

  /** The only readings after which a live panel may legitimately show disarmed. */
  predicate MayDisarm(ev: Event) {
    SaysDisarmed(ev) || ev == Reads(AlarmOff) || ev.Forgets?
  }

  lemma {:induction false} ArmedStaysProtected(e: Entry, evs: seq<Event>)
    requires !IsIdle(e.state) && forall i :: 0 <= i < |evs| ==> !MayDisarm(evs[i])
    ensures !IsIdle(After(e, evs).state)
    ensures forall i :: 0 <= i < |Reports(e, evs)| ==> Reports(e, evs)[i].state != Disarmed
    decreases |evs|
  {
    if evs != [] {
      assert !MayDisarm(evs[0]);
      ArmedStaysProtected(Step(e, evs[0]).0, evs[1..]);
    }
  }

  /** arm_ready and arm_not_ready, which may only seed or restore the idle state. */
  predicate IsReadiness(ev: Event) {
    ev.Reads? && (ev.reading.ArmReady? || ev.reading.ArmNotReady?)
  }

  /**
   * One step reports disarmed, from whatever entry, exactly on a mode 0, an alarm_off that remembers
   * it, or a word about readiness while idle; and then only if that is not what the entry shows already.
   */
  lemma ReportsDisarmedIff(e: Entry, ev: Event)
    ensures var report := Step(e, ev).1;
            report.Some? && report.value.state == Disarmed <==>
            && (SaysDisarmed(ev) || (ev == Reads(AlarmOff) && e.preAlarmState == Some(Disarmed))
                || (IsReadiness(ev) && IsIdle(e.state)))
            && (e.state == Some(Disarmed) && e.armMode == ModeOf(e, ev.reading) ==>
                  e.blockingZone != if ev.reading.ArmNotReady? then NamedZone(ev.reading.zone) else None)
    ensures var report := Step(e, Reads(ArmReady)).1;
            report.Some? && report.value.state == Disarmed
            <==> IsIdle(e.state) && !(e.state == Some(Disarmed) && e.blockingZone == None)
  {
  }

  /** Tells a forgotten entry nothing. */
  predicate IsMute(ev: Event) {
    match ev
    case Forgets => true
    case Reads(SystemArm(mode)) => mode.None? || mode.value < 0
    case Reads(StatusReport(mode)) => mode.None? || mode.value < 0
    case Reads(OtherReading) => true
    case _ => false
  }

  /** The first event that is not mute is about readiness. */
  predicate ReadyAt(evs: seq<Event>, j: int) {
    0 <= j < |evs| && IsReadiness(evs[j]) && forall k :: 0 <= k < j ==> IsMute(evs[k])
  }

  /** The state is forgotten at i, and the first event after that which is not mute, at j, is about readiness. */
  predicate ReadyAfterForgetting(evs: seq<Event>, i: int, j: int) {
    0 <= i < j < |evs| && evs[i].Forgets? && IsReadiness(evs[j]) && forall k :: i < k < j ==> IsMute(evs[k])
  }

  ghost predicate Opens(evs: seq<Event>) {
    exists j :: ReadyAt(evs, j)
  }

  ghost predicate Exposed(evs: seq<Event>) {
    exists i, j :: ReadyAfterForgetting(evs, i, j)
  }

  lemma OpensFrom(evs: seq<Event>)
    requires evs != []
    ensures Opens(evs) <==> IsReadiness(evs[0]) || (IsMute(evs[0]) && Opens(evs[1..]))
  {
    if j :| ReadyAt(evs, j) {
      assert j > 0 ==> ReadyAt(evs[1..], j - 1);
    }
    if IsReadiness(evs[0]) {
      assert ReadyAt(evs, 0);
    } else if j :| IsMute(evs[0]) && ReadyAt(evs[1..], j) {
      assert evs[1..][j] == evs[j + 1] && forall k :: 0 < k < j + 1 ==> evs[k] == evs[1..][k - 1];
      assert ReadyAt(evs, j + 1);
    }
  }

  lemma ExposedFrom(evs: seq<Event>)
    requires evs != []
    ensures Exposed(evs) <==> (evs[0].Forgets? && Opens(evs[1..])) || Exposed(evs[1..])
  {
    var rest := evs[1..];
    assert forall k :: 0 < k < |evs| ==> evs[k] == rest[k - 1];
    if i, j :| ReadyAfterForgetting(evs, i, j) {
      assert if i == 0 then ReadyAt(rest, j - 1) else ReadyAfterForgetting(rest, i - 1, j - 1);
    }
    if j :| evs[0].Forgets? && ReadyAt(rest, j) {
      assert ReadyAfterForgetting(evs, 0, j + 1);
    }
    if i, j :| ReadyAfterForgetting(rest, i, j) {
      assert ReadyAfterForgetting(evs, i + 1, j + 1);
    }
  }

  ghost predicate SomeDisarmed(reports: seq<Report>) {
    exists i :: 0 <= i < |reports| && reports[i].state == Disarmed
  }

  lemma DisarmedFrom(e: Entry, evs: seq<Event>)
    requires evs != []
    ensures var (e', report) := Step(e, evs[0]);
            SomeDisarmed(Reports(e, evs)) <==>
            (report.Some? && report.value.state == Disarmed) || SomeDisarmed(Reports(e', evs[1..]))
  {
    var (e', report) := Step(e, evs[0]);
    var later := Reports(e', evs[1..]);
    hide Step;
    if report.Some? {
      assert Reports(e, evs) == [report.value] + later;
      hide Reports;
      DisarmedInCons(report.value, later);
    } else {
      assert Reports(e, evs) == later;
    }
  }

  lemma DisarmedInCons(report: Report, later: seq<Report>)
    ensures SomeDisarmed([report] + later) <==> report.state == Disarmed || SomeDisarmed(later)
  {
    var all := [report] + later;
    if i :| 0 <= i < |later| && later[i].state == Disarmed {
      assert all[i + 1].state == Disarmed;
    }
    assert report.state == Disarmed ==> all[0].state == Disarmed;
  }

  /**
   * Over whole runs: a live panel that sends neither a mode 0 nor an alarm_off is reported disarmed if
   * and only if its state is forgotten and the next telling event is about readiness.
   */
  lemma DisarmedIffExposed(e: Entry, evs: seq<Event>)
    requires !IsIdle(e.state)
    requires forall i :: 0 <= i < |evs| ==> !SaysDisarmed(evs[i]) && evs[i] != Reads(AlarmOff)
    ensures SomeDisarmed(Reports(e, evs)) <==> exists i, j :: ReadyAfterForgetting(evs, i, j)
  {
    DisarmedIffOpen(e, evs);
    assert Exposed(evs) <==> exists i, j :: ReadyAfterForgetting(evs, i, j);
  }

  lemma {:induction false} DisarmedIffOpen(e: Entry, evs: seq<Event>)
    requires e.state != Some(Disarmed)
    requires forall i :: 0 <= i < |evs| ==> !SaysDisarmed(evs[i]) && evs[i] != Reads(AlarmOff)
    ensures SomeDisarmed(Reports(e, evs)) <==> Exposed(evs) || (e.state.None? && Opens(evs))
    decreases |evs|
  {
    hide Exposed, Opens, SomeDisarmed;
    if evs == [] {
      NothingIsExposed(e);
    } else {
      assert !SaysDisarmed(evs[0]) && evs[0] != Reads(AlarmOff);
      var (e', report) := Step(e, evs[0]);
      DisarmedFrom(e, evs);
      OpensFrom(evs);
      ExposedFrom(evs);
      if e'.state != Some(Disarmed) {
        DisarmedIffOpen(e', evs[1..]);
      }
    }
  }

  lemma NothingIsExposed(e: Entry)
    ensures !Exposed([]) && !Opens([]) && !SomeDisarmed(Reports(e, []))
  {
  }

  lemma {:induction false} AfterLast(e: Entry, evs: seq<Event>)
    requires evs != []
    ensures var n := |evs| - 1; After(e, evs) == Step(After(e, evs[..n]), evs[n]).0
    decreases |evs|
  {
    hide Step;
    var n := |evs| - 1;
    if n == 0 {
      assert After(e, evs[..0]) == e && evs[1..] == [];
    } else {
      AfterLast(Step(e, evs[0]).0, evs[1..]);
      assert evs[1..][..n - 1] == evs[..n][1..];
    }
  }

  /** The events that change what alarm_off will return to. */
  predicate Rewrites(e: Entry, ev: Event) {
    || ev == Reads(AlarmOff)
    || (ev == Reads(AlarmOn) && e.state != Some(Pending) && e.state != Some(Triggered))
    || (ev == Reads(EntryDelayStarted) && e.state.Some? && IsArmed(e.state.value))
  }

  /** At j an alarm went off on a panel showing disarmed, and nothing has rewritten the memory since. */
  predicate RemembersDisarmed(e: Entry, evs: seq<Event>, j: int) {
    && 0 <= j < |evs| && evs[j] == Reads(AlarmOn) && After(e, evs[..j]).state == Some(Disarmed)
    && forall k :: j < k < |evs| ==> !Rewrites(After(e, evs[..k]), evs[k])
  }

  lemma {:induction false} MemoryIsDisarmedIff(e: Entry, evs: seq<Event>)
    requires e.preAlarmState != Some(Disarmed)
    ensures After(e, evs).preAlarmState == Some(Disarmed) <==> exists j :: RemembersDisarmed(e, evs, j)
    decreases |evs|
  {
    if evs != [] {
      var n := |evs| - 1;
      var init, last, before := evs[..n], evs[n], After(e, evs[..n]);
      AfterLast(e, evs);
      MemoryIsDisarmedIff(e, init);
      assert forall k :: 0 <= k <= n ==> init[..k] == evs[..k];
      hide After, Step;
      MemoryStep(before, last);
      if Rewrites(before, last) {
        assert last == Reads(AlarmOn) && before.state == Some(Disarmed) ==> RemembersDisarmed(e, evs, n);
        assert forall j :: RemembersDisarmed(e, evs, j) ==> j == n;
      } else {
        assert forall j :: 0 <= j < n ==> (RemembersDisarmed(e, evs, j) <==> RemembersDisarmed(e, init, j));
        assert !RemembersDisarmed(e, evs, n);
      }
    }
  }

  lemma MemoryStep(e: Entry, ev: Event)
    ensures var memory := Step(e, ev).0.preAlarmState;
            if Rewrites(e, ev) then memory == Some(Disarmed) <==> ev == Reads(AlarmOn) && e.state == Some(Disarmed)
            else memory == e.preAlarmState
  {
  }

  /**
   * Over whole runs: alarm_off shows a panel disarmed, whatever it has been armed as meanwhile, if and
   * only if the last thing to write the memory was an alarm on a panel showing disarmed.
   */
  lemma AlarmOffDisarmsIff(e: Entry, evs: seq<Event>)
    requires e.preAlarmState != Some(Disarmed) && !IsIdle(After(e, evs).state)
    ensures var report := Apply(After(e, evs), AlarmOff).1;
            report.Some? && report.value.state == Disarmed <==> exists j :: RemembersDisarmed(e, evs, j)
  {
    MemoryIsDisarmedIff(e, evs);
  }

  /** Arming rewrites nothing: an alarm, then arming in any mode, then alarm_off shows the armed panel disarmed. */
  lemma ArmingKeepsStaleMemory(e: Entry, mode: int)
    requires e.state == Some(Disarmed) && mode > 0
    ensures var armed := After(e, [Reads(AlarmOn), Reads(SystemArm(Some(mode)))]);
            && armed.state.Some? && IsArmed(armed.state.value) && armed.armMode == Some(mode)
            && Step(armed, Reads(AlarmOff)).1 == Some(Report(Disarmed, None, Some(mode)))
  {
    var e1 := Step(e, Reads(AlarmOn)).0;
    var e2 := Step(e1, Reads(SystemArm(Some(mode)))).0;
    assert [Reads(AlarmOn), Reads(SystemArm(Some(mode)))][1..] == [Reads(SystemArm(Some(mode)))];
    assert [Reads(SystemArm(Some(mode)))][1..] == [];
    assert After(e2, []) == e2;
    assert After(e1, [Reads(SystemArm(Some(mode)))]) == e2;
  }

  /** A forgotten state counts as idle: arm_ready, harmless on a live panel, then reports it disarmed. */
  lemma ForgettingUnprotects(e: Entry)
    requires !IsIdle(e.state)
    ensures Step(e, Reads(ArmReady)) == (e, None)
    ensures var report := Step(Forget(e), Reads(ArmReady)).1; report.Some? && report.value.state == Disarmed
  {
  }

  // Transitions only.

  ghost predicate Distinct(reports: seq<Report>) {
    forall i :: 0 <= i < |reports| - 1 ==> reports[i] != reports[i + 1]
  }

  predicate Shows(e: Entry, r: Report) {
    e.state == Some(r.state) && e.blockingZone == r.blockingZone && e.armMode == r.armMode
  }

  lemma StepReportsChange(e: Entry, ev: Event)
    requires !ev.Forgets?
    ensures var (e', report) := Step(e, ev);
            if report.Some? then Shows(e', report.value) && !Shows(e, report.value)
            else forall r :: Shows(e', r) <==> Shows(e, r)
  {
  }

  /** Consecutive reports always differ, as long as the state is not deliberately forgotten between them. */
  lemma {:induction false} ReportsAreTransitions(e: Entry, evs: seq<Event>)
    requires forall i :: 0 <= i < |evs| ==> !evs[i].Forgets?
    ensures Distinct(Reports(e, evs))
    ensures Reports(e, evs) != [] ==> !Shows(e, Reports(e, evs)[0])
    decreases |evs|
  {
    if evs != [] {
      var (e', report) := Step(e, evs[0]);
      StepReportsChange(e, evs[0]);
      ReportsAreTransitions(e', evs[1..]);
      var later := Reports(e', evs[1..]);
      if report.Some? {
        assert Reports(e, evs) == [report.value] + later;
      } else {
        assert Reports(e, evs) == later;
      }
    }
  }
}
