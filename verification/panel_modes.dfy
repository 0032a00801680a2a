/**
 * What each reading makes of an alarm entry, told by what is shown afterwards, and what a shown state
 * says about the arm mode last heard.
 */
module PanelModes {
  import opened Options
  import opened PanelAlarm

  /** One of the five states a panel can be in at rest, and the arm modes that mean it. */
  predicate ShowsMode(state: Option<AlarmState>, mode: int) {
    && (state == Some(Disarmed) <==> mode == 0)
    && (state == Some(ArmedNight) <==> mode == 2)
    && (state == Some(ArmedHome) <==> mode == 3)
    && (state == Some(ArmedVacation) <==> mode == 4)
    && (state == Some(ArmedAway) <==> mode == 1 || mode >= 5)
  }

  /** What a subscriber is told, if it is not what the entry shows already. */
  function Told(e: Entry, state: AlarmState, zone: Option<string>, mode: Option<int>): Option<Report> {
    if e.state == Some(state) && e.blockingZone == zone && e.armMode == mode then None
    else Some(Report(state, zone, mode))
  }

  /**
   * From whatever entry, either way a mode is heard: a mode of 0 or more is shown as its state, with the
   * number beside it and no blocking zone, and reported unless it was shown; any other changes nothing.
   */
  lemma ModeDecidesState(e: Entry, mode: Option<int>, r: Reading)
    requires r == SystemArm(mode) || r == StatusReport(mode)
    ensures var (e', report) := Apply(e, r);
            if mode.None? || mode.value < 0 then e' == e && report == None
            else && e'.state.Some? && ShowsMode(e'.state, mode.value) && e'.armMode == mode
                 && e'.blockingZone == None && e'.preAlarmState == e.preAlarmState
                 && report == Told(e, e'.state.value, None, mode)
  {
  }

  /** Every other reading, from every entry: the state it shows, and when it is disregarded. */
  lemma ReadingDecidesState(e: Entry)
    ensures Apply(e, ExitDelayStarted) ==
            (e.(state := Some(Arming), blockingZone := None), Told(e, Arming, None, e.armMode))
    ensures Apply(e, AlarmOn).0.state == Some(Triggered) && Apply(e, AlarmOn).0.armMode == e.armMode
    ensures Apply(e, AlarmOn).1 == Told(e, Triggered, None, e.armMode)
    ensures var (e', report) := Apply(e, EntryDelayStarted);
            if e.state == Some(Triggered) then e' == e && report == None
            else e'.state == Some(Pending) && report == Told(e, Pending, None, e.armMode)
    ensures var idle := e.state == None || e.state == Some(Disarmed);
            && (!idle ==> Apply(e, ArmReady) == (e, None))
            && (idle ==> Apply(e, ArmReady) == (e.(state := Some(Disarmed), blockingZone := None),
                                                Told(e, Disarmed, None, e.armMode)))
    ensures var (e', report) := Apply(e, AlarmOff);
            && e'.preAlarmState == None
            && if e.preAlarmState == None then e' == e && report == None
               else e'.state == e.preAlarmState && report == Told(e, e.preAlarmState.value, None, e.armMode)
    ensures Apply(e, OtherReading) == (e, None)
  {
  }

  /** A panel that cannot arm shows disarmed and the zone in the way, unless it is armed or in alarm. */
  lemma BlockedArmingNamesZone(e: Entry, zone: Option<string>)
    ensures var (e', report) := Apply(e, ArmNotReady(zone));
            var shown := if zone.Some? && zone.value != "" then zone else None;
            if e.state != None && e.state != Some(Disarmed) then e' == e && report == None
            else e' == e.(state := Some(Disarmed), blockingZone := shown)
                 && report == Told(e, Disarmed, shown, e.armMode)
  {
  }

  // What a shown state says about the mode.

  /** The panel says in which mode it is. */
  predicate Carries(ev: Event, mode: int) {
    mode >= 0 && (ev == Reads(SystemArm(Some(mode))) || ev == Reads(StatusReport(Some(mode))))
  }

  /** Says nothing about the state of a panel at rest: readiness, and modes that are absent or no mode. */
  predicate IsQuiet(ev: Event) {
    match ev
    case Reads(ArmReady) => true
    case Reads(ArmNotReady(_)) => true
    case Reads(OtherReading) => true
    case Reads(SystemArm(mode)) => mode.None? || mode.value < 0
    case Reads(StatusReport(mode)) => mode.None? || mode.value < 0
    case _ => false
  }

  /** The mode is heard at i, and nothing after it speaks of anything but readiness. */
  predicate LastMode(evs: seq<Event>, i: int, mode: int) {
    0 <= i < |evs| && Carries(evs[i], mode) && forall k :: i < k < |evs| ==> IsQuiet(evs[k])
  }

  lemma {:induction false} QuietKeepsMode(e: Entry, evs: seq<Event>, mode: int)
    requires ShowsMode(e.state, mode) && mode >= 0 && e.armMode == Some(mode)
    requires forall k :: 0 <= k < |evs| ==> IsQuiet(evs[k])
    ensures ShowsMode(After(e, evs).state, mode) && After(e, evs).armMode == Some(mode)
    decreases |evs|
  {
    hide ShowsMode;
    if evs != [] {
      assert IsQuiet(evs[0]);
      QuietStep(e, evs[0], mode);
      QuietKeepsMode(Step(e, evs[0]).0, evs[1..], mode);
    }
  }

  lemma QuietStep(e: Entry, ev: Event, mode: int)
    requires ShowsMode(e.state, mode) && mode >= 0 && IsQuiet(ev)
    ensures Step(e, ev).0.state == e.state && Step(e, ev).0.armMode == e.armMode
  {
  }

  /** Over every run whose last word on the state is a mode, that mode is what is shown. */
  lemma {:induction false} LastModeStands(e: Entry, evs: seq<Event>, i: int, mode: int)
    requires LastMode(evs, i, mode)
    ensures ShowsMode(After(e, evs).state, mode) && After(e, evs).armMode == Some(mode)
    decreases |evs|
  {
    hide ShowsMode;
    var e1, rest := Step(e, evs[0]).0, evs[1..];
    assert forall k :: 0 < k < |evs| ==> evs[k] == rest[k - 1];
    if i == 0 {
      ModeDecidesState(e, Some(mode), evs[0].reading);
      hide Apply;
      QuietKeepsMode(e1, rest, mode);
    } else {
      LastModeStands(e1, rest, i - 1, mode);
    }
  }

  /** The modes a subscriber cannot tell apart: those without a state of their own read as fully armed. */
  predicate SameClass(m1: int, m2: int) {
    m1 == m2 || ((m1 == 1 || m1 >= 5) && (m2 == 1 || m2 >= 5))
  }

  /** After any two such runs the same state is shown if and only if the modes last heard are of one class. */
  lemma StateTellsMode(e1: Entry, evs1: seq<Event>, i1: int, m1: int, e2: Entry, evs2: seq<Event>, i2: int, m2: int)
    requires LastMode(evs1, i1, m1) && LastMode(evs2, i2, m2)
    ensures After(e1, evs1).state == After(e2, evs2).state <==> SameClass(m1, m2)
  {
    LastModeStands(e1, evs1, i1, m1);
    LastModeStands(e2, evs2, i2, m2);
    hide After, LastMode;
  }

  /**
   * Forgetting leaves nothing shown, and keeps the memory and the mode: so the next reading that has a
   * state is reported, even if it is the state shown before.
   */
  lemma ForgettingRepublishes(e: Entry, mode: int)
    requires mode >= 0
    ensures Step(e, Forgets) == (Entry(None, e.preAlarmState, None, e.armMode), None)
    ensures Apply(Forget(e), StatusReport(Some(mode))).1.Some?
    ensures Apply(Forget(e), AlarmOn).1 == Some(Report(Triggered, None, e.armMode))
  {
  }
}
