/**
 * The tracker of src/securityPanelState.js: panel-wide conditions reported as changes, zone
 * isolation, the alarm entity, and the snapshot that survives a restart.
 */
module SecurityPanel {
  import opened Options
  import opened PanelAlarm

  datatype Condition = Mains | Battery | Tamper | Panic | Line | ArmFailed | Fire | Gas | OtherAlarm

  /** Every condition, in display order. */
  const TROUBLE_CONDITIONS: seq<Condition> := [Mains, Battery, Tamper, Panic, Line, ArmFailed, Fire, Gas, OtherAlarm]

  /** What a disarm clears, and what a successful arm retires. */
  const CLEARED_ON_DISARM: seq<Condition> := [Panic, ArmFailed, Fire, Gas, OtherAlarm]
  const CLEARED_ON_ARM: seq<Condition> := [ArmFailed]

  lemma EveryConditionListed(c: Condition)
    ensures c in TROUBLE_CONDITIONS
  {
    assert TROUBLE_CONDITIONS[0] == Mains && TROUBLE_CONDITIONS[1] == Battery && TROUBLE_CONDITIONS[2] == Tamper;
    assert TROUBLE_CONDITIONS[3] == Panic && TROUBLE_CONDITIONS[4] == Line && TROUBLE_CONDITIONS[5] == ArmFailed;
    assert TROUBLE_CONDITIONS[6] == Fire && TROUBLE_CONDITIONS[7] == Gas && TROUBLE_CONDITIONS[8] == OtherAlarm;
  }

  type Conditions = map<Condition, bool>

  datatype Change = Change(condition: Condition, active: bool)

  predicate Complete(m: Conditions) {
    forall c: Condition :: c in m
  }

  /** Conditions never heard of are assumed healthy. */
  const HEALTHY: Conditions := map[Mains := false, Battery := false, Tamper := false, Panic := false, Line := false,
                                   ArmFailed := false, Fire := false, Gas := false, OtherAlarm := false]

  lemma HealthyIsComplete()
    ensures Complete(HEALTHY) && forall c :: !HEALTHY[c]
  {
    forall c: Condition ensures c in HEALTHY && !HEALTHY[c] {
      match c
      case Mains =>
      case Battery =>
      case Tamper =>
      case Panic =>
      case Line =>
      case ArmFailed =>
      case Fire =>
      case Gas =>
      case OtherAlarm =>
    }
  }

  /** Sets one condition and reports it only if it changed. */
  function SetOne(m: Conditions, c: Condition, active: bool): (Conditions, seq<Change>)
    requires Complete(m)
  {
    if m[c] == active then (m, []) else (m[c := active], [Change(c, active)])
  }

  function ClearEach(m: Conditions, cs: seq<Condition>): (r: (Conditions, seq<Change>))
    requires Complete(m)
    ensures Complete(r.0)
  {
    if cs == [] then (m, [])
    else
      var (m1, first) := SetOne(m, cs[0], false);
      var (m2, rest) := ClearEach(m1, cs[1..]);
      (m2, first + rest)
  }

  /** What one reading says about the panel's conditions. */
  datatype Trouble =
    | PanelTrouble(condition: Condition, active: bool)
    | Armed(mode: Option<int>)
    | Seed(tamper: Option<bool>, panic: Option<bool>)
    | NoTrouble

  /** The conditions after a reading, and the changes to publish. */
  function ApplyTrouble(m: Conditions, t: Trouble): (r: (Conditions, seq<Change>))
    requires Complete(m)
    ensures Complete(r.0)
  {
    match t
    case PanelTrouble(c, active) => SetOne(m, c, active)
    case Armed(mode) => ClearEach(m, if mode == Some(0) then CLEARED_ON_DISARM else CLEARED_ON_ARM)
    case Seed(tamper, panic) =>
      var (m1, first) := if tamper.Some? then SetOne(m, Tamper, tamper.value) else (m, []);
      var (m2, second) := if panic.Some? then SetOne(m1, Panic, panic.value) else (m1, []);
      (m2, first + second)
    case NoTrouble => (m, [])
  }

  lemma {:induction false} ClearEachAt(m: Conditions, cs: seq<Condition>, c: Condition)
    requires Complete(m)
    ensures ClearEach(m, cs).0[c] == (m[c] && c !in cs)
  {
    if cs != [] {
      assert c in cs <==> c == cs[0] || c in cs[1..] by {
        assert cs == [cs[0]] + cs[1..];
      }
      ClearEachAt(SetOne(m, cs[0], false).0, cs[1..], c);
    }
  }

  /**
   * What becomes of each condition: a disarm ends panic, a failed arm, fire, gas and other alarms; any
   * other arming a failed arm only; tamper, mains, battery and line faults end only when the panel says so.
   */
  lemma ReadingDecidesCondition(m: Conditions, c: Condition)
    requires Complete(m)
    ensures ApplyTrouble(m, Armed(Some(0))).0[c] == (m[c] && c in {Mains, Battery, Tamper, Line})
    ensures forall mode :: mode != Some(0) ==> ApplyTrouble(m, Armed(mode)).0[c] == (m[c] && c != ArmFailed)
    ensures forall k, active :: ApplyTrouble(m, PanelTrouble(k, active)).0[c] == if c == k then active else m[c]
    ensures forall tamper, panic ::
              ApplyTrouble(m, Seed(tamper, panic)).0[c] == match c
                                                           case Tamper => tamper.GetOr(m[c])
                                                           case Panic => panic.GetOr(m[c])
                                                           case _ => m[c]
    ensures ApplyTrouble(m, NoTrouble).0[c] == m[c]
  {
    ClearEachAt(m, CLEARED_ON_DISARM, c);
    ClearEachAt(m, CLEARED_ON_ARM, c);
    hide ClearEach;
    var cs := CLEARED_ON_DISARM;
    assert cs[0] == Panic && cs[1] == ArmFailed && cs[2] == Fire && cs[3] == Gas && cs[4] == OtherAlarm;
    match c
    case Mains =>
    case Battery =>
    case Tamper =>
    case Panic =>
    case Line =>
    case ArmFailed =>
    case Fire =>
    case Gas =>
    case OtherAlarm =>
  }

  /** A consumer that folds in every change it is told about. */
  function Fold(m: Conditions, changes: seq<Change>): Conditions
    decreases |changes|
  {
    if changes == [] then m else Fold(m[changes[0].condition := changes[0].active], changes[1..])
  }

  lemma {:induction false} FoldAppend(m: Conditions, a: seq<Change>, b: seq<Change>)
    ensures Fold(m, a + b) == Fold(Fold(m, a), b)
    decreases |a|
  {
    if a == [] {
      assert a + b == b;
    } else {
      assert (a + b)[0] == a[0] && (a + b)[1..] == a[1..] + b;
      FoldAppend(m[a[0].condition := a[0].active], a[1..], b);
    }
  }

  lemma FoldOne(m: Conditions, c: Condition, active: bool)
    requires Complete(m)
    ensures Fold(m, SetOne(m, c, active).1) == SetOne(m, c, active).0
  {
    var (m', changes) := SetOne(m, c, active);
    if changes != [] {
      assert changes[1..] == [];
      assert Fold(m', changes[1..]) == m';
    }
  }

  lemma {:induction false} FoldClears(m: Conditions, cs: seq<Condition>)
    requires Complete(m)
    ensures Fold(m, ClearEach(m, cs).1) == ClearEach(m, cs).0
  {
    if cs != [] {
      var (m1, first) := SetOne(m, cs[0], false);
      FoldOne(m, cs[0], false);
      FoldClears(m1, cs[1..]);
      FoldAppend(m, first, ClearEach(m1, cs[1..]).1);
    }
  }

  /** The reported changes are exactly what turns the old conditions into the new ones. */
  lemma ChangesAreComplete(m: Conditions, t: Trouble)
    requires Complete(m)
    ensures Fold(m, ApplyTrouble(m, t).1) == ApplyTrouble(m, t).0
  {
    match t
    case PanelTrouble(c, active) => FoldOne(m, c, active);
    case Armed(mode) => FoldClears(m, if mode == Some(0) then CLEARED_ON_DISARM else CLEARED_ON_ARM);
    case Seed(tamper, panic) =>
      var (m1, first) := if tamper.Some? then SetOne(m, Tamper, tamper.value) else (m, []);
      var (_, second) := if panic.Some? then SetOne(m1, Panic, panic.value) else (m1, []);
      if tamper.Some? {
        FoldOne(m, Tamper, tamper.value);
      }
      if panic.Some? {
        FoldOne(m1, Panic, panic.value);
      }
      FoldAppend(m, first, second);
    case NoTrouble =>
  }

  function Readings(m: Conditions, ts: seq<Trouble>): (r: (Conditions, seq<Change>))
    requires Complete(m)
    ensures Complete(r.0)
    decreases |ts|
  {
    if ts == [] then (m, [])
    else
      var (m1, changes) := ApplyTrouble(m, ts[0]);
      var (m2, more) := Readings(m1, ts[1..]);
      (m2, changes + more)
  }

  /** A consumer that started from any known state and folded every change holds the tracker's conditions. */
  lemma {:induction false} ConsumerAgrees(m: Conditions, ts: seq<Trouble>)
    requires Complete(m)
    ensures Fold(m, Readings(m, ts).1) == Readings(m, ts).0
    decreases |ts|
  {
    if ts != [] {
      var (m1, changes) := ApplyTrouble(m, ts[0]);
      ChangesAreComplete(m, ts[0]);
      ConsumerAgrees(m1, ts[1..]);
      FoldAppend(m, changes, Readings(m1, ts[1..]).1);
    }
  }

  /** Every reported change is news: it differs from what the consumer already holds. */
  predicate News(m: Conditions, changes: seq<Change>)
    requires Complete(m)
    decreases |changes|
  {
    changes == []
    || (m[changes[0].condition] != changes[0].active
        && News(m[changes[0].condition := changes[0].active], changes[1..]))
  }

  lemma {:induction false} NewsAppend(m: Conditions, a: seq<Change>, b: seq<Change>)
    requires Complete(m) && Complete(Fold(m, a)) && News(m, a) && News(Fold(m, a), b)
    ensures News(m, a + b)
    decreases |a|
  {
    if a == [] {
      assert a + b == b;
    } else {
      assert (a + b)[0] == a[0] && (a + b)[1..] == a[1..] + b;
      NewsAppend(m[a[0].condition := a[0].active], a[1..], b);
    }
  }

  lemma {:induction false} ClearsAreNews(m: Conditions, cs: seq<Condition>)
    requires Complete(m)
    ensures News(m, ClearEach(m, cs).1)
  {
    if cs != [] {
      var (m1, first) := SetOne(m, cs[0], false);
      FoldOne(m, cs[0], false);
      ClearsAreNews(m1, cs[1..]);
      NewsAppend(m, first, ClearEach(m1, cs[1..]).1);
    }
  }

  lemma ChangesAreNews(m: Conditions, t: Trouble)
    requires Complete(m)
    ensures News(m, ApplyTrouble(m, t).1)
  {
    match t
    case PanelTrouble(c, active) =>
    case Armed(mode) => ClearsAreNews(m, if mode == Some(0) then CLEARED_ON_DISARM else CLEARED_ON_ARM);
    case Seed(tamper, panic) =>
      var (m1, first) := if tamper.Some? then SetOne(m, Tamper, tamper.value) else (m, []);
      var (_, second) := if panic.Some? then SetOne(m1, Panic, panic.value) else (m1, []);
      if tamper.Some? {
        FoldOne(m, Tamper, tamper.value);
      }
      NewsAppend(m, first, second);
    case NoTrouble =>
  }

  // Zones and the snapshot.

  /** The last reported state of each zone, and the zones bypassed for this armed period, oldest first. */
  datatype ZoneEntry = ZoneEntry(states: map<string, string>, isolated: seq<string>)

  const NO_ZONES := ZoneEntry(map[], [])

  ghost predicate DistinctZones(zones: seq<string>) {
    forall i, j :: 0 <= i < j < |zones| ==> zones[i] != zones[j]
  }

  function Include(zones: seq<string>, zone: string): seq<string> {
    if zone in zones then zones else zones + [zone]
  }

  /** A key of a snapshot entry: one of the tracker's own, or anything else a file may hold. */
  datatype Key = ConditionKey(condition: Condition) | IsolatedZonesKey | ForeignKey(name: string)

  /** A zone list keeps its string and number elements, as strings; others read as None. */
  datatype Json = BoolValue(value: bool) | ListValue(elements: seq<Option<string>>) | OtherValue

  type Snapshot = map<string, map<Key, Json>>

  /** One network of a snapshot. */
  function EntryFor(conditions: Option<Conditions>, isolated: seq<string>): map<Key, Json>
    requires conditions.Some? ==> Complete(conditions.value)
  {
    (if conditions.None? then map[]
     else map c | c in conditions.value :: ConditionKey(c) := BoolValue(conditions.value[c]))
    + (if isolated == [] then map[]
       else map[IsolatedZonesKey := ListValue(seq(|isolated|, i requires 0 <= i < |isolated| => Some(isolated[i])))])
  }

  lemma EntryWithZones(conditions: Option<Conditions>, isolated: seq<string>)
    requires conditions.Some? ==> Complete(conditions.value)
    requires isolated != []
    ensures var zones := seq(|isolated|, i requires 0 <= i < |isolated| => Some(isolated[i]));
            EntryFor(conditions, isolated) == EntryFor(conditions, []) + map[IsolatedZonesKey := ListValue(zones)]
    ensures EntryFor(None, []) == map[]
  {
  }

  function RestoreConditions(m: Conditions, entry: map<Key, Json>): (r: Conditions)
    requires Complete(m)
    ensures Complete(r)
  {
    map c | c in m ::
      if ConditionKey(c) in entry && entry[ConditionKey(c)].BoolValue? then entry[ConditionKey(c)].value else m[c]
  }

  function IncludeAll(zones: seq<string>, elements: seq<Option<string>>): seq<string>
    decreases |elements|
  {
    if elements == [] then zones
    else IncludeAll(if elements[0].Some? then Include(zones, elements[0].value) else zones, elements[1..])
  }

  function RestoreIsolated(zones: seq<string>, entry: map<Key, Json>): seq<string> {
    if IsolatedZonesKey in entry && entry[IsolatedZonesKey].ListValue?
    then IncludeAll(zones, entry[IsolatedZonesKey].elements)
    else zones
  }

  lemma {:induction false} IncludeAllDistinct(before: seq<string>, zones: seq<string>, elements: seq<Option<string>>)
    requires DistinctZones(before + zones) && |elements| == |zones|
    requires forall i :: 0 <= i < |zones| ==> elements[i] == Some(zones[i])
    ensures IncludeAll(before, elements) == before + zones
    decreases |zones|
  {
    if zones == [] {
      assert before + zones == before;
    } else {
      var all := before + zones;
      assert all == (before + [zones[0]]) + zones[1..];
      assert all[|before|] == zones[0];
      assert forall i :: 0 <= i < |before| ==> all[i] == before[i];
      IncludeAllDistinct(before + [zones[0]], zones[1..], elements[1..]);
    }
  }

  /** A snapshot written and read back into a fresh tracker gives one network's panel state again. */
  lemma RoundTrip(conditions: Option<Conditions>, isolated: seq<string>)
    requires conditions.Some? ==> Complete(conditions.value)
    requires DistinctZones(isolated)
    ensures Complete(HEALTHY)
    ensures RestoreConditions(HEALTHY, EntryFor(conditions, isolated)) == conditions.GetOr(HEALTHY)
    ensures RestoreIsolated([], EntryFor(conditions, isolated)) == isolated
  {
    HealthyIsComplete();
    var entry := EntryFor(conditions, isolated);
    assert [] + isolated == isolated;
    if isolated != [] {
      IncludeAllDistinct([], isolated, entry[IsolatedZonesKey].elements);
    }
  }

  /** What a file holds beyond the tracker's own keys, or under them with another type, changes nothing. */
  lemma JunkIsIgnored(m: Conditions, zones: seq<string>, entry: map<Key, Json>, key: Key, junk: Json)
    requires Complete(m) && key !in entry
    requires match key
             case ConditionKey(_) => !junk.BoolValue?
             case IsolatedZonesKey => !junk.ListValue?
             case ForeignKey(_) => true
    ensures RestoreConditions(m, entry[key := junk]) == RestoreConditions(m, entry)
    ensures RestoreIsolated(zones, entry[key := junk]) == RestoreIsolated(zones, entry)
  {
  }

  class SecurityPanelState {
    var byNetwork: map<string, Conditions>
    var alarmByNetwork: map<string, Entry>
    var zonesByNetwork: map<string, ZoneEntry>

    ghost predicate Valid()
      reads this
    {
      && (forall n :: n in byNetwork ==> Complete(byNetwork[n]))
      && (forall n :: n in zonesByNetwork ==> DistinctZones(zonesByNetwork[n].isolated))
    }

    function ConditionsOf(n: string): Conditions
      reads this`byNetwork
    {
      if n in byNetwork then byNetwork[n] else HEALTHY
    }

    function AlarmOf(n: string): Entry
      reads this`alarmByNetwork
    {
      if n in alarmByNetwork then alarmByNetwork[n] else FRESH
    }

    function ZonesOf(n: string): ZoneEntry
      reads this`zonesByNetwork
    {
      if n in zonesByNetwork then zonesByNetwork[n] else NO_ZONES
    }

    lemma ConditionsComplete(n: string)
      requires Valid()
      ensures Complete(ConditionsOf(n)) && DistinctZones(ZonesOf(n).isolated)
    {
      HealthyIsComplete();
    }

    constructor ()
      ensures Valid() && byNetwork == map[] && alarmByNetwork == map[] && zonesByNetwork == map[]
    {
      byNetwork, alarmByNetwork, zonesByNetwork := map[], map[], map[];
    }

    method Set(n: string, c: Condition, active: bool) returns (changes: seq<Change>)
      requires Valid()
      modifies this`byNetwork
      ensures Valid() && Complete(old(ConditionsOf(n)))
      ensures (ConditionsOf(n), changes) == SetOne(old(ConditionsOf(n)), c, active)
      ensures forall m :: m != n ==> ConditionsOf(m) == old(ConditionsOf(m))
    {
      ConditionsComplete(n);
      var state := ConditionsOf(n);
      if n !in byNetwork {
        byNetwork := byNetwork[n := state];
      }
      if state[c] == active {
        return [];
      }
      byNetwork := byNetwork[n := state[c := active]];
      changes := [Change(c, active)];
    }

    method ApplyReading(n: string, t: Trouble) returns (changes: seq<Change>)
      requires Valid()
      modifies this`byNetwork
      ensures Valid() && Complete(old(ConditionsOf(n)))
      ensures (ConditionsOf(n), changes) == ApplyTrouble(old(ConditionsOf(n)), t)
      ensures forall m :: m != n ==> ConditionsOf(m) == old(ConditionsOf(m))
    {
      ConditionsComplete(n);
      changes := [];
      match t {
        case PanelTrouble(c, active) => changes := Set(n, c, active);
        case Armed(mode) =>
          changes := ClearConditions(n, if mode == Some(0) then CLEARED_ON_DISARM else CLEARED_ON_ARM);
        case Seed(tamper, panic) =>
          if tamper.Some? {
            changes := Set(n, Tamper, tamper.value);
          }
          if panic.Some? {
            var more := Set(n, Panic, panic.value);
            changes := changes + more;
          } else {
            assert changes + [] == changes;
          }
        case NoTrouble =>
      }
    }

    method ClearConditions(n: string, cs: seq<Condition>) returns (changes: seq<Change>)
      requires Valid()
      modifies this`byNetwork
      ensures Valid() && Complete(old(ConditionsOf(n)))
      ensures (ConditionsOf(n), changes) == ClearEach(old(ConditionsOf(n)), cs)
      ensures forall m :: m != n ==> ConditionsOf(m) == old(ConditionsOf(m))
    {
      ConditionsComplete(n);
      ghost var before := ConditionsOf(n);
      changes := [];
      assert cs[0..] == cs;
      for i := 0 to |cs|
        invariant Valid() && Complete(ConditionsOf(n))
        invariant ClearEach(before, cs).0 == ClearEach(ConditionsOf(n), cs[i..]).0
        invariant ClearEach(before, cs).1 == changes + ClearEach(ConditionsOf(n), cs[i..]).1
        invariant forall m :: m != n ==> ConditionsOf(m) == old(ConditionsOf(m))
      {
        ConditionsComplete(n);
        var more := Set(n, cs[i], false);
        ConditionsComplete(n);
        assert cs[i..][1..] == cs[i + 1..];
        changes := changes + more;
      }
      assert cs[|cs|..] == [] && changes + [] == changes;
    }

    /** Every condition of a network, in display order, for a consumer to start from. */
    method InitialStates(n: string) returns (changes: seq<Change>)
      requires Valid()
      modifies this`byNetwork
      ensures Valid() && forall m :: ConditionsOf(m) == old(ConditionsOf(m))
      ensures Complete(ConditionsOf(n)) && |changes| == |TROUBLE_CONDITIONS|
      ensures forall i :: 0 <= i < |changes| ==>
                            changes[i] == Change(TROUBLE_CONDITIONS[i], ConditionsOf(n)[TROUBLE_CONDITIONS[i]])
    {
      ConditionsComplete(n);
      var state := ConditionsOf(n);
      byNetwork := byNetwork[n := state];
      changes := [];
      for i := 0 to |TROUBLE_CONDITIONS|
        invariant |changes| == i
        invariant forall j :: 0 <= j < i ==> changes[j] == Change(TROUBLE_CONDITIONS[j], state[TROUBLE_CONDITIONS[j]])
      {
        changes := changes + [Change(TROUBLE_CONDITIONS[i], state[TROUBLE_CONDITIONS[i]])];
      }
    }

    // The alarm entity.

    method ApplyAlarmReading(n: string, r: Reading) returns (report: Option<Report>)
      modifies this`alarmByNetwork
      ensures (AlarmOf(n), report) == Apply(old(AlarmOf(n)), r)
      ensures forall m :: m != n ==> AlarmOf(m) == old(AlarmOf(m))
    {
      var entry := AlarmOf(n);
      alarmByNetwork := alarmByNetwork[n := entry];
      var target: Option<AlarmState> := None;
      var blockingZone: Option<string> := None;
      var armMode := entry.armMode;
      match r {
        case SystemArm(mode) =>
          target := AlarmStateForArmMode(mode);
          armMode := if mode.Some? then mode else armMode;
        case StatusReport(armState) =>
          target := AlarmStateForArmMode(armState);
          armMode := if armState.Some? then armState else armMode;
        case ExitDelayStarted =>
          target := Some(Arming);
        case EntryDelayStarted =>
          if entry.state == Some(Triggered) {
            return None;
          }
          if entry.state.Some? && IsArmed(entry.state.value) {
            entry := entry.(preAlarmState := entry.state);
          }
          target := Some(Pending);
        case ArmNotReady(zone) =>
          if !IsIdle(entry.state) {
            return None;
          }
          target := Some(Disarmed);
          blockingZone := NamedZone(zone);
        case ArmReady =>
          if !IsIdle(entry.state) {
            return None;
          }
          target := Some(Disarmed);
        case AlarmOn =>
          if entry.state != Some(Triggered) && entry.state != Some(Pending) {
            entry := entry.(preAlarmState := entry.state);
          }
          target := Some(Triggered);
        case AlarmOff =>
          target := entry.preAlarmState;
          entry := entry.(preAlarmState := None);
        case OtherReading =>
          return None;
      }
      alarmByNetwork := alarmByNetwork[n := entry];
      if target.None? {
        return None;
      }
      if entry.state == target && entry.blockingZone == blockingZone && entry.armMode == armMode {
        return None;
      }
      entry := entry.(state := target, blockingZone := blockingZone, armMode := armMode);
      alarmByNetwork := alarmByNetwork[n := entry];
      report := Some(Report(target.value, blockingZone, armMode));
    }

    method ForgetAlarmState(n: string)
      modifies this`alarmByNetwork
      ensures AlarmOf(n) == Forget(old(AlarmOf(n)))
      ensures forall m :: m != n ==> AlarmOf(m) == old(AlarmOf(m))
    {
      if n !in alarmByNetwork {
        return;
      }
      alarmByNetwork := alarmByNetwork[n := alarmByNetwork[n].(state := None, blockingZone := None)];
    }

    // Zone isolation.

    method NoteZoneState(n: string, zone: string, zoneState: string)
      requires Valid()
      modifies this`zonesByNetwork
      ensures Valid()
      ensures ZonesOf(n) == if zoneState == "" then old(ZonesOf(n))
                            else old(ZonesOf(n)).(states := old(ZonesOf(n)).states[zone := zoneState])
      ensures forall m :: m != n ==> ZonesOf(m) == old(ZonesOf(m))
    {
      if zoneState == "" {
        return;
      }
      var entry := ZonesOf(n);
      zonesByNetwork := zonesByNetwork[n := entry.(states := entry.states[zone := zoneState])];
    }

    /** True exactly when this call changed the zone. */
    method SetZoneIsolated(n: string, zone: string) returns (changed: bool)
      requires Valid()
      modifies this`zonesByNetwork
      ensures Valid() && (changed <==> zone !in old(ZonesOf(n)).isolated)
      ensures ZonesOf(n) == old(ZonesOf(n)).(isolated := Include(old(ZonesOf(n)).isolated, zone))
      ensures forall m :: m != n ==> ZonesOf(m) == old(ZonesOf(m))
    {
      var entry := ZonesOf(n);
      zonesByNetwork := zonesByNetwork[n := entry];
      if zone in entry.isolated {
        return false;
      }
      zonesByNetwork := zonesByNetwork[n := entry.(isolated := entry.isolated + [zone])];
      changed := true;
    }

    /** Ends the armed period: nothing stays isolated, and each dropped zone is reported with its last state. */
    method ClearZoneIsolation(n: string) returns (cleared: seq<(string, Option<string>)>)
      requires Valid()
      modifies this`zonesByNetwork
      ensures Valid() && ZonesOf(n) == old(ZonesOf(n)).(isolated := [])
      ensures |cleared| == |old(ZonesOf(n)).isolated|
      ensures forall i :: 0 <= i < |cleared| ==>
                            && cleared[i].0 == old(ZonesOf(n)).isolated[i]
                            && cleared[i].1 == (if cleared[i].0 in ZonesOf(n).states
                                                then Some(ZonesOf(n).states[cleared[i].0]) else None)
      ensures forall m :: m != n ==> ZonesOf(m) == old(ZonesOf(m))
    {
      if n !in zonesByNetwork || zonesByNetwork[n].isolated == [] {
        return [];
      }
      var entry := zonesByNetwork[n];
      cleared := [];
      for i := 0 to |entry.isolated|
        invariant |cleared| == i
        invariant forall j :: 0 <= j < i ==>
                                && cleared[j].0 == entry.isolated[j]
                                && cleared[j].1 == (if cleared[j].0 in entry.states
                                                    then Some(entry.states[cleared[j].0]) else None)
      {
        var zone := entry.isolated[i];
        cleared := cleared + [(zone, if zone in entry.states then Some(entry.states[zone]) else None)];
      }
      zonesByNetwork := zonesByNetwork[n := entry.(isolated := [])];
    }

    // Persistence.

    /** Each network's conditions and isolated zones; networks with neither are not written. */
    method ToJson() returns (out: Snapshot)
      requires Valid()
      ensures forall n :: n in out <==> n in byNetwork || ZonesOf(n).isolated != []
      ensures forall n :: n in out ==>
                            out[n] == EntryFor(if n in byNetwork then Some(byNetwork[n]) else None, ZonesOf(n).isolated)
    {
      hide EntryFor;
      out := map n | n in byNetwork :: EntryFor(Some(byNetwork[n]), []);
      var left := zonesByNetwork.Keys;
      while left != {}
        invariant left <= zonesByNetwork.Keys
        invariant forall n :: n in out <==>
                                n in byNetwork || (n in zonesByNetwork.Keys - left && zonesByNetwork[n].isolated != [])
        invariant forall n :: n in out ==>
                                out[n] == EntryFor(if n in byNetwork then Some(byNetwork[n]) else None,
                                                   if n in left then [] else ZonesOf(n).isolated)
        decreases left
      {
        var n :| n in left;
        left := left - {n};
        var isolated := zonesByNetwork[n].isolated;
        if isolated != [] {
          EntryWithZones(if n in byNetwork then Some(byNetwork[n]) else None, isolated);
          var entry := if n in out then out[n] else map[];
          var zones := seq(|isolated|, i requires 0 <= i < |isolated| => Some(isolated[i]));
          out := out[n := entry + map[IsolatedZonesKey := ListValue(zones)]];
        }
      }
    }

    method Restore(data: Snapshot)
      requires Valid()
      modifies this`byNetwork, this`zonesByNetwork
      ensures Valid()
      ensures forall n :: Complete(old(ConditionsOf(n)))
      ensures forall n :: n in data ==>
                            && ConditionsOf(n) == RestoreConditions(old(ConditionsOf(n)), data[n])
                            && ZonesOf(n) == old(ZonesOf(n)).(
                                 isolated := RestoreIsolated(old(ZonesOf(n)).isolated, data[n]))
      ensures forall n :: n !in data ==> ConditionsOf(n) == old(ConditionsOf(n)) && ZonesOf(n) == old(ZonesOf(n))
    {
      HealthyIsComplete();
      assert forall n :: Complete(ConditionsOf(n));
      hide Complete, RestoreConditions, RestoreIsolated;
      var left := data.Keys;
      ghost var done := {};
      while left != {}
        invariant Valid() && done + left == data.Keys && done !! left
        invariant forall n :: n in done ==>
                                && ConditionsOf(n) == RestoreConditions(old(ConditionsOf(n)), data[n])
                                && ZonesOf(n) == old(ZonesOf(n)).(
                                     isolated := RestoreIsolated(old(ZonesOf(n)).isolated, data[n]))
        invariant forall n :: n !in done ==> ConditionsOf(n) == old(ConditionsOf(n)) && ZonesOf(n) == old(ZonesOf(n))
        decreases left
      {
        var n :| n in left;
        left := left - {n};
        done := done + {n};
        RestoreNetwork(n, data[n]);
      }
    }

    method RestoreNetwork(n: string, entry: map<Key, Json>)
      requires Valid()
      modifies this`byNetwork, this`zonesByNetwork
      ensures Valid() && Complete(old(ConditionsOf(n)))
      ensures ConditionsOf(n) == RestoreConditions(old(ConditionsOf(n)), entry)
      ensures ZonesOf(n) == old(ZonesOf(n)).(isolated := RestoreIsolated(old(ZonesOf(n)).isolated, entry))
      ensures forall m :: m != n ==> ConditionsOf(m) == old(ConditionsOf(m)) && ZonesOf(m) == old(ZonesOf(m))
    {
      ConditionsComplete(n);
      var target := RestoredConditions(ConditionsOf(n), entry);
      hide RestoreConditions, RestoreIsolated;
      byNetwork := byNetwork[n := target];
      RestoreZones(n, entry);
    }

    method RestoreZones(n: string, entry: map<Key, Json>)
      requires Valid()
      modifies this`zonesByNetwork
      ensures Valid()
      ensures ZonesOf(n) == old(ZonesOf(n)).(isolated := RestoreIsolated(old(ZonesOf(n)).isolated, entry))
      ensures forall m :: m != n ==> ZonesOf(m) == old(ZonesOf(m))
    {
      ConditionsComplete(n);
      hide Complete;
      if IsolatedZonesKey in entry && entry[IsolatedZonesKey].ListValue? {
        var zones := ZonesOf(n);
        var isolated := RestoredIsolation(zones.isolated, entry[IsolatedZonesKey].elements);
        zonesByNetwork := zonesByNetwork[n := zones.(isolated := isolated)];
      }
    }

    static method RestoredConditions(m: Conditions, entry: map<Key, Json>) returns (target: Conditions)
      requires Complete(m)
      ensures target == RestoreConditions(m, entry)
    {
      target := m;
      for i := 0 to |TROUBLE_CONDITIONS|
        invariant Complete(target)
        invariant forall c :: target[c] == if c in TROUBLE_CONDITIONS[..i] then RestoreConditions(m, entry)[c] else m[c]
      {
        var c := TROUBLE_CONDITIONS[i];
        if ConditionKey(c) in entry && entry[ConditionKey(c)].BoolValue? {
          target := target[c := entry[ConditionKey(c)].value];
        }
        assert TROUBLE_CONDITIONS[..i + 1] == TROUBLE_CONDITIONS[..i] + [c];
      }
      assert TROUBLE_CONDITIONS[..|TROUBLE_CONDITIONS|] == TROUBLE_CONDITIONS;
      forall c: Condition ensures c in TROUBLE_CONDITIONS {
        EveryConditionListed(c);
      }
    }

    static method RestoredIsolation(zones: seq<string>, elements: seq<Option<string>>) returns (isolated: seq<string>)
      requires DistinctZones(zones)
      ensures DistinctZones(isolated) && isolated == IncludeAll(zones, elements)
    {
      isolated := zones;
      for i := 0 to |elements|
        invariant DistinctZones(isolated)
        invariant IncludeAll(zones, elements) == IncludeAll(isolated, elements[i..])
      {
        assert elements[i..][1..] == elements[i + 1..];
        if elements[i].Some? {
          isolated := Include(isolated, elements[i].value);
        }
      }
    }
  }

  /** restore(toJSON(s)) into a fresh tracker agrees with s on every condition and every isolated zone. */
  method SaveAndRestore(s: SecurityPanelState) returns (t: SecurityPanelState)
    requires s.Valid()
    ensures t.Valid() && fresh(t)
    ensures forall n :: t.ConditionsOf(n) == s.ConditionsOf(n) && t.ZonesOf(n).isolated == s.ZonesOf(n).isolated
  {
    var snapshot := s.ToJson();
    t := new SecurityPanelState();
    t.Restore(snapshot);
    forall n ensures t.ConditionsOf(n) == s.ConditionsOf(n) && t.ZonesOf(n).isolated == s.ZonesOf(n).isolated {
      s.ConditionsComplete(n);
      RoundTrip(if n in s.byNetwork then Some(s.byNetwork[n]) else None, s.ZonesOf(n).isolated);
    }
  }
}
