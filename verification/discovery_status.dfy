/** The status sensor of a network: when it is announced, told from the events alone. */
module DiscoveryStatus {
  import opened DiscoveryGuarantees
  import opened DiscoverySpec
  import opened Options

  /** What the sensor of n was announced with: the first status since the network was last removed. */
  function Sensor(es: seq<Event>, n: nat): Option<Payload>
    decreases |es|
  {
    if es == [] then None
    else
      var before, last := Sensor(es[..|es| - 1], n), es[|es| - 1];
      if last == Removed(n) then None
      else if before.None? && last.Status? && last.network == n then Some(last.payload)
      else before
  }

  lemma {:induction false} RunLast(c: Settings, s: State, es: seq<Event>)
    requires es != []
    ensures Run(c, s, es) == Step(c, Run(c, s, es[..|es| - 1]), es[|es| - 1])
    decreases |es|
  {
    hide Step;
    var front := es[..|es| - 1];
    if |es| == 1 {
      assert es[1..] == [] && front == [];
    } else {
      RunLast(c, Step(c, s, es[0]), es[1..]);
      assert es[1..][..|es| - 2] == front[1..];
    }
  }

  /** What is said of n's sensor: whether it counts as announced, and what is cached for it. */
  predicate SameSensor(s: State, s': State, n: nat) {
    && (n in s'.sensors <==> n in s.sensors)
    && (StatusSensor(n) in s'.cache <==> StatusSensor(n) in s.cache)
    && (StatusSensor(n) in s.cache ==> s'.cache[StatusSensor(n)] == s.cache[StatusSensor(n)])
  }

  lemma {:induction false} ActionsLeaveSensor(s: State, actions: seq<Action>, m: nat, n: nat)
    requires forall i :: 0 <= i < |actions| ==> OfNetwork(actions[i].topic, m)
    ensures SameSensor(s, ActAll(s, actions), n)
    decreases |actions|
  {
    if actions != [] {
      assert OfNetwork(actions[0].topic, m);
      ActionsLeaveSensor(Act(s, actions[0]), actions[1..], m, n);
    }
  }

  lemma {:induction false} GroupsLeaveSensor(c: Settings, s: State, m: nat, groups: seq<Group>, n: nat)
    ensures SameSensor(s, ProcessGroups(c, s, m, groups), n)
    decreases |groups|
  {
    if groups != [] {
      ActionsInNetwork(c, m, groups[0]);
      hide Actions, ActAll;
      var s1 := s.(treeGroups := s.treeGroups + {GroupAddress(m, groups[0].app, groups[0].address)});
      ActionsLeaveSensor(s1, Actions(c, m, groups[0]), m, n);
      GroupsLeaveSensor(c, ProcessGroup(c, s, m, groups[0], true), m, groups[1..], n);
    }
  }

  lemma EnsureLeavesSensor(c: Settings, s: State, e: Announcement, n: nat)
    requires AnnouncementOk(e)
    ensures SameSensor(s, Ensure(c, s, e), n)
  {
    var x := EffectOf(c, s.seen, e);
    EnsureMoves(c, s, e);
    EffectWithin(c, s.seen, e);
    assert StatusSensor(n) !in x.won && StatusSensor(n) !in x.lost by {
      assert !OfNetwork(StatusSensor(n), e.key.network);
    }
    hide Ensure, EffectOf, AnnouncementOk;
  }

  lemma {:induction false} ZonesLeaveSensor(c: Settings, s: State, zones: seq<Announcement>, n: nat)
    requires forall i :: 0 <= i < |zones| ==> AnnouncementOk(zones[i])
    ensures SameSensor(s, EnsureAll(c, s, zones), n)
    decreases |zones|
  {
    if zones != [] {
      EnsureLeavesSensor(c, s, zones[0], n);
      hide Ensure, AnnouncementOk;
      ZonesLeaveSensor(c, Ensure(c, s, zones[0]), zones[1..], n);
    }
  }

  lemma StepLeavesSensor(c: Settings, s: State, e: Event, n: nat)
    requires EventOk(c, e) && !e.Status? && e != Removed(n)
    ensures SameSensor(s, Step(c, s, e), n)
  {
    match e
    case TreeParsed(m, plan) =>
      var s1 := s.(run := Some({}));
      GroupsLeaveSensor(c, s1, m, plan.groups, n);
      ZonesLeaveSensor(c, ProcessGroups(c, s1, m, plan.groups), plan.zones, n);
      hide ProcessGroups, EnsureAll, PlanOk;
    case Seen(a) =>
      EnsureLeavesSensor(c, s, a, n);
      hide Ensure;
    case Relabelled(a, again) =>
      EnsureLeavesSensor(c, s.(seen := s.seen - {a.key}), a, n);
      hide Ensure;
    case UnlistedSeen(m, g, eligible) =>
      ActionsInNetwork(c, m, g);
      ActionsLeaveSensor(s.(run := Some({})), Actions(c, m, g), m, n);
      ActionsLeaveSensor(s, Actions(c, m, g), m, n);
      hide Actions, ActAll;
    case Removed(m) =>
  }

  /**
   * Over every history: a network's status sensor is announced exactly if a status was heard since the
   * network was last removed, and still with the payload of the first one; with discovery off, never.
   */
  lemma {:induction false} SensorIsHistory(c: Settings, es: seq<Event>, n: nat)
    requires forall i :: 0 <= i < |es| ==> EventOk(c, es[i])
    ensures var s, sensor := Run(c, INITIAL, es), if c.enabled then Sensor(es, n) else None;
            && (n in s.sensors <==> sensor.Some?) && (StatusSensor(n) in s.cache <==> sensor.Some?)
            && (sensor.Some? ==> s.cache[StatusSensor(n)] == sensor.value)
    decreases |es|
  {
    if es != [] {
      var front, last := es[..|es| - 1], es[|es| - 1];
      RunLast(c, INITIAL, es);
      SensorIsHistory(c, front, n);
      hide Run, EventOk;
      assert EventOk(c, last);
      if !last.Status? && last != Removed(n) {
        StepLeavesSensor(c, Run(c, INITIAL, front), last, n);
        hide Step;
      }
    }
  }
}
