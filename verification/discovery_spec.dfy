/**
 * Which Home Assistant discovery configs src/haDiscovery.js and src/haDiscoveryPublishers.js keep
 * retained on the broker, and the sets and replay cache they keep about them. Payload contents are
 * opaque; a topic is described by the parts of its name.
 */
module DiscoverySpec {
  import opened Options

  datatype Component =
    Light | BinarySensor | Cover | Switch | EventEntity | Button | Climate | SceneEntity | Sensor | AlarmPanel

  datatype Part = Whole | ButtonPart | ScenePart | LoopFaultPart | Extra(tag: nat)

  /** The unique-id tail: one address of an application, or something of the network itself. */
  datatype Name = Address(app: nat, address: nat, part: Part) | NetworkWide(tag: nat)

  /** `{prefix}/{component}/cgateweb_{network}_{name}/config`, or the network's own status sensor. */
  datatype Topic = Entity(component: Component, network: nat, name: Name) | StatusSensor(network: nat)

  type Payload = nat

  datatype Settings = Settings(enabled: bool, typeFromUnit: bool, unlistedGroups: bool)

  const LIGHTING_APP: nat := 56

  datatype Kind = Cni | Clock | Temperature | Measurement | SecurityZone | SecurityPanel | NativeAircon

  datatype Key = Key(kind: Kind, network: nat, app: nat, unit: nat)

  datatype GroupAddress = GroupAddress(network: nat, app: nat, address: nat)

  datatype State = State(
    cache: map<Topic, Payload>,
    broker: map<Topic, Payload>,
    published: set<Topic>,
    run: Option<set<Topic>>,
    eventDriven: set<Topic>,
    sensors: set<nat>,
    seen: set<Key>,
    treeGroups: set<GroupAddress>,
    unlistedSeen: set<GroupAddress>)

  // The wrapped publish function and the ways of finishing or taking back an entity.

  function Publish(s: State, t: Topic, p: Payload): State {
    s.(cache := s.cache[t := p], broker := s.broker[t := p])
  }

  function Retract(s: State, t: Topic): State {
    s.(cache := s.cache - {t}, broker := s.broker - {t})
  }

  function FinishTree(s: State, t: Topic, p: Payload): State {
    var s1 := Publish(s, t, p);
    if s1.run.Some? then s1.(run := Some(s1.run.value + {t})) else s1
  }

  function FinishEventDriven(s: State, t: Topic, p: Payload): State {
    var s1 := Publish(s, t, p);
    s1.(published := s1.published + {t}, eventDriven := s1.eventDriven + {t})
  }

  function RetractEventDriven(s: State, t: Topic): State {
    var s1 := Retract(s, t);
    s1.(published := s1.published - {t}, eventDriven := s1.eventDriven - {t})
  }

  function ClearStale(s: State, t: Topic): State {
    var s1 := Retract(s, t);
    s1.(published := s1.published - {t})
  }

  // One group of a tree run.

  /** What label overrides, name heuristics and the driving units made of a group. */
  datatype Outcome =
    | Excluded
    | AsLight(payload: Payload)
    | AsInput(payload: Payload)
    | AsTyped(component: Component, payload: Payload)
    | AsTrigger(event: Payload, button: Payload, scene: Option<Payload>)

  datatype Group = Group(app: nat, address: nat, outcome: Outcome)

  /** Lights and input sensors exist only on the lighting application, input sensors only with the feature on. */
  predicate Possible(c: Settings, g: Group) {
    match g.outcome
    case AsLight(_) => g.app == LIGHTING_APP
    case AsInput(_) => g.app == LIGHTING_APP && c.typeFromUnit
    case AsTyped(component, _) => component != Light
    case _ => true
  }

  datatype Action = Announce(topic: Topic, payload: Payload) | Clear(topic: Topic)

  function TopicOf(n: nat, g: Group, k: Component, part: Part): Topic {
    Entity(k, n, Address(g.app, g.address, part))
  }

  /** A group that left the light domain takes back the light an earlier run may have announced. */
  function ClearLight(n: nat, g: Group): seq<Action> {
    if g.app == LIGHTING_APP then [Clear(TopicOf(n, g, Light, Whole))] else []
  }

  function Actions(c: Settings, n: nat, g: Group): seq<Action> {
    match g.outcome
    case Excluded => []
    case AsLight(p) =>
      [Announce(TopicOf(n, g, Light, Whole), p)]
      + if c.typeFromUnit then [Clear(TopicOf(n, g, BinarySensor, Whole))] else []
    case AsInput(p) =>
      [Announce(TopicOf(n, g, BinarySensor, Whole), p), Clear(TopicOf(n, g, Light, Whole))]
    case AsTyped(k, p) =>
      [Announce(TopicOf(n, g, k, Whole), p)] + ClearLight(n, g)
    case AsTrigger(event, button, scene) =>
      [Announce(TopicOf(n, g, EventEntity, Whole), event), Announce(TopicOf(n, g, Button, ButtonPart), button)]
      + (if scene.Some? then [Announce(TopicOf(n, g, SceneEntity, ScenePart), scene.value)] else [])
      + ClearLight(n, g)
  }

  function Act(s: State, a: Action): State {
    match a
    case Announce(t, p) => FinishTree(s, t, p)
    case Clear(t) => ClearStale(s, t)
  }

  function ActAll(s: State, actions: seq<Action>): State
    decreases |actions|
  {
    if actions == [] then s else ActAll(Act(s, actions[0]), actions[1..])
  }

  function ProcessGroup(c: Settings, s: State, n: nat, g: Group, recording: bool): State {
    var s1 := if recording then s.(treeGroups := s.treeGroups + {GroupAddress(n, g.app, g.address)}) else s;
    ActAll(s1, Actions(c, n, g))
  }

  function ProcessGroups(c: Settings, s: State, n: nat, groups: seq<Group>): State
    decreases |groups|
  {
    if groups == [] then s
    else ProcessGroups(c, ProcessGroup(c, s, n, groups[0], true), n, groups[1..])
  }

  // Entities announced by bus traffic.

  datatype Announcement = Announcement(key: Key, excluded: bool, creates: seq<(Topic, Payload)>, retracts: seq<Topic>)

  /** A security zone: its state sensor and its loop-fault sensor, announced or retracted together. */
  function ZoneAnnouncement(n: nat, app: nat, zone: nat, excluded: bool, state: Payload,
                            loopFault: Payload): Announcement
  {
    var sensor := Entity(BinarySensor, n, Address(app, zone, Whole));
    var fault := Entity(BinarySensor, n, Address(app, zone, LoopFaultPart));
    Announcement(Key(SecurityZone, n, app, zone), excluded, [(sensor, state), (fault, loopFault)], [sensor, fault])
  }

  function CreateAll(s: State, creates: seq<(Topic, Payload)>): State
    decreases |creates|
  {
    if creates == [] then s else CreateAll(FinishEventDriven(s, creates[0].0, creates[0].1), creates[1..])
  }

  function RetractEach(s: State, topics: seq<Topic>): State
    decreases |topics|
  {
    if topics == [] then s else RetractEach(RetractEventDriven(s, topics[0]), topics[1..])
  }

  function Ensure(c: Settings, s: State, e: Announcement): State {
    if !c.enabled || e.key in s.seen then s
    else
      var s1 := if e.excluded then RetractEach(s, e.retracts) else CreateAll(s, e.creates);
      s1.(seen := s1.seen + {e.key})
  }

  function EnsureAll(c: Settings, s: State, es: seq<Announcement>): State
    decreases |es|
  {
    if es == [] then s else EnsureAll(c, Ensure(c, s, es[0]), es[1..])
  }

  /** A changed or removed zone label forgets that the zone was announced; a changed one announces it again. */
  function Relabel(c: Settings, s: State, e: Announcement, again: bool): State {
    var s1 := s.(seen := s.seen - {e.key});
    if again then Ensure(c, s1, e) else s1
  }

  /** A group seen on the bus but in no tree; `eligible` when its application has an entity type for it. */
  function EnsureUnlisted(c: Settings, s: State, n: nat, g: Group, eligible: bool): State {
    var address := GroupAddress(n, g.app, g.address);
    if !c.enabled || !c.unlistedGroups || address in s.treeGroups || address in s.unlistedSeen || !eligible then s
    else
      var own := s.run.None?;
      var s1 := if own then s.(run := Some({})) else s;
      var before := |s1.run.value|;
      var s2 := ProcessGroup(c, s1, n, g, false);
      Promote(s2.(unlistedSeen := s2.unlistedSeen + {address}), own, before)
  }

  /** Topics of an own run are promoted to the session; inside a tree run they are only marked. */
  function Promote(s: State, own: bool, before: nat): State {
    if s.run.None? then s
    else if own then s.(published := s.published + s.run.value, eventDriven := s.eventDriven + s.run.value, run := None)
    else if |s.run.value| > before then s.(eventDriven := s.eventDriven + s.run.value)
    else s
  }

  // Whole tree runs, removed networks, the status sensor.

  predicate OfNetwork(t: Topic, n: nat) {
    t.Entity? && t.network == n
  }

  function RetractSet(s: State, topics: set<Topic>): State {
    s.(cache := s.cache - topics, broker := s.broker - topics, published := s.published - topics)
  }

  function StaleTopics(s: State, n: nat): set<Topic> {
    set t | t in s.published && OfNetwork(t, n) && !(s.run.Some? && t in s.run.value) && t !in s.eventDriven
  }

  function FinishRun(s: State, n: nat): State {
    var s1 := RetractSet(s, StaleTopics(s, n));
    s1.(published := s1.published + (if s1.run.Some? then s1.run.value else {}), run := None)
  }

  /** `groups` are those that reach a processor, in order; `zones` the security zones labelled for the network. */
  datatype Plan = Plan(groups: seq<Group>, zones: seq<Announcement>)

  function TreeRun(c: Settings, s: State, n: nat, plan: Plan): State {
    var s1 := ProcessGroups(c, s.(run := Some({})), n, plan.groups);
    FinishRun(EnsureAll(c, s1, plan.zones), n)
  }

  /**
   * How far a run got before something threw: these group actions, these zones, of one more zone these
   * creations or retractions, and these clearings of the sweep.
   */
  datatype PartialRun = PartialRun(
    actions: seq<Action>,
    zones: seq<Announcement>,
    creates: seq<(Topic, Payload)>,
    retracts: seq<Topic>,
    swept: set<Topic>)

  function RunSoFar(c: Settings, s: State, r: PartialRun): State {
    RetractEach(CreateAll(EnsureAll(c, ActAll(s.(run := Some({})), r.actions), r.zones), r.creates), r.retracts)
  }

  /** A run that throws part-way: the rest of it and the merge are skipped. */
  function AbortedRun(c: Settings, s: State, r: PartialRun): State {
    RetractSet(RunSoFar(c, s, r), r.swept).(run := None)
  }

  function NetworkTopics(s: State, n: nat): set<Topic> {
    set t | t in s.published && OfNetwork(t, n)
  }

  function NetworkRemoved(c: Settings, s: State, n: nat): State {
    if !c.enabled then s
    else
      var s1 := RetractSet(s, NetworkTopics(s, n));
      if n in s1.sensors then Retract(s1, StatusSensor(n)).(sensors := s1.sensors - {n}) else s1
  }

  function SetStatus(c: Settings, s: State, n: nat, p: Payload): State {
    if !c.enabled || n in s.sensors then s else Publish(s, StatusSensor(n), p).(sensors := s.sensors + {n})
  }

  /** A broker restarts without its retained messages. */
  function Wipe(s: State): State {
    s.(broker := map[])
  }

  function Replay(s: State): State {
    s.(broker := s.broker + s.cache)
  }

  function Stop(s: State): State {
    s.(sensors := {})
  }

  // Histories.

  datatype Event =
    | TreeParsed(network: nat, plan: Plan)
    | Seen(e: Announcement)
    | Relabelled(e: Announcement, again: bool)
    | UnlistedSeen(network: nat, group: Group, eligible: bool)
    | Removed(network: nat)
    | Status(network: nat, payload: Payload)

  function Step(c: Settings, s: State, e: Event): State {
    match e
    case TreeParsed(n, plan) => TreeRun(c, s, n, plan)
    case Seen(a) => Ensure(c, s, a)
    case Relabelled(a, again) => Relabel(c, s, a, again)
    case UnlistedSeen(n, g, eligible) => EnsureUnlisted(c, s, n, g, eligible)
    case Removed(n) => NetworkRemoved(c, s, n)
    case Status(n, p) => SetStatus(c, s, n, p)
  }

  function Run(c: Settings, s: State, es: seq<Event>): State
    decreases |es|
  {
    if es == [] then s else Run(c, Step(c, s, es[0]), es[1..])
  }

  const INITIAL := State(map[], map[], {}, None, {}, {}, {}, {}, {})

  // What callers guarantee.

  predicate AnnouncementOk(e: Announcement) {
    && (forall i :: 0 <= i < |e.creates| ==> OfNetwork(e.creates[i].0, e.key.network))
    && (forall i :: 0 <= i < |e.retracts| ==> OfNetwork(e.retracts[i], e.key.network))
  }

  /** Every address once, every outcome possible, zones of the network itself. */
  predicate PlanOk(c: Settings, n: nat, plan: Plan) {
    && (forall i :: 0 <= i < |plan.groups| ==> Possible(c, plan.groups[i]))
    && (forall i, j :: 0 <= i < j < |plan.groups| ==> !SameAddress(plan.groups[i], plan.groups[j]))
    && (forall i :: 0 <= i < |plan.zones| ==> AnnouncementOk(plan.zones[i]) && plan.zones[i].key.network == n)
  }

  predicate SameAddress(g: Group, h: Group) {
    g.app == h.app && g.address == h.address
  }

  predicate EventOk(c: Settings, e: Event) {
    match e
    case TreeParsed(n, plan) => PlanOk(c, n, plan)
    case Seen(a) => AnnouncementOk(a)
    case Relabelled(a, _) => AnnouncementOk(a)
    case UnlistedSeen(_, g, _) => Possible(c, g)
    case _ => true
  }
}
