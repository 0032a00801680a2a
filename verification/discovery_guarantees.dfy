/**
 * What the discovery bookkeeping keeps: the session's sets and the replay cache agree with the topics
 * retained on the broker, through every group, announcement and sweep. DiscoveryResults puts these
 * steps together into results about whole runs and histories.
 */
module DiscoveryGuarantees {
  import opened DiscoverySpec
  import opened Options

  /** A topic the books account for. */
  predicate Owned(s: State, t: Topic) {
    match t
    case StatusSensor(n) => n in s.sensors
    case Entity(_, _, _) => t in s.published || (s.run.Some? && t in s.run.value)
  }

  /** The replay cache holds exactly the topics accounted for. */
  ghost predicate Books(s: State) {
    && (forall t :: t in s.cache <==> Owned(s, t))
    && (forall t :: t in s.published ==> t.Entity?)
    && (s.run.Some? ==> forall t :: t in s.run.value ==> t.Entity?)
  }

  /**
   * The broker holds what the cache holds, and besides it only topics an earlier process left. While
   * `synced` is false the broker may have lost messages since.
   */
  ghost predicate Retained(cache: map<Topic, Payload>, broker: map<Topic, Payload>, earlier: set<Topic>, synced: bool) {
    && (forall t :: t in broker ==> if t in cache then broker[t] == cache[t] else t in earlier)
    && (synced ==> forall t :: t in cache ==> t in broker)
  }

  ghost predicate Good(s: State, earlier: set<Topic>, synced: bool) {
    Books(s) && Retained(s.cache, s.broker, earlier, synced)
  }

  /** Between operations. */
  ghost predicate Inv(s: State, earlier: set<Topic>, synced: bool) {
    Good(s, earlier, synced) && s.run.None?
  }

  /** Nothing about topics outside network n has changed. */
  ghost predicate OnlyNetwork(s: State, s': State, n: nat) {
    forall t :: !OfNetwork(t, n) ==>
      && (t in s.cache <==> t in s'.cache) && (t in s.cache ==> s.cache[t] == s'.cache[t])
      && (t in s.broker <==> t in s'.broker) && (t in s.broker ==> s.broker[t] == s'.broker[t])
      && (t in s.published <==> t in s'.published)
  }

  // What the actions of a group announce and clear.

  function Announced(actions: seq<Action>): set<Topic>
    decreases |actions|
  {
    if actions == [] then {}
    else (if actions[0].Announce? then {actions[0].topic} else {}) + Announced(actions[1..])
  }

  function Cleared(actions: seq<Action>): set<Topic>
    decreases |actions|
  {
    if actions == [] then {}
    else (if actions[0].Clear? then {actions[0].topic} else {}) + Cleared(actions[1..])
  }

  function AnnouncedBy(c: Settings, n: nat, groups: seq<Group>): set<Topic>
    decreases |groups|
  {
    if groups == [] then {} else Announced(Actions(c, n, groups[0])) + AnnouncedBy(c, n, groups[1..])
  }

  function ClearedBy(c: Settings, n: nat, groups: seq<Group>): set<Topic>
    decreases |groups|
  {
    if groups == [] then {} else Cleared(Actions(c, n, groups[0])) + ClearedBy(c, n, groups[1..])
  }

  predicate AtGroup(t: Topic, n: nat, g: Group) {
    t.Entity? && t.network == n && t.name.Address? && t.name.app == g.app && t.name.address == g.address
  }

  function LightOf(n: nat, g: Group): set<Topic> {
    if g.app == LIGHTING_APP then {TopicOf(n, g, Light, Whole)} else {}
  }

  lemma ActionTopics(c: Settings, n: nat, g: Group)
    ensures Announced(Actions(c, n, g)) ==
            match g.outcome
            case Excluded => {}
            case AsLight(_) => {TopicOf(n, g, Light, Whole)}
            case AsInput(_) => {TopicOf(n, g, BinarySensor, Whole)}
            case AsTyped(k, _) => {TopicOf(n, g, k, Whole)}
            case AsTrigger(_, _, scene) =>
              {TopicOf(n, g, EventEntity, Whole), TopicOf(n, g, Button, ButtonPart)}
              + if scene.Some? then {TopicOf(n, g, SceneEntity, ScenePart)} else {}
    ensures Cleared(Actions(c, n, g)) ==
            match g.outcome
            case Excluded => {}
            case AsLight(_) => if c.typeFromUnit then {TopicOf(n, g, BinarySensor, Whole)} else {}
            case AsInput(_) => {TopicOf(n, g, Light, Whole)}
            case _ => LightOf(n, g)
  {
    var light := TopicOf(n, g, Light, Whole);
    var tail := ClearLight(n, g);
    ClearLightIs(n, g);
    match g.outcome
    case Excluded =>
    case AsLight(p) =>
      AppendActions([Announce(light, p)], if c.typeFromUnit then [Clear(TopicOf(n, g, BinarySensor, Whole))] else []);
    case AsInput(p) =>
      AppendActions([Announce(TopicOf(n, g, BinarySensor, Whole), p)], [Clear(light)]);
    case AsTyped(k, p) =>
      AppendActions([Announce(TopicOf(n, g, k, Whole), p)], tail);
    case AsTrigger(event, button, scene) =>
      var first := Announce(TopicOf(n, g, EventEntity, Whole), event);
      var second := Announce(TopicOf(n, g, Button, ButtonPart), button);
      var third := if scene.Some? then [Announce(TopicOf(n, g, SceneEntity, ScenePart), scene.value)] else [];
      TopicsOfTwo(first, second, third, tail);
  }

  lemma TopicsOfTwo(first: Action, second: Action, third: seq<Action>, tail: seq<Action>)
    requires first.Announce? && second.Announce?
    ensures var actions := [first, second] + third + tail;
            && Announced(actions) == {first.topic, second.topic} + Announced(third) + Announced(tail)
            && Cleared(actions) == Cleared(third) + Cleared(tail)
  {
    AppendActions([first, second] + third, tail);
    AppendActions([first, second], third);
    AppendActions([first], [second]);
    assert [first] + [second] == [first, second];
  }

  /** All of a group's topics are its own, and it never clears what it announces. */
  lemma ActionsAreApart(c: Settings, n: nat, g: Group)
    requires Possible(c, g)
    ensures forall t :: t in Announced(Actions(c, n, g)) ==> AtGroup(t, n, g)
    ensures forall t :: t in Cleared(Actions(c, n, g)) ==> AtGroup(t, n, g)
    ensures Announced(Actions(c, n, g)) !! Cleared(Actions(c, n, g))
  {
    ActionTopics(c, n, g);
    hide Actions, Announced, Cleared;
  }

  /** A light is a matter of application 56: only there is one announced, and only there one is taken back. */
  lemma LightsAreLighting(c: Settings, n: nat, g: Group)
    requires Possible(c, g)
    ensures var light := Entity(Light, n, Address(g.app, g.address, Whole));
            && (light in Announced(Actions(c, n, g)) <==> g.outcome.AsLight?)
            && (light in Announced(Actions(c, n, g)) ==> g.app == 56)
            && (light in Cleared(Actions(c, n, g)) <==> g.app == 56 && !g.outcome.Excluded? && !g.outcome.AsLight?)
  {
    ActionTopics(c, n, g);
    hide Actions, Announced, Cleared;
  }

  lemma ClearLightIs(n: nat, g: Group)
    ensures Announced(ClearLight(n, g)) == {}
    ensures Cleared(ClearLight(n, g)) == LightOf(n, g)
  {
  }

  lemma {:induction false} AppendActions(a: seq<Action>, b: seq<Action>)
    ensures Announced(a + b) == Announced(a) + Announced(b)
    ensures Cleared(a + b) == Cleared(a) + Cleared(b)
    decreases |a|
  {
    if a == [] {
      assert a + b == b;
    } else {
      assert (a + b)[1..] == a[1..] + b;
      AppendActions(a[1..], b);
    }
  }

  // One action at a time.

  lemma RetainedPut(cache: map<Topic, Payload>, broker: map<Topic, Payload>, earlier: set<Topic>, synced: bool,
                    t: Topic, p: Payload)
    requires Retained(cache, broker, earlier, synced)
    ensures Retained(cache[t := p], broker[t := p], earlier, synced)
  {
  }

  lemma RetainedDrop(cache: map<Topic, Payload>, broker: map<Topic, Payload>, earlier: set<Topic>, synced: bool,
                     topics: set<Topic>)
    requires Retained(cache, broker, earlier, synced)
    ensures Retained(cache - topics, broker - topics, earlier, synced)
  {
  }

  lemma ActKeeps(s: State, a: Action, n: nat, earlier: set<Topic>, synced: bool)
    requires Good(s, earlier, synced) && s.run.Some? && OfNetwork(a.topic, n)
    requires a.Clear? ==> a.topic !in s.run.value
    ensures var s' := Act(s, a);
            && Good(s', earlier, synced) && OnlyNetwork(s, s', n)
            && s'.run.Some? && s'.run.value == s.run.value + Announced([a])
            && s'.published == s.published - Cleared([a])
            && s'.eventDriven == s.eventDriven && s'.sensors == s.sensors
  {
    assert [a][1..] == [];
    match a
    case Announce(t, p) => RetainedPut(s.cache, s.broker, earlier, synced, t, p);
    case Clear(t) => RetainedDrop(s.cache, s.broker, earlier, synced, {t});
  }

  lemma {:induction false} ActAllKeeps(s: State, actions: seq<Action>, n: nat, earlier: set<Topic>, synced: bool)
    requires Good(s, earlier, synced) && s.run.Some?
    requires forall i :: 0 <= i < |actions| ==> OfNetwork(actions[i].topic, n)
    requires (s.run.value + Announced(actions)) !! Cleared(actions)
    ensures var s' := ActAll(s, actions);
            && Good(s', earlier, synced) && OnlyNetwork(s, s', n)
            && s'.run.Some? && s'.run.value == s.run.value + Announced(actions)
            && s'.published == s.published - Cleared(actions)
            && s'.eventDriven == s.eventDriven && s'.sensors == s.sensors
    decreases |actions|
  {
    hide Act, Good;
    if actions != [] {
      AppendActions([actions[0]], actions[1..]);
      assert [actions[0]] + actions[1..] == actions;
      assert actions[0].Clear? ==> actions[0].topic in Cleared(actions);
      ActKeeps(s, actions[0], n, earlier, synced);
      ActAllKeeps(Act(s, actions[0]), actions[1..], n, earlier, synced);
    }
  }

  // Whole groups, announcements and runs.

  lemma ActionsInNetwork(c: Settings, n: nat, g: Group)
    ensures forall i :: 0 <= i < |Actions(c, n, g)| ==> OfNetwork(Actions(c, n, g)[i].topic, n)
  {
  }

  lemma ProcessGroupKeeps(c: Settings, s: State, n: nat, g: Group, recording: bool, earlier: set<Topic>, synced: bool)
    requires Good(s, earlier, synced) && s.run.Some? && Possible(c, g)
    requires forall t :: t in s.run.value ==> !AtGroup(t, n, g)
    ensures var s', actions := ProcessGroup(c, s, n, g, recording), Actions(c, n, g);
            && Good(s', earlier, synced) && OnlyNetwork(s, s', n)
            && s'.run.Some? && s'.run.value == s.run.value + Announced(actions)
            && s'.published == s.published - Cleared(actions)
            && s'.eventDriven == s.eventDriven && s'.sensors == s.sensors
  {
    hide Actions, Act, ActAll, Possible, AtGroup;
    ActionsAreApart(c, n, g);
    ActionsInNetwork(c, n, g);
    var s1 := if recording then s.(treeGroups := s.treeGroups + {GroupAddress(n, g.app, g.address)}) else s;
    ActAllKeeps(s1, Actions(c, n, g), n, earlier, synced);
  }

  lemma {:induction false} ProcessGroupsKeeps(c: Settings, s: State, n: nat, groups: seq<Group>,
                                              earlier: set<Topic>, synced: bool)
    requires Good(s, earlier, synced) && s.run.Some?
    requires forall i :: 0 <= i < |groups| ==> Possible(c, groups[i])
    requires forall i, j :: 0 <= i < j < |groups| ==> !SameAddress(groups[i], groups[j])
    requires forall t, i :: t in s.run.value && 0 <= i < |groups| ==> !AtGroup(t, n, groups[i])
    ensures var s' := ProcessGroups(c, s, n, groups);
            && Good(s', earlier, synced) && OnlyNetwork(s, s', n)
            && s'.run.Some? && s'.run.value == s.run.value + AnnouncedBy(c, n, groups)
            && s'.published == s.published - ClearedBy(c, n, groups)
            && s'.eventDriven == s.eventDriven && s'.sensors == s.sensors
    decreases |groups|
  {
    if groups != [] {
      var s1 := ProcessGroup(c, s, n, groups[0], true);
      ProcessGroupKeeps(c, s, n, groups[0], true, earlier, synced);
      ActionsAreApart(c, n, groups[0]);
      hide ProcessGroup, Good, Actions, Possible;
      forall t, i | t in s1.run.value && 0 <= i < |groups| - 1
        ensures !AtGroup(t, n, groups[1..][i])
      {
        assert groups[1..][i] == groups[i + 1] && !SameAddress(groups[0], groups[i + 1]);
      }
      ProcessGroupsKeeps(c, s1, n, groups[1..], earlier, synced);
    }
  }

  // Announcements, as their net effect.

  /** The topics a series of announcements leaves announced, with their payloads, and those it took back. */
  datatype Effect = Effect(won: map<Topic, Payload>, lost: set<Topic>)

  const NO_EFFECT := Effect(map[], {})

  /** x and then y: what is announced later is not lost, what is taken back later is not won. */
  function Compose(x: Effect, y: Effect): Effect {
    Effect((x.won - y.lost) + y.won, (x.lost + y.lost) - y.won.Keys)
  }

  function PayloadsOf(creates: seq<(Topic, Payload)>): map<Topic, Payload>
    decreases |creates|
  {
    if creates == [] then map[] else map[creates[0].0 := creates[0].1] + PayloadsOf(creates[1..])
  }

  function TopicSet(topics: seq<Topic>): set<Topic> {
    set t | t in topics
  }

  /** An entity that was announced before, or with discovery off, has no effect. */
  function EffectOf(c: Settings, seen: set<Key>, e: Announcement): Effect {
    if !c.enabled || e.key in seen then NO_EFFECT
    else if e.excluded then Effect(map[], TopicSet(e.retracts))
    else Effect(PayloadsOf(e.creates), {})
  }

  function SeenAfter(c: Settings, seen: set<Key>, e: Announcement): set<Key> {
    if !c.enabled then seen else seen + {e.key}
  }

  function Effects(c: Settings, seen: set<Key>, es: seq<Announcement>): Effect
    decreases |es|
  {
    if es == [] then NO_EFFECT
    else Compose(EffectOf(c, seen, es[0]), Effects(c, SeenAfter(c, seen, es[0]), es[1..]))
  }

  function Patch(m: map<Topic, Payload>, x: Effect): map<Topic, Payload> {
    (m - x.lost) + x.won
  }

  function PatchSet(topics: set<Topic>, x: Effect): set<Topic> {
    (topics - x.lost) + x.won.Keys
  }

  /** s' is s after announcements of that effect. */
  ghost predicate Moved(s: State, s': State, x: Effect) {
    && x.won.Keys !! x.lost
    && s'.cache == Patch(s.cache, x) && s'.broker == Patch(s.broker, x)
    && s'.published == PatchSet(s.published, x) && s'.eventDriven == PatchSet(s.eventDriven, x)
    && s'.run == s.run && s'.sensors == s.sensors
  }

  lemma MovedNowhere(s: State)
    ensures Moved(s, s, NO_EFFECT)
  {
    assert Patch(s.cache, NO_EFFECT) == s.cache && Patch(s.broker, NO_EFFECT) == s.broker;
  }

  lemma MovedBy(s: State, t: Topic, p: Payload)
    ensures Moved(s, FinishEventDriven(s, t, p), Effect(map[t := p], {}))
    ensures Moved(s, RetractEventDriven(s, t), Effect(map[], {t}))
  {
    var put, drop := Effect(map[t := p], {}), Effect(map[], {t});
    assert Patch(s.cache, put) == s.cache[t := p] && Patch(s.broker, put) == s.broker[t := p];
    assert Patch(s.cache, drop) == s.cache - {t} && Patch(s.broker, drop) == s.broker - {t};
  }

  lemma PatchTwice(m: map<Topic, Payload>, x: Effect, y: Effect)
    ensures Patch(Patch(m, x), y) == Patch(m, Compose(x, y))
  {
  }

  lemma PatchSetTwice(topics: set<Topic>, x: Effect, y: Effect)
    ensures PatchSet(PatchSet(topics, x), y) == PatchSet(topics, Compose(x, y))
  {
  }

  lemma MovedTwice(s: State, s1: State, s2: State, x: Effect, y: Effect)
    requires Moved(s, s1, x) && Moved(s1, s2, y)
    ensures Moved(s, s2, Compose(x, y))
  {
    assert Compose(x, y).won.Keys !! Compose(x, y).lost;
    hide Compose, Patch, PatchSet;
    PatchTwice(s.cache, x, y);
    PatchTwice(s.broker, x, y);
    PatchSetTwice(s.published, x, y);
    PatchSetTwice(s.eventDriven, x, y);
  }

  lemma {:induction false} CreateAllMoves(s: State, creates: seq<(Topic, Payload)>)
    ensures Moved(s, CreateAll(s, creates), Effect(PayloadsOf(creates), {}))
    ensures CreateAll(s, creates).seen == s.seen
    decreases |creates|
  {
    if creates == [] {
      MovedNowhere(s);
    } else {
      var (t, p) := creates[0];
      var s1, first, rest := FinishEventDriven(s, t, p), Effect(map[t := p], {}), Effect(PayloadsOf(creates[1..]), {});
      MovedBy(s, t, p);
      CreateAllMoves(s1, creates[1..]);
      assert Compose(first, rest) == Effect(PayloadsOf(creates), {}) by {
        assert map[t := p] - {} == map[t := p];
      }
      hide Moved, Compose, PayloadsOf;
      MovedTwice(s, s1, CreateAll(s1, creates[1..]), first, rest);
    }
  }

  lemma RetractsCompose(topics: seq<Topic>)
    requires topics != []
    ensures Compose(Effect(map[], {topics[0]}), Effect(map[], TopicSet(topics[1..]))) == Effect(map[], TopicSet(topics))
  {
    assert TopicSet(topics) == {topics[0]} + TopicSet(topics[1..]);
  }

  lemma {:induction false} RetractEachMoves(s: State, topics: seq<Topic>)
    ensures Moved(s, RetractEach(s, topics), Effect(map[], TopicSet(topics)))
    ensures RetractEach(s, topics).seen == s.seen
    decreases |topics|
  {
    if topics == [] {
      MovedNowhere(s);
    } else {
      var t, rest := topics[0], topics[1..];
      var s1 := RetractEventDriven(s, t);
      MovedBy(s, t, 0);
      RetractEachMoves(s1, rest);
      RetractsCompose(topics);
      hide Moved, Compose, TopicSet, RetractEventDriven;
      MovedTwice(s, s1, RetractEach(s1, rest), Effect(map[], {t}), Effect(map[], TopicSet(rest)));
    }
  }

  lemma EnsureMoves(c: Settings, s: State, e: Announcement)
    ensures Moved(s, Ensure(c, s, e), EffectOf(c, s.seen, e))
    ensures Ensure(c, s, e).seen == SeenAfter(c, s.seen, e)
  {
    MovedNowhere(s);
    CreateAllMoves(s, e.creates);
    RetractEachMoves(s, e.retracts);
    hide CreateAll, RetractEach, PayloadsOf, TopicSet;
  }

  lemma {:induction false} EnsureAllMoves(c: Settings, s: State, es: seq<Announcement>)
    ensures Moved(s, EnsureAll(c, s, es), Effects(c, s.seen, es))
    decreases |es|
  {
    hide Ensure, Moved, Compose, EffectOf;
    if es == [] {
      MovedNowhere(s);
    } else {
      var s1 := Ensure(c, s, es[0]);
      EnsureMoves(c, s, es[0]);
      EnsureAllMoves(c, s1, es[1..]);
      MovedTwice(s, s1, EnsureAll(c, s1, es[1..]), EffectOf(c, s.seen, es[0]), Effects(c, s1.seen, es[1..]));
    }
  }

  /** All topics of the effect belong to one network. */
  ghost predicate Within(x: Effect, n: nat) {
    (forall t :: t in x.won ==> OfNetwork(t, n)) && (forall t :: t in x.lost ==> OfNetwork(t, n))
  }

  lemma {:induction false} PayloadsWithin(creates: seq<(Topic, Payload)>, n: nat)
    requires forall i :: 0 <= i < |creates| ==> OfNetwork(creates[i].0, n)
    ensures forall t :: t in PayloadsOf(creates) ==> OfNetwork(t, n)
    decreases |creates|
  {
    if creates != [] {
      PayloadsWithin(creates[1..], n);
    }
  }

  lemma EffectWithin(c: Settings, seen: set<Key>, e: Announcement)
    requires AnnouncementOk(e)
    ensures Within(EffectOf(c, seen, e), e.key.network)
  {
    PayloadsWithin(e.creates, e.key.network);
  }

  lemma {:induction false} EffectsWithin(c: Settings, seen: set<Key>, es: seq<Announcement>, n: nat)
    requires forall i :: 0 <= i < |es| ==> AnnouncementOk(es[i]) && es[i].key.network == n
    ensures Within(Effects(c, seen, es), n)
    decreases |es|
  {
    hide EffectOf, AnnouncementOk;
    if es != [] {
      EffectWithin(c, seen, es[0]);
      EffectsWithin(c, SeenAfter(c, seen, es[0]), es[1..], n);
    }
  }

  lemma RetainedMove(cache: map<Topic, Payload>, broker: map<Topic, Payload>, earlier: set<Topic>, synced: bool,
                     x: Effect)
    requires Retained(cache, broker, earlier, synced)
    ensures Retained(Patch(cache, x), Patch(broker, x), earlier, synced)
  {
  }

  lemma PatchAt(m: map<Topic, Payload>, x: Effect, t: Topic)
    ensures t in Patch(m, x) <==> t in x.won || (t in m && t !in x.lost)
    ensures t in Patch(m, x) ==> Patch(m, x)[t] == if t in x.won then x.won[t] else m[t]
  {
  }

  /** Pointwise: where the effect is silent nothing has changed. */
  lemma MovedAt(s: State, s': State, x: Effect, t: Topic)
    requires Moved(s, s', x)
    ensures t in s'.cache <==> t in x.won || (t in s.cache && t !in x.lost)
    ensures t in s'.cache ==> s'.cache[t] == if t in x.won then x.won[t] else s.cache[t]
    ensures t in s'.broker <==> t in x.won || (t in s.broker && t !in x.lost)
    ensures t in s'.broker ==> s'.broker[t] == if t in x.won then x.won[t] else s.broker[t]
    ensures t in s'.published <==> t in x.won || (t in s.published && t !in x.lost)
    ensures t in s'.eventDriven <==> t in x.won || (t in s.eventDriven && t !in x.lost)
  {
    PatchAt(s.cache, x, t);
    PatchAt(s.broker, x, t);
    hide Patch;
  }

  lemma MovedOnlyNetwork(s: State, s': State, x: Effect, n: nat)
    requires Moved(s, s', x) && Within(x, n)
    ensures OnlyNetwork(s, s', n)
  {
    forall t | !OfNetwork(t, n)
      ensures && (t in s.cache <==> t in s'.cache) && (t in s.cache ==> s.cache[t] == s'.cache[t])
              && (t in s.broker <==> t in s'.broker) && (t in s.broker ==> s.broker[t] == s'.broker[t])
              && (t in s.published <==> t in s'.published)
    {
      MovedAt(s, s', x, t);
    }
  }

  /** Outside a run an announcement keeps the books, touches only its network, and marks what it adds event-driven. */
  lemma EnsureKeeps(c: Settings, s: State, e: Announcement, earlier: set<Topic>, synced: bool)
    requires Inv(s, earlier, synced) && AnnouncementOk(e)
    ensures var s' := Ensure(c, s, e);
            && Inv(s', earlier, synced) && OnlyNetwork(s, s', e.key.network)
            && (forall t :: t in s'.published - s.published ==> t in s'.eventDriven)
  {
    var x, s' := EffectOf(c, s.seen, e), Ensure(c, s, e);
    EnsureMoves(c, s, e);
    EffectWithin(c, s.seen, e);
    RetainedMove(s.cache, s.broker, earlier, synced, x);
    hide Ensure, EffectOf, Retained, AnnouncementOk;
    MovedOnlyNetwork(s, s', x, e.key.network);
    forall t
      ensures (t in s'.cache <==> Owned(s', t)) && (t in s'.published ==> t.Entity?)
      ensures t in s'.published - s.published ==> t in s'.eventDriven
    {
      MovedAt(s, s', x, t);
    }
  }

  lemma FinishRunAt(s: State, n: nat, t: Topic)
    requires s.run.Some?
    ensures var s', stale := FinishRun(s, n), t in StaleTopics(s, n);
            && (t in s'.cache <==> t in s.cache && !stale) && (t in s'.cache ==> s'.cache[t] == s.cache[t])
            && (t in s'.broker <==> t in s.broker && !stale) && (t in s'.broker ==> s'.broker[t] == s.broker[t])
            && (t in s'.published <==> (t in s.published && !stale) || t in s.run.value)
  {
  }

  /** The end of a run at one topic. */
  lemma FinishRunTopic(s0: State, s1: State, x: Effect, n: nat, t: Topic)
    requires s0.run.Some? && Moved(s0, s1, x) && Within(x, n)
    requires (t in s0.cache <==> Owned(s0, t)) && (t in s0.published ==> t.Entity?)
    requires t in s0.run.value ==> OfNetwork(t, n)
    ensures var s', own := FinishRun(s1, n), t in s0.run.value;
            && (!OfNetwork(t, n) ==>
                  && (t in s0.cache <==> t in s'.cache) && (t in s0.cache ==> s0.cache[t] == s'.cache[t])
                  && (t in s0.broker <==> t in s'.broker) && (t in s0.broker ==> s0.broker[t] == s'.broker[t])
                  && (t in s0.published <==> t in s'.published))
            && (t in s'.published ==> t.Entity?)
            && (t in s'.cache <==> Owned(s', t) && !(own && t in x.lost))
            && (own ==> Owned(s', t) && t in s'.published)
            && (t in s'.cache && OfNetwork(t, n) ==> own || t in s'.eventDriven)
            && (t in s0.published && t in s0.eventDriven && t !in x.lost ==> t in s'.cache)
  {
    FinishRunAt(s1, n, t);
    MovedAt(s0, s1, x, t);
    assert FinishRun(s1, n).sensors == s0.sensors && FinishRun(s1, n).run.None?;
    assert FinishRun(s1, n).eventDriven == s1.eventDriven && s1.run == s0.run;
    hide FinishRun, Moved;
  }

  /**
   * The end of a run: what the groups announced is retained unless a zone took it back, and the books
   * are right exactly when none did.
   */
  lemma FinishRunResult(s0: State, s1: State, x: Effect, n: nat, earlier: set<Topic>, synced: bool)
    requires Good(s0, earlier, synced) && s0.run.Some? && (forall t :: t in s0.run.value ==> OfNetwork(t, n))
    requires Moved(s0, s1, x) && Within(x, n)
    ensures var s', own := FinishRun(s1, n), s0.run.value;
            && Retained(s'.cache, s'.broker, earlier, synced) && s'.run.None? && OnlyNetwork(s0, s', n)
            && (Books(s') <==> x.lost !! own)
            && (forall t :: t in own ==> t in s'.published && (t in s'.cache <==> t !in x.lost))
            && (forall t :: t in s'.cache && OfNetwork(t, n) ==> t in own || t in s'.eventDriven)
            && (forall t :: t in s0.published && t in s0.eventDriven && t !in x.lost ==> t in s'.cache)
  {
    var s', own := FinishRun(s1, n), s0.run.value;
    RetainedMove(s0.cache, s0.broker, earlier, synced, x);
    RetainedDrop(s1.cache, s1.broker, earlier, synced, StaleTopics(s1, n));
    assert s'.cache == s1.cache - StaleTopics(s1, n) && s'.broker == s1.broker - StaleTopics(s1, n) && s'.run.None?;
    hide FinishRun, Retained, Within, StaleTopics;
    forall t
      ensures !OfNetwork(t, n) ==>
                && (t in s0.cache <==> t in s'.cache) && (t in s0.cache ==> s0.cache[t] == s'.cache[t])
                && (t in s0.broker <==> t in s'.broker) && (t in s0.broker ==> s0.broker[t] == s'.broker[t])
                && (t in s0.published <==> t in s'.published)
      ensures t in s'.published ==> t.Entity?
      ensures t in s'.cache <==> Owned(s', t) && !(t in own && t in x.lost)
      ensures t in own ==> Owned(s', t) && t in s'.published
      ensures t in s'.cache && OfNetwork(t, n) ==> t in own || t in s'.eventDriven
      ensures t in s0.published && t in s0.eventDriven && t !in x.lost ==> t in s'.cache
    {
      FinishRunTopic(s0, s1, x, n, t);
    }
    hide Moved, Owned;
  }

  /** Everything before the closing sweep of a run. */
  function TreeRunBody(c: Settings, s: State, n: nat, plan: Plan): State {
    EnsureAll(c, ProcessGroups(c, s.(run := Some({})), n, plan.groups), plan.zones)
  }
}
