/** The main results about discovery bookkeeping, over every history of the bridge. */
module DiscoveryResults {
  import opened DiscoverySpec
  import opened DiscoveryGuarantees
  import opened Options

  /** No zone of the run takes back what a group of the run announces. */
  predicate Spares(c: Settings, s: State, n: nat, plan: Plan) {
    Effects(c, s.seen, plan.zones).lost !! AnnouncedBy(c, n, plan.groups)
  }

  lemma TreeRunBodyKeeps(c: Settings, s: State, n: nat, plan: Plan, earlier: set<Topic>, synced: bool)
    requires Inv(s, earlier, synced) && PlanOk(c, n, plan)
    ensures var s0 := ProcessGroups(c, s.(run := Some({})), n, plan.groups);
            && Good(s0, earlier, synced) && OnlyNetwork(s, s0, n) && s0.run == Some(AnnouncedBy(c, n, plan.groups))
            && s0.published == s.published - ClearedBy(c, n, plan.groups) && s0.eventDriven == s.eventDriven
            && Moved(s0, TreeRunBody(c, s, n, plan), Effects(c, s.seen, plan.zones))
  {
    hide Possible, AnnouncementOk, EnsureAll;
    var start := s.(run := Some({}));
    var s0 := ProcessGroups(c, start, n, plan.groups);
    ProcessGroupsKeeps(c, start, n, plan.groups, earlier, synced);
    GroupsLeaveSeen(c, start, n, plan.groups);
    hide ProcessGroups, Effects;
    assert {} + AnnouncedBy(c, n, plan.groups) == AnnouncedBy(c, n, plan.groups);
    EnsureAllMoves(c, s0, plan.zones);
  }

  /**
   * After a tree run for network n the books are right if and only if its zones spare its groups. In
   * either case: its own topics are retained unless a zone took them back; whatever else of n is
   * retained was announced by bus traffic; such topics survive unless this very run took them back; and
   * no topic of another network has changed.
   */
  lemma TreeRunResult(c: Settings, s: State, n: nat, plan: Plan, earlier: set<Topic>, synced: bool)
    requires Inv(s, earlier, synced) && PlanOk(c, n, plan)
    ensures var s', own := TreeRun(c, s, n, plan), AnnouncedBy(c, n, plan.groups);
            var lost := Effects(c, s.seen, plan.zones).lost;
            && (Inv(s', earlier, synced) <==> Spares(c, s, n, plan)) && (Books(s') <==> Spares(c, s, n, plan))
            && OnlyNetwork(s, s', n)
            && (forall t :: t in own ==> t in s'.published && (t in s'.cache <==> t !in lost))
            && (forall t :: t in s'.cache && OfNetwork(t, n) ==> t in own || t in s'.eventDriven)
            && (forall t :: t in s.published && t in s.eventDriven && t !in ClearedBy(c, n, plan.groups) && t !in lost
                            ==> t in s'.cache)
  {
    var s0, s1 := ProcessGroups(c, s.(run := Some({})), n, plan.groups), TreeRunBody(c, s, n, plan);
    TreeRunBodyKeeps(c, s, n, plan, earlier, synced);
    GroupsAnnounceInNetwork(c, n, plan.groups);
    EffectsWithin(c, s.seen, plan.zones, n);
    assert TreeRun(c, s, n, plan) == FinishRun(s1, n);
    hide TreeRunBody, TreeRun, PlanOk, ProcessGroups, Effects, AnnouncedBy, Moved, OnlyNetwork, Books, Retained,
         OfNetwork;
    FinishRunResult(s0, s1, Effects(c, s.seen, plan.zones), n, earlier, synced);
    hide FinishRun;
    OnlyNetworkTwice(s, s0, TreeRun(c, s, n, plan), n);
  }

  lemma OnlyNetworkTwice(s: State, s1: State, s2: State, n: nat)
    requires OnlyNetwork(s, s1, n) && OnlyNetwork(s1, s2, n)
    ensures OnlyNetwork(s, s2, n)
  {
  }

  lemma {:induction false} GroupsAnnounceInNetwork(c: Settings, n: nat, groups: seq<Group>)
    ensures forall t :: t in AnnouncedBy(c, n, groups) ==> OfNetwork(t, n)
    decreases |groups|
  {
    if groups != [] {
      AnnouncesInNetwork(Actions(c, n, groups[0]), n);
      hide Actions;
      GroupsAnnounceInNetwork(c, n, groups[1..]);
    }
  }

  lemma {:induction false} AnnouncesInNetwork(actions: seq<Action>, n: nat)
    requires forall i :: 0 <= i < |actions| ==> OfNetwork(actions[i].topic, n)
    ensures forall t :: t in Announced(actions) ==> OfNetwork(t, n)
    decreases |actions|
  {
    if actions != [] {
      AnnouncesInNetwork(actions[1..], n);
    }
  }

  /** A removed network leaves nothing this session announced, not even its sensor; other networks keep theirs. */
  lemma RemovalResult(c: Settings, s: State, n: nat, earlier: set<Topic>, synced: bool)
    requires Inv(s, earlier, synced) && c.enabled
    ensures var s' := NetworkRemoved(c, s, n);
            && Inv(s', earlier, synced)
            && (forall t: Topic :: t.network == n ==> t !in s'.cache && (t in s'.broker ==> t in earlier))
            && (forall t: Topic :: t.network != n ==>
                  (t in s'.cache <==> t in s.cache) && (t in s'.broker <==> t in s.broker))
            && (forall t :: t in s'.broker ==> s'.broker[t] == s.broker[t])
  {
    var s1 := RetractSet(s, NetworkTopics(s, n));
    RetainedDrop(s.cache, s.broker, earlier, synced, NetworkTopics(s, n));
    RetainedDrop(s1.cache, s1.broker, earlier, synced, {StatusSensor(n)});
  }

  lemma RemovedKeeps(c: Settings, s: State, n: nat, earlier: set<Topic>, synced: bool)
    requires Inv(s, earlier, synced)
    ensures Inv(NetworkRemoved(c, s, n), earlier, synced)
  {
    if c.enabled {
      RemovalResult(c, s, n, earlier, synced);
    }
  }

  lemma StatusKeeps(c: Settings, s: State, n: nat, p: Payload, earlier: set<Topic>, synced: bool)
    requires Inv(s, earlier, synced)
    ensures Inv(SetStatus(c, s, n, p), earlier, synced)
  {
    RetainedPut(s.cache, s.broker, earlier, synced, StatusSensor(n), p);
  }

  lemma UnlistedKeeps(c: Settings, s: State, n: nat, g: Group, eligible: bool, earlier: set<Topic>, synced: bool)
    requires Inv(s, earlier, synced) && Possible(c, g)
    ensures Inv(EnsureUnlisted(c, s, n, g, eligible), earlier, synced)
  {
    var s1 := s.(run := Some({}));
    ProcessGroupKeeps(c, s1, n, g, false, earlier, synced);
    hide ProcessGroup, Promote, OnlyNetwork, Possible;
    var s2 := ProcessGroup(c, s1, n, g, false);
    PromoteKeeps(s2.(unlistedSeen := s2.unlistedSeen + {GroupAddress(n, g.app, g.address)}), 0, earlier, synced);
  }

  lemma PromoteKeeps(s: State, before: nat, earlier: set<Topic>, synced: bool)
    requires Good(s, earlier, synced) && s.run.Some?
    ensures Inv(Promote(s, true, before), earlier, synced)
  {
    hide Retained;
  }

  predicate Sound(c: Settings, s: State, e: Event) {
    e.TreeParsed? ==> Spares(c, s, e.network, e.plan)
  }

  /** Every tree run of the history has zones that spare its groups. */
  predicate SoundRun(c: Settings, s: State, es: seq<Event>)
    decreases |es|
  {
    es == [] || (Sound(c, s, es[0]) && SoundRun(c, Step(c, s, es[0]), es[1..]))
  }

  /** One event keeps the books exactly when it is sound. */
  lemma StepKeepsIff(c: Settings, s: State, e: Event, earlier: set<Topic>, synced: bool)
    requires Inv(s, earlier, synced) && EventOk(c, e)
    ensures Inv(Step(c, s, e), earlier, synced) <==> Sound(c, s, e)
    ensures Books(Step(c, s, e)) <==> Sound(c, s, e)
  {
    hide TreeRun, Ensure, EnsureUnlisted, NetworkRemoved, SetStatus, PlanOk, Spares, Books, Retained;
    match e
    case TreeParsed(n, plan) => TreeRunResult(c, s, n, plan, earlier, synced);
    case Seen(a) => EnsureKeeps(c, s, a, earlier, synced);
    case Relabelled(a, again) =>
      ForgettingKeeps(s, a.key, earlier, synced);
      EnsureKeeps(c, s.(seen := s.seen - {a.key}), a, earlier, synced);
    case UnlistedSeen(n, g, eligible) => UnlistedKeeps(c, s, n, g, eligible, earlier, synced);
    case Removed(n) => RemovedKeeps(c, s, n, earlier, synced);
    case Status(n, p) => StatusKeeps(c, s, n, p, earlier, synced);
  }

  lemma ForgettingKeeps(s: State, key: Key, earlier: set<Topic>, synced: bool)
    requires Inv(s, earlier, synced)
    ensures Inv(s.(seen := s.seen - {key}), earlier, synced)
  {
  }

  lemma {:induction false} RunKeeps(c: Settings, s: State, es: seq<Event>, earlier: set<Topic>, synced: bool)
    requires Inv(s, earlier, synced) && (forall i :: 0 <= i < |es| ==> EventOk(c, es[i])) && SoundRun(c, s, es)
    ensures Inv(Run(c, s, es), earlier, synced)
    decreases |es|
  {
    hide Inv, Step, EventOk, Sound;
    if es != [] {
      StepKeepsIff(c, s, es[0], earlier, synced);
      RunKeeps(c, Step(c, s, es[0]), es[1..], earlier, synced);
    }
  }

  /**
   * Over whole histories: the books are right after every one of their events exactly when every tree
   * run was sound.
   */
  lemma {:induction false} BooksIffSound(c: Settings, s: State, es: seq<Event>, earlier: set<Topic>, synced: bool)
    requires Inv(s, earlier, synced) && (forall i :: 0 <= i < |es| ==> EventOk(c, es[i]))
    ensures SoundRun(c, s, es) <==> forall k :: 0 <= k <= |es| ==> Books(Run(c, s, es[..k]))
    decreases |es|
  {
    if es == [] {
    } else {
      var s1, rest := Step(c, s, es[0]), es[1..];
      StepKeepsIff(c, s, es[0], earlier, synced);
      hide EventOk, Sound, Step, Books, Retained;
      assert es[..1][1..] == [] && Run(c, s1, []) == s1;
      assert Run(c, s, es[..1]) == s1;
      forall k | 0 < k <= |es| ensures Run(c, s, es[..k]) == Run(c, s1, rest[..k - 1]) {
        assert es[..k][1..] == rest[..k - 1];
      }
      if Sound(c, s, es[0]) {
        BooksIffSound(c, s1, rest, earlier, synced);
        assert forall k :: 0 <= k <= |rest| ==> rest[..k] == rest[..(k + 1) - 1];
        hide Run;
        if SoundRun(c, s, es) {
          forall k | 0 <= k <= |es| ensures Books(Run(c, s, es[..k])) {
            assert k > 0 ==> Books(Run(c, s1, rest[..k - 1]));
            assert k == 0 ==> Run(c, s, es[..k]) == s by { Nothing(c, s, es[..0]); }
          }
        } else {
          var k :| 0 <= k <= |rest| && !Books(Run(c, s1, rest[..k]));
          assert !Books(Run(c, s, es[..k + 1]));
        }
      }
    }
  }

  lemma Nothing(c: Settings, s: State, es: seq<Event>)
    requires es == []
    ensures Run(c, s, es) == s
  {
  }

  /**
   * After every history of complete sound tree runs, bus announcements, label changes and removals, the
   * session's topic set is exactly the retained configs the session is responsible for, bar the
   * status sensors, and the replay cache is their payloads.
   */
  lemma BooksAgree(c: Settings, es: seq<Event>)
    requires (forall i :: 0 <= i < |es| ==> EventOk(c, es[i])) && SoundRun(c, INITIAL, es)
    ensures var s := Run(c, INITIAL, es);
            && s.cache == s.broker
            && (forall t :: t in s.broker && t.Entity? <==> t in s.published)
            && (forall n :: StatusSensor(n) in s.broker <==> n in s.sensors)
  {
    RunKeeps(c, INITIAL, es, {}, true);
    hide Run, SoundRun;
  }

  // A broker restart.

  /** The two states differ at most in what the broker has lost. */
  predicate SameBooks(s: State, s': State) {
    Wipe(s) == Wipe(s')
  }

  lemma {:induction false} ActAllSame(s: State, s': State, actions: seq<Action>)
    requires SameBooks(s, s')
    ensures SameBooks(ActAll(s, actions), ActAll(s', actions))
    decreases |actions|
  {
    if actions != [] {
      ActAllSame(Act(s, actions[0]), Act(s', actions[0]), actions[1..]);
    }
  }

  lemma {:induction false} ProcessGroupsSame(c: Settings, s: State, s': State, n: nat, groups: seq<Group>)
    requires SameBooks(s, s')
    ensures SameBooks(ProcessGroups(c, s, n, groups), ProcessGroups(c, s', n, groups))
    decreases |groups|
  {
    if groups != [] {
      ProcessGroupSame(c, s, s', n, groups[0], true);
      hide ProcessGroup, SameBooks;
      ProcessGroupsSame(c, ProcessGroup(c, s, n, groups[0], true), ProcessGroup(c, s', n, groups[0], true), n,
                        groups[1..]);
    }
  }

  lemma ProcessGroupSame(c: Settings, s: State, s': State, n: nat, g: Group, recording: bool)
    requires SameBooks(s, s')
    ensures SameBooks(ProcessGroup(c, s, n, g, recording), ProcessGroup(c, s', n, g, recording))
  {
    hide Actions;
    var known := s.treeGroups + {GroupAddress(n, g.app, g.address)};
    ActAllSame(if recording then s.(treeGroups := known) else s, if recording then s'.(treeGroups := known) else s',
               Actions(c, n, g));
  }

  lemma {:induction false} CreateAllSame(s: State, s': State, creates: seq<(Topic, Payload)>)
    requires SameBooks(s, s')
    ensures SameBooks(CreateAll(s, creates), CreateAll(s', creates))
    decreases |creates|
  {
    if creates != [] {
      var (t, p) := creates[0];
      CreateAllSame(FinishEventDriven(s, t, p), FinishEventDriven(s', t, p), creates[1..]);
    }
  }

  lemma {:induction false} RetractEachSame(s: State, s': State, topics: seq<Topic>)
    requires SameBooks(s, s')
    ensures SameBooks(RetractEach(s, topics), RetractEach(s', topics))
    decreases |topics|
  {
    if topics != [] {
      RetractEachSame(RetractEventDriven(s, topics[0]), RetractEventDriven(s', topics[0]), topics[1..]);
    }
  }

  lemma EnsureSame(c: Settings, s: State, s': State, e: Announcement)
    requires SameBooks(s, s')
    ensures SameBooks(Ensure(c, s, e), Ensure(c, s', e))
  {
    CreateAllSame(s, s', e.creates);
    RetractEachSame(s, s', e.retracts);
    hide CreateAll, RetractEach;
  }

  lemma {:induction false} EnsureAllSame(c: Settings, s: State, s': State, es: seq<Announcement>)
    requires SameBooks(s, s')
    ensures SameBooks(EnsureAll(c, s, es), EnsureAll(c, s', es))
    decreases |es|
  {
    hide Ensure, SameBooks;
    if es != [] {
      EnsureSame(c, s, s', es[0]);
      EnsureAllSame(c, Ensure(c, s, es[0]), Ensure(c, s', es[0]), es[1..]);
    }
  }

  lemma TreeRunSame(c: Settings, s: State, s': State, n: nat, plan: Plan)
    requires SameBooks(s, s')
    ensures SameBooks(TreeRun(c, s, n, plan), TreeRun(c, s', n, plan))
  {
    hide ProcessGroups, EnsureAll;
    var t, t' := s.(run := Some({})), s'.(run := Some({}));
    ProcessGroupsSame(c, t, t', n, plan.groups);
    EnsureAllSame(c, ProcessGroups(c, t, n, plan.groups), ProcessGroups(c, t', n, plan.groups), plan.zones);
  }

  lemma StepSame(c: Settings, s: State, s': State, e: Event)
    requires SameBooks(s, s')
    ensures SameBooks(Step(c, s, e), Step(c, s', e))
  {
    match e
    case TreeParsed(n, plan) =>
      TreeRunSame(c, s, s', n, plan);
      hide TreeRun;
    case Seen(a) =>
      EnsureSame(c, s, s', a);
      hide Ensure;
    case Relabelled(a, again) =>
      EnsureSame(c, s.(seen := s.seen - {a.key}), s'.(seen := s.seen - {a.key}), a);
      hide Ensure;
    case UnlistedSeen(n, g, eligible) =>
      UnlistedSame(c, s, s', n, g, eligible);
      hide EnsureUnlisted;
    case Removed(n) =>
    case Status(n, p) =>
  }

  lemma UnlistedSame(c: Settings, s: State, s': State, n: nat, g: Group, eligible: bool)
    requires SameBooks(s, s')
    ensures SameBooks(EnsureUnlisted(c, s, n, g, eligible), EnsureUnlisted(c, s', n, g, eligible))
  {
    ProcessGroupSame(c, s.(run := Some({})), s'.(run := Some({})), n, g, false);
    ProcessGroupSame(c, s, s', n, g, false);
    hide ProcessGroup;
  }

  lemma {:induction false} RunSame(c: Settings, s: State, s': State, es: seq<Event>)
    requires SameBooks(s, s')
    ensures SameBooks(Run(c, s, es), Run(c, s', es))
    decreases |es|
  {
    hide Step, SameBooks;
    if es != [] {
      StepSame(c, s, s', es[0]);
      RunSame(c, Step(c, s, es[0]), Step(c, s', es[0]), es[1..]);
    }
  }

  // What the broker retains follows the cache whatever happens, sound or not.

  lemma {:induction false} ActAllRetained(s: State, actions: seq<Action>, earlier: set<Topic>, synced: bool)
    requires Retained(s.cache, s.broker, earlier, synced)
    ensures var s' := ActAll(s, actions); Retained(s'.cache, s'.broker, earlier, synced)
    decreases |actions|
  {
    if actions != [] {
      match actions[0] {
        case Announce(t, p) => RetainedPut(s.cache, s.broker, earlier, synced, t, p);
        case Clear(t) => RetainedDrop(s.cache, s.broker, earlier, synced, {t});
      }
      hide Retained;
      ActAllRetained(Act(s, actions[0]), actions[1..], earlier, synced);
    }
  }

  lemma {:induction false} ProcessGroupsRetained(c: Settings, s: State, n: nat, groups: seq<Group>,
                                                 earlier: set<Topic>, synced: bool)
    requires Retained(s.cache, s.broker, earlier, synced)
    ensures var s' := ProcessGroups(c, s, n, groups); Retained(s'.cache, s'.broker, earlier, synced)
    decreases |groups|
  {
    hide Retained, Actions, ActAll;
    if groups != [] {
      var s1 := s.(treeGroups := s.treeGroups + {GroupAddress(n, groups[0].app, groups[0].address)});
      ActAllRetained(s1, Actions(c, n, groups[0]), earlier, synced);
      ProcessGroupsRetained(c, ProcessGroup(c, s, n, groups[0], true), n, groups[1..], earlier, synced);
    }
  }

  lemma TreeRunRetained(c: Settings, s: State, n: nat, plan: Plan, earlier: set<Topic>, synced: bool)
    requires Retained(s.cache, s.broker, earlier, synced)
    ensures var s' := TreeRun(c, s, n, plan); Retained(s'.cache, s'.broker, earlier, synced)
  {
    var start := s.(run := Some({}));
    var s0 := ProcessGroups(c, start, n, plan.groups);
    var s1 := EnsureAll(c, s0, plan.zones);
    ProcessGroupsRetained(c, start, n, plan.groups, earlier, synced);
    EnsureAllMoves(c, s0, plan.zones);
    RetainedMove(s0.cache, s0.broker, earlier, synced, Effects(c, s0.seen, plan.zones));
    RetainedDrop(s1.cache, s1.broker, earlier, synced, StaleTopics(s1, n));
    hide Retained, ProcessGroups, EnsureAll, Effects, Patch, PatchSet;
  }

  lemma EnsureRetained(c: Settings, s: State, e: Announcement, earlier: set<Topic>, synced: bool)
    requires Retained(s.cache, s.broker, earlier, synced)
    ensures var s' := Ensure(c, s, e); Retained(s'.cache, s'.broker, earlier, synced)
  {
    EnsureMoves(c, s, e);
    RetainedMove(s.cache, s.broker, earlier, synced, EffectOf(c, s.seen, e));
    hide Retained, Ensure, EffectOf, Patch, PatchSet;
  }

  lemma StepRetained(c: Settings, s: State, e: Event, earlier: set<Topic>, synced: bool)
    requires Retained(s.cache, s.broker, earlier, synced)
    ensures var s' := Step(c, s, e); Retained(s'.cache, s'.broker, earlier, synced)
  {
    hide TreeRun, Ensure, ActAll, Actions, Retained;
    match e
    case TreeParsed(n, plan) => TreeRunRetained(c, s, n, plan, earlier, synced);
    case Seen(a) => EnsureRetained(c, s, a, earlier, synced);
    case Relabelled(a, again) => EnsureRetained(c, s.(seen := s.seen - {a.key}), a, earlier, synced);
    case UnlistedSeen(n, g, eligible) =>
      ActAllRetained(s.(run := Some({})), Actions(c, n, g), earlier, synced);
      ActAllRetained(s, Actions(c, n, g), earlier, synced);
    case Removed(n) =>
      var s1 := RetractSet(s, NetworkTopics(s, n));
      RetainedDrop(s.cache, s.broker, earlier, synced, NetworkTopics(s, n));
      RetainedDrop(s1.cache, s1.broker, earlier, synced, {StatusSensor(n)});
    case Status(n, p) => RetainedPut(s.cache, s.broker, earlier, synced, StatusSensor(n), p);
  }

  lemma {:induction false} RunRetained(c: Settings, s: State, es: seq<Event>, earlier: set<Topic>, synced: bool)
    requires Retained(s.cache, s.broker, earlier, synced)
    ensures var s' := Run(c, s, es); Retained(s'.cache, s'.broker, earlier, synced)
    decreases |es|
  {
    hide Step, Retained;
    if es != [] {
      StepRetained(c, s, es[0], earlier, synced);
      RunRetained(c, Step(c, s, es[0]), es[1..], earlier, synced);
    }
  }

  /**
   * The broker loses every retained message, the bridge carries on with any events whatever, and then
   * replays its cache: the broker holds exactly the session's configs, with the payloads it would hold
   * had it never restarted.
   */
  lemma RestartIsInvisible(c: Settings, s: State, es: seq<Event>, earlier: set<Topic>)
    requires Retained(s.cache, s.broker, earlier, true)
    ensures var untouched, replayed := Run(c, s, es), Replay(Run(c, Wipe(s), es));
            && replayed.broker == untouched.cache
            && (forall t :: t in untouched.broker && t !in earlier ==> t in replayed.broker)
            && (forall t :: t in replayed.broker ==> t in untouched.broker && untouched.broker[t] == replayed.broker[t])
  {
    assert Retained(s.cache, map[], {}, false);
    RunRetained(c, s, es, earlier, true);
    RunRetained(c, Wipe(s), es, {}, false);
    RunSame(c, s, Wipe(s), es);
    hide Run;
  }

  /** From the start of a process the broker holds exactly the cache, after any history at all. */
  lemma BrokerIsCache(c: Settings, es: seq<Event>)
    ensures Run(c, INITIAL, es).broker == Run(c, INITIAL, es).cache
  {
    RunRetained(c, INITIAL, es, {}, true);
    hide Run;
  }

  // Where the bookkeeping does not hold up.

  /** What the zones of a run that threw had announced and taken back. */
  function EffectSoFar(c: Settings, s: State, r: PartialRun): Effect {
    Compose(Effects(c, s.seen, r.zones),
            Compose(Effect(PayloadsOf(r.creates), {}), Effect(map[], TopicSet(r.retracts))))
  }

  lemma RunSoFarMoves(c: Settings, s: State, r: PartialRun)
    ensures Moved(ActAll(s.(run := Some({})), r.actions), RunSoFar(c, s, r), EffectSoFar(c, s, r))
  {
    var start := s.(run := Some({}));
    var s0 := ActAll(start, r.actions);
    var s1 := EnsureAll(c, s0, r.zones);
    var s2 := CreateAll(s1, r.creates);
    var put, drop := Effect(PayloadsOf(r.creates), {}), Effect(map[], TopicSet(r.retracts));
    ActionsLeaveSeen(start, r.actions);
    hide Moved, Compose, ActAll, EnsureAll, Effects, PayloadsOf, TopicSet;
    EnsureAllMoves(c, s0, r.zones);
    CreateAllMoves(s1, r.creates);
    RetractEachMoves(s2, r.retracts);
    hide CreateAll, RetractEach;
    MovedTwice(s1, s2, RetractEach(s2, r.retracts), put, drop);
    MovedTwice(s0, s1, RetractEach(s2, r.retracts), Effects(c, s.seen, r.zones), Compose(put, drop));
  }

  /**
   * A run that throws, wherever it does, skips the merge: the books are right afterwards if and only if
   * everything its groups had announced was already in the session's set, or its zones dealt with it.
   */
  lemma AbortKeepsIff(c: Settings, s: State, r: PartialRun, n: nat, earlier: set<Topic>, synced: bool)
    requires Inv(s, earlier, synced) && forall i :: 0 <= i < |r.actions| ==> OfNetwork(r.actions[i].topic, n)
    requires Announced(r.actions) !! Cleared(r.actions) && Within(EffectSoFar(c, s, r), n)
    requires r.swept <= StaleTopics(RunSoFar(c, s, r), n)
    ensures var x := EffectSoFar(c, s, r);
            Books(AbortedRun(c, s, r)) <==> Announced(r.actions) <= s.published + x.won.Keys + x.lost
  {
    var start, x := s.(run := Some({})), EffectSoFar(c, s, r);
    var s0, s1 := ActAll(start, r.actions), RunSoFar(c, s, r);
    ActAllKeeps(start, r.actions, n, earlier, synced);
    RunSoFarMoves(c, s, r);
    hide ActAll, RunSoFar, EffectSoFar, Retained, OnlyNetwork, Moved;
    var done := AbortedRun(c, s, r);
    forall t
      ensures var own := t in Announced(r.actions);
              && (own ==> t.Entity?) && (t in done.published ==> t.Entity?)
              && (t in done.cache <==> Owned(done, t) || (own && t !in s.published && t !in x.won && t !in x.lost))
              && (own && t !in s.published && t !in x.won && t !in x.lost ==> !Owned(done, t))
    {
      MovedAt(s0, s1, x, t);
      MovedSensors(s0, s1, x);
      assert t in r.swept ==> t in s1.published && t !in s0.run.value;
    }
    hide Owned;
    if t :| t in Announced(r.actions) && t !in s.published && t !in x.won && t !in x.lost {
      assert t in done.cache && !Owned(done, t);
    }
  }

  lemma MovedSensors(s: State, s': State, x: Effect)
    requires Moved(s, s', x)
    ensures s'.run == s.run && s'.sensors == s.sensors
  {
  }

  /** stop() forgets which status sensors it announced: the books survive it only if there were none. */
  lemma StopKeepsIff(s: State, earlier: set<Topic>, synced: bool)
    requires Inv(s, earlier, synced)
    ensures Books(Stop(s)) <==> s.sensors == {}
  {
    if n :| n in s.sensors {
      assert StatusSensor(n) in s.cache && !Owned(Stop(s), StatusSensor(n));
    }
  }

  /** One zone: the books are right unless it is excluded, new, and takes back a topic the groups announced. */
  lemma SingleZoneIff(c: Settings, s: State, n: nat, groups: seq<Group>, e: Announcement, earlier: set<Topic>,
                      synced: bool)
    requires Inv(s, earlier, synced) && PlanOk(c, n, Plan(groups, [e]))
    ensures Books(TreeRun(c, s, n, Plan(groups, [e])))
            <==> !(c.enabled && e.key !in s.seen && e.excluded) || TopicSet(e.retracts) !! AnnouncedBy(c, n, groups)
  {
    TreeRunResult(c, s, n, Plan(groups, [e]), earlier, synced);
    assert [e][1..] == [];
    assert Effects(c, s.seen, [e]) == Compose(EffectOf(c, s.seen, e), NO_EFFECT);
    hide TreeRun, AnnouncedBy, Books, PlanOk;
  }

  /** An announcement of the form all security zones have. */
  predicate IsZone(n: nat, e: Announcement) {
    && |e.creates| == 2
    && e == ZoneAnnouncement(n, e.key.app, e.key.unit, e.excluded, e.creates[0].1, e.creates[1].1)
  }

  predicate TakesBack(seen: set<Key>, e: Announcement, t: Topic) {
    e.excluded && e.key !in seen && t in e.retracts
  }

  predicate OfZone(t: Topic, e: Announcement) {
    t.Entity? && t.name.Address? && t.name.app == e.key.app && t.name.address == e.key.unit
  }

  lemma ZoneEffect(c: Settings, seen: set<Key>, n: nat, e: Announcement, t: Topic)
    requires IsZone(n, e)
    ensures t in EffectOf(c, seen, e).won || t in EffectOf(c, seen, e).lost ==> OfZone(t, e)
    ensures t in EffectOf(c, seen, e).lost <==> c.enabled && TakesBack(seen, e, t)
  {
    var a, b := e.creates[0], e.creates[1];
    assert e.creates == [a] + [b] && e.creates[1..] == [b] && e.creates[1..][1..] == [];
    assert PayloadsOf(e.creates) == map[a.0 := a.1] + (map[b.0 := b.1] + PayloadsOf([]));
  }

  /** Zones of distinct addresses do not disturb each other: what a run's zones take back is what each takes back. */
  lemma {:induction false} ZonesTakeBack(c: Settings, seen: set<Key>, n: nat, zones: seq<Announcement>, t: Topic)
    requires forall i :: 0 <= i < |zones| ==> IsZone(n, zones[i])
    requires forall i, j :: 0 <= i < j < |zones| ==> zones[i].key != zones[j].key
    ensures var x := Effects(c, seen, zones);
            && (t in x.won || t in x.lost ==> exists i :: 0 <= i < |zones| && OfZone(t, zones[i]))
            && (t in x.lost <==> c.enabled && exists i :: 0 <= i < |zones| && TakesBack(seen, zones[i], t))
    decreases |zones|
  {
    if zones != [] {
      var e, rest, seen' := zones[0], zones[1..], SeenAfter(c, seen, zones[0]);
      var y := Effects(c, seen', rest);
      ZoneEffect(c, seen, n, e, t);
      ZonesTakeBack(c, seen', n, rest, t);
      hide EffectOf, Effects;
      forall i | 0 <= i < |rest|
        ensures rest[i] == zones[i + 1] && (TakesBack(seen', rest[i], t) <==> TakesBack(seen, zones[i + 1], t))
        ensures OfZone(t, rest[i]) ==> !OfZone(t, e)
      {
        assert zones[0].key != zones[i + 1].key && IsZone(n, zones[i + 1]) && IsZone(n, zones[0]);
      }
      assert forall i :: 0 < i < |zones| ==> zones[i] == rest[i - 1];
    }
  }

  /** Does the tree announce this group as a plain binary sensor? */
  predicate AsSensor(g: Group) {
    g.outcome.AsInput? || (g.outcome.AsTyped? && g.outcome.component == BinarySensor)
  }

  lemma {:induction false} SensorAnnouncedIff(c: Settings, n: nat, groups: seq<Group>, app: nat, address: nat)
    ensures Entity(BinarySensor, n, Address(app, address, Whole)) in AnnouncedBy(c, n, groups)
            <==> exists j :: 0 <= j < |groups| && groups[j].app == app && groups[j].address == address
                             && AsSensor(groups[j])
    ensures Entity(BinarySensor, n, Address(app, address, LoopFaultPart)) !in AnnouncedBy(c, n, groups)
    decreases |groups|
  {
    if groups != [] {
      AnnouncedParts(c, n, groups[0]);
      hide Actions;
      SensorAnnouncedIff(c, n, groups[1..], app, address);
      assert forall j :: 0 < j < |groups| ==> groups[j] == groups[1..][j - 1];
    }
  }

  lemma AnnouncedParts(c: Settings, n: nat, g: Group)
    ensures forall t :: t in Announced(Actions(c, n, g)) ==>
                          t.Entity? && t.name.Address? && t.name.part != LoopFaultPart
    ensures forall app, address :: Entity(BinarySensor, n, Address(app, address, Whole)) in Announced(Actions(c, n, g))
                                   <==> g.app == app && g.address == address && AsSensor(g)
  {
    ActionTopics(c, n, g);
    hide Actions, Announced;
  }

  /**
   * The first sighting of a security zone, whatever other entities were seen at its address, announces
   * its two sensors apart with a payload each, or takes both back if the zone is excluded.
   */
  lemma ZoneIsTwoSensors(c: Settings, s: State, n: nat, app: nat, zone: nat, state: Payload, loopFault: Payload)
    requires c.enabled && Key(SecurityZone, n, app, zone) !in s.seen
    ensures var sensor := Entity(BinarySensor, n, Address(app, zone, Whole));
            var fault := Entity(BinarySensor, n, Address(app, zone, LoopFaultPart));
            var s' := Ensure(c, s, ZoneAnnouncement(n, app, zone, false, state, loopFault));
            var out := Ensure(c, s, ZoneAnnouncement(n, app, zone, true, state, loopFault));
            && s'.cache == s.cache[sensor := state][fault := loopFault]
            && s'.broker == s.broker[sensor := state][fault := loopFault]
            && s'.published == s.published + {sensor, fault} && s'.eventDriven == s.eventDriven + {sensor, fault}
            && out.cache == s.cache - {sensor, fault} && out.broker == s.broker - {sensor, fault}
            && s'.seen == out.seen == s.seen + {Key(SecurityZone, n, app, zone)}
  {
    var e := ZoneAnnouncement(n, app, zone, false, state, loopFault);
    assert e.creates[1..] == [e.creates[1]] && e.creates[1..][1..] == [];
    assert e.retracts[1..] == [e.retracts[1]] && e.retracts[1..][1..] == [];
    var s1 := FinishEventDriven(s, e.creates[0].0, e.creates[0].1);
    var s2 := FinishEventDriven(s1, e.creates[1].0, e.creates[1].1);
    assert CreateAll(s, e.creates) == CreateAll(s1, e.creates[1..]) == CreateAll(s2, []) == s2;
    var r1 := RetractEventDriven(s, e.retracts[0]);
    var r2 := RetractEventDriven(r1, e.retracts[1]);
    assert RetractEach(s, e.retracts) == RetractEach(r1, e.retracts[1..]) == RetractEach(r2, []) == r2;
    hide CreateAll, RetractEach;
  }

  /** A new excluded zone at the address of a group the tree announced as a binary sensor. */
  predicate Clashes(seen: set<Key>, zone: Announcement, g: Group) {
    zone.excluded && zone.key !in seen && g.app == zone.key.app && g.address == zone.key.unit && AsSensor(g)
  }

  lemma SparesIffNoClash(c: Settings, s: State, n: nat, plan: Plan)
    requires forall i :: 0 <= i < |plan.zones| ==> IsZone(n, plan.zones[i])
    requires forall i, j :: 0 <= i < j < |plan.zones| ==> plan.zones[i].key != plan.zones[j].key
    ensures Spares(c, s, n, plan)
            <==> !c.enabled || forall i, j :: 0 <= i < |plan.zones| && 0 <= j < |plan.groups| ==>
                                 !Clashes(s.seen, plan.zones[i], plan.groups[j])
  {
    hide AnnouncedBy, Effects;
    if t :| t in Effects(c, s.seen, plan.zones).lost && t in AnnouncedBy(c, n, plan.groups) {
      ZonesTakeBack(c, s.seen, n, plan.zones, t);
      var i :| 0 <= i < |plan.zones| && TakesBack(s.seen, plan.zones[i], t);
      assert IsZone(n, plan.zones[i]);
      SensorAnnouncedIff(c, n, plan.groups, plan.zones[i].key.app, plan.zones[i].key.unit);
    }
    if i, j :| c.enabled && 0 <= i < |plan.zones| && 0 <= j < |plan.groups|
               && Clashes(s.seen, plan.zones[i], plan.groups[j]) {
      var t := plan.zones[i].retracts[0];
      ZonesTakeBack(c, s.seen, n, plan.zones, t);
      SensorAnnouncedIff(c, n, plan.groups, plan.zones[i].key.app, plan.zones[i].key.unit);
      assert TakesBack(s.seen, plan.zones[i], t) && t in AnnouncedBy(c, n, plan.groups);
    }
  }

  /** For security zones, each at its own address: the books are right after a tree run exactly when no zone clashes. */
  lemma SharedZonesIff(c: Settings, s: State, n: nat, plan: Plan, earlier: set<Topic>, synced: bool)
    requires Inv(s, earlier, synced) && PlanOk(c, n, plan)
    requires forall i :: 0 <= i < |plan.zones| ==> IsZone(n, plan.zones[i])
    requires forall i, j :: 0 <= i < j < |plan.zones| ==> plan.zones[i].key != plan.zones[j].key
    ensures Books(TreeRun(c, s, n, plan))
            <==> !c.enabled || forall i, j :: 0 <= i < |plan.zones| && 0 <= j < |plan.groups| ==>
                                 !Clashes(s.seen, plan.zones[i], plan.groups[j])
  {
    TreeRunResult(c, s, n, plan, earlier, synced);
    SparesIffNoClash(c, s, n, plan);
    hide TreeRun, Spares, Books, Clashes, Inv, OnlyNetwork;
  }

  /** Such an input: a motion sensor in the tree, and an excluded zone label for its address. */
  lemma ClashBreaksBooks(c: Settings, n: nat, app: nat, zone: nat, p: Payload, state: Payload, loopFault: Payload)
    requires c.enabled
    ensures var plan := Plan([Group(app, zone, AsTyped(BinarySensor, p))],
                             [ZoneAnnouncement(n, app, zone, true, state, loopFault)]);
            var s := TreeRun(c, INITIAL, n, plan);
            EventOk(c, TreeParsed(n, plan)) && !Books(s)
            && exists t :: t in s.published && t !in s.cache && t !in s.broker
  {
    var g, e := Group(app, zone, AsTyped(BinarySensor, p)), ZoneAnnouncement(n, app, zone, true, state, loopFault);
    var plan := Plan([g], [e]);
    var t := Entity(BinarySensor, n, Address(app, zone, Whole));
    TreeRunResult(c, INITIAL, n, plan, {}, true);
    TreeRunRetained(c, INITIAL, n, plan, {}, true);
    ZonesTakeBack(c, {}, n, [e], t);
    SensorAnnouncedIff(c, n, [g], app, zone);
    hide TreeRun, AnnouncedBy, Effects, Books, OnlyNetwork;
    assert TakesBack({}, plan.zones[0], t) && AsSensor(plan.groups[0]);
  }

  // Which entities count as announced, and when one is announced again.

  predicate HasZone(zones: seq<Announcement>, key: Key) {
    exists i :: 0 <= i < |zones| && zones[i].key == key
  }

  /** The event is about this entity: a sighting, a label change, or a tree run that lists it among its zones. */
  predicate Concerns(e: Event, key: Key) {
    match e
    case Seen(a) => a.key == key
    case Relabelled(a, _) => a.key == key
    case TreeParsed(_, plan) => HasZone(plan.zones, key)
    case _ => false
  }

  /** The entity's label went away: it no longer counts as announced. */
  predicate Drops(e: Event, key: Key) {
    e.Relabelled? && e.e.key == key && !e.again
  }

  lemma EnsureSeen(c: Settings, s: State, e: Announcement, key: Key)
    requires c.enabled
    ensures key in Ensure(c, s, e).seen <==> key in s.seen || e.key == key
  {
    EnsureMoves(c, s, e);
    hide Ensure;
  }

  lemma {:induction false} ZonesSeen(c: Settings, s: State, zones: seq<Announcement>, key: Key)
    requires c.enabled
    ensures key in EnsureAll(c, s, zones).seen <==> key in s.seen || HasZone(zones, key)
    decreases |zones|
  {
    if zones != [] {
      var rest := zones[1..];
      EnsureSeen(c, s, zones[0], key);
      hide Ensure;
      ZonesSeen(c, Ensure(c, s, zones[0]), rest, key);
      assert forall i :: 0 < i < |zones| ==> zones[i] == rest[i - 1];
      assert HasZone(rest, key) ==> HasZone(zones, key) by {
        assert forall i :: 0 <= i < |rest| ==> rest[i] == zones[i + 1];
      }
    }
  }

  lemma {:induction false} ActionsLeaveSeen(s: State, actions: seq<Action>)
    ensures ActAll(s, actions).seen == s.seen
    decreases |actions|
  {
    if actions != [] {
      ActionsLeaveSeen(Act(s, actions[0]), actions[1..]);
    }
  }

  lemma {:induction false} GroupsLeaveSeen(c: Settings, s: State, n: nat, groups: seq<Group>)
    ensures ProcessGroups(c, s, n, groups).seen == s.seen
    decreases |groups|
  {
    if groups != [] {
      hide Actions, ActAll;
      var s1 := s.(treeGroups := s.treeGroups + {GroupAddress(n, groups[0].app, groups[0].address)});
      ActionsLeaveSeen(s1, Actions(c, n, groups[0]));
      GroupsLeaveSeen(c, ProcessGroup(c, s, n, groups[0], true), n, groups[1..]);
    }
  }

  /** Only events that concern an entity change whether it counts as announced. */
  lemma StepSeen(c: Settings, s: State, e: Event, key: Key)
    requires c.enabled
    ensures key in Step(c, s, e).seen <==> if Concerns(e, key) then !Drops(e, key) else key in s.seen
  {
    hide EnsureAll, ProcessGroups, Ensure, ActAll, Actions;
    match e
    case TreeParsed(n, plan) =>
      var s1 := s.(run := Some({}));
      GroupsLeaveSeen(c, s1, n, plan.groups);
      ZonesSeen(c, ProcessGroups(c, s1, n, plan.groups), plan.zones, key);
    case Seen(a) => EnsureSeen(c, s, a, key);
    case Relabelled(a, again) => EnsureSeen(c, s.(seen := s.seen - {a.key}), a, key);
    case UnlistedSeen(n, g, eligible) =>
      ActionsLeaveSeen(s.(run := Some({})), Actions(c, n, g));
      ActionsLeaveSeen(s, Actions(c, n, g));
    case Removed(n) =>
    case Status(n, p) =>
  }

  predicate LastConcern(es: seq<Event>, i: int, key: Key) {
    0 <= i < |es| && Concerns(es[i], key) && forall j :: i < j < |es| ==> !Concerns(es[j], key)
  }

  /** Its label went away last; or it was never announced, and nothing since was about it. */
  ghost predicate Forgotten(known: bool, es: seq<Event>, key: Key) {
    || (exists i :: LastConcern(es, i, key) && Drops(es[i], key))
    || (!known && forall i :: 0 <= i < |es| ==> !Concerns(es[i], key))
  }

  lemma ForgottenFrom(known: bool, es: seq<Event>, key: Key)
    requires es != []
    ensures Forgotten(known, es, key)
            <==> Forgotten(if Concerns(es[0], key) then !Drops(es[0], key) else known, es[1..], key)
  {
    hide Concerns, Drops;
    var rest := es[1..];
    assert forall i :: 0 < i < |es| ==> es[i] == rest[i - 1];
    assert forall i :: 0 <= i < |rest| ==> rest[i] == es[i + 1];
    forall i | 0 <= i < |rest| ensures LastConcern(rest, i, key) <==> LastConcern(es, i + 1, key) {
      assert forall j :: i + 1 < j < |es| ==> es[j] == rest[j - 1];
      assert forall j :: i < j < |rest| ==> rest[j] == es[j + 1];
    }
    assert LastConcern(es, 0, key) <==> Concerns(es[0], key) && forall i :: 0 <= i < |rest| ==> !Concerns(rest[i], key);
    assert forall i :: LastConcern(es, i, key) && i > 0 ==> LastConcern(rest, i - 1, key);
  }

  lemma {:induction false} SeenUnlessForgotten(c: Settings, s: State, es: seq<Event>, key: Key)
    requires c.enabled
    ensures key !in Run(c, s, es).seen <==> Forgotten(key in s.seen, es, key)
    decreases |es|
  {
    hide Step, Concerns, Drops;
    if es != [] {
      StepSeen(c, s, es[0], key);
      ForgottenFrom(key in s.seen, es, key);
      hide Forgotten;
      SeenUnlessForgotten(c, Step(c, s, es[0]), es[1..], key);
    }
  }

  /**
   * Removing a network does not forget which of its event-driven entities were announced. Whatever
   * happens later, seeing an entity again does anything if and only if it is forgotten: then, unless it
   * is excluded, it is announced with all its payloads.
   */
  lemma RemovedEntityReturnsIff(c: Settings, s: State, es: seq<Event>, e: Announcement)
    ensures var s' := Run(c, NetworkRemoved(c, s, e.key.network), es);
            && (Ensure(c, s', e) != s' <==> c.enabled && Forgotten(e.key in s.seen, es, e.key))
            && (c.enabled && !e.excluded && Forgotten(e.key in s.seen, es, e.key) ==> IsAnnounced(Ensure(c, s', e), e))
  {
    var s0 := NetworkRemoved(c, s, e.key.network);
    var s' := Run(c, s0, es);
    if c.enabled {
      SeenUnlessForgotten(c, s0, es, e.key);
      EnsureSeen(c, s', e, e.key);
    }
    hide Run, NetworkRemoved, Forgotten;
    EnsureAnnounces(c, s', e);
  }

  /** All the entity's configs are retained, cached and in the session's set. */
  ghost predicate IsAnnounced(s: State, e: Announcement) {
    var payloads := PayloadsOf(e.creates);
    forall t :: t in payloads ==>
                  && t in s.broker && t in s.cache && s.broker[t] == s.cache[t] == payloads[t]
                  && t in s.published && t in s.eventDriven
  }

  lemma EnsureAnnounces(c: Settings, s: State, e: Announcement)
    ensures c.enabled && e.key !in s.seen && !e.excluded ==> IsAnnounced(Ensure(c, s, e), e)
  {
    EnsureMoves(c, s, e);
    hide Ensure, PayloadsOf;
    forall t | c.enabled && e.key !in s.seen && !e.excluded && t in PayloadsOf(e.creates)
      ensures var s' := Ensure(c, s, e);
              && t in s'.broker && t in s'.cache && s'.broker[t] == s'.cache[t] == PayloadsOf(e.creates)[t]
              && t in s'.published && t in s'.eventDriven
    {
      MovedAt(s, Ensure(c, s, e), EffectOf(c, s.seen, e), t);
    }
  }

  /** Events about other entities make no difference: an entity returns exactly if it had never been announced. */
  lemma UnconcernedEntityReturnsIff(c: Settings, s: State, es: seq<Event>, e: Announcement)
    requires forall i :: 0 <= i < |es| ==> !Concerns(es[i], e.key)
    ensures var s' := Run(c, NetworkRemoved(c, s, e.key.network), es);
            Ensure(c, s', e) != s' <==> c.enabled && e.key !in s.seen
  {
    RemovedEntityReturnsIff(c, s, es, e);
    hide Run, Concerns;
  }

  /** A changed label announces an entity at once; one that went away leaves that to the next sighting. */
  lemma RelabellingReturns(c: Settings, s: State, e: Announcement)
    requires c.enabled && !e.excluded
    ensures IsAnnounced(Step(c, s, Relabelled(e, true)), e)
    ensures var s' := Step(c, s, Relabelled(e, false));
            s' == s.(seen := s.seen - {e.key}) && IsAnnounced(Step(c, s', Seen(e)), e)
  {
    EnsureAnnounces(c, s.(seen := s.seen - {e.key}), e);
    hide Ensure;
  }

  /** So an announced entity stays gone after its network was removed, short of a label change. */
  lemma RemovedEntityStaysSilent(c: Settings, s: State, es: seq<Event>, e: Announcement)
    requires e.key in s.seen && forall i :: 0 <= i < |es| ==> !Drops(es[i], e.key)
    ensures var s' := Run(c, NetworkRemoved(c, s, e.key.network), es); Ensure(c, s', e) == s'
  {
    RemovedEntityReturnsIff(c, s, es, e);
    hide Run;
  }
}
