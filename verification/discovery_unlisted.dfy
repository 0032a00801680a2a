/**
 * Groups seen on the bus that no tree has listed: when one is announced, told from the events alone,
 * and what becomes of its topics.
 */
module DiscoveryUnlisted {
  import opened DiscoveryGuarantees
  import opened DiscoverySpec
  import opened Options

  predicate IsGroupAt(g: Group, n: nat, a: GroupAddress) {
    n == a.network && g.app == a.app && g.address == a.address
  }

  /** A tree run has a group at the address. */
  predicate Lists(e: Event, a: GroupAddress) {
    e.TreeParsed? && exists j :: 0 <= j < |e.plan.groups| && IsGroupAt(e.plan.groups[j], e.network, a)
  }

  /** A group of an application with an entity type is seen at the address. */
  predicate Sights(e: Event, a: GroupAddress) {
    e.UnlistedSeen? && e.eligible && IsGroupAt(e.group, e.network, a)
  }

  ghost predicate ListedIn(es: seq<Event>, a: GroupAddress) {
    exists i :: 0 <= i < |es| && Lists(es[i], a)
  }

  ghost predicate SightedIn(es: seq<Event>, a: GroupAddress) {
    exists i :: 0 <= i < |es| && Sights(es[i], a)
  }

  lemma {:induction false} ActionsLeaveRecords(s: State, actions: seq<Action>)
    ensures var s' := ActAll(s, actions); s'.treeGroups == s.treeGroups && s'.unlistedSeen == s.unlistedSeen
    decreases |actions|
  {
    if actions != [] {
      ActionsLeaveRecords(Act(s, actions[0]), actions[1..]);
    }
  }

  lemma {:induction false} GroupsRecord(c: Settings, s: State, n: nat, groups: seq<Group>, a: GroupAddress)
    ensures var s' := ProcessGroups(c, s, n, groups);
            && s'.unlistedSeen == s.unlistedSeen
            && (a in s'.treeGroups <==>
                  a in s.treeGroups || exists j :: 0 <= j < |groups| && IsGroupAt(groups[j], n, a))
    decreases |groups|
  {
    hide Actions, ActAll;
    if groups != [] {
      var g, rest := groups[0], groups[1..];
      var s1 := ProcessGroup(c, s, n, g, true);
      ActionsLeaveRecords(s.(treeGroups := s.treeGroups + {GroupAddress(n, g.app, g.address)}), Actions(c, n, g));
      GroupsRecord(c, s1, n, rest, a);
      hide ProcessGroup;
      assert forall j :: 0 < j < |groups| ==> groups[j] == rest[j - 1];
      assert forall j :: 0 <= j < |rest| ==> rest[j] == groups[j + 1];
    }
  }

  lemma {:induction false} CreatesLeaveRecords(s: State, creates: seq<(Topic, Payload)>)
    ensures var s' := CreateAll(s, creates); s'.treeGroups == s.treeGroups && s'.unlistedSeen == s.unlistedSeen
    decreases |creates|
  {
    if creates != [] {
      CreatesLeaveRecords(FinishEventDriven(s, creates[0].0, creates[0].1), creates[1..]);
    }
  }

  lemma {:induction false} RetractsLeaveRecords(s: State, topics: seq<Topic>)
    ensures var s' := RetractEach(s, topics); s'.treeGroups == s.treeGroups && s'.unlistedSeen == s.unlistedSeen
    decreases |topics|
  {
    if topics != [] {
      RetractsLeaveRecords(RetractEventDriven(s, topics[0]), topics[1..]);
    }
  }

  lemma EnsureLeavesRecords(c: Settings, s: State, e: Announcement)
    ensures var s' := Ensure(c, s, e); s'.treeGroups == s.treeGroups && s'.unlistedSeen == s.unlistedSeen
  {
    CreatesLeaveRecords(s, e.creates);
    RetractsLeaveRecords(s, e.retracts);
    hide CreateAll, RetractEach;
  }

  lemma {:induction false} ZonesLeaveRecords(c: Settings, s: State, zones: seq<Announcement>)
    ensures var s' := EnsureAll(c, s, zones); s'.treeGroups == s.treeGroups && s'.unlistedSeen == s.unlistedSeen
    decreases |zones|
  {
    hide Ensure;
    if zones != [] {
      EnsureLeavesRecords(c, s, zones[0]);
      ZonesLeaveRecords(c, Ensure(c, s, zones[0]), zones[1..]);
    }
  }

  lemma UnlistedRecords(c: Settings, s: State, n: nat, g: Group, eligible: bool, a: GroupAddress)
    ensures var s' := EnsureUnlisted(c, s, n, g, eligible);
            && s'.treeGroups == s.treeGroups
            && (a in s'.unlistedSeen <==>
                  || a in s.unlistedSeen
                  || (c.enabled && c.unlistedGroups && eligible && IsGroupAt(g, n, a) && a !in s.treeGroups))
  {
    ActionsLeaveRecords(s.(run := Some({})), Actions(c, n, g));
    ActionsLeaveRecords(s, Actions(c, n, g));
    hide ActAll, Actions;
  }

  lemma StepRecords(c: Settings, s: State, e: Event, a: GroupAddress)
    ensures var s' := Step(c, s, e);
            && (a in s'.treeGroups <==> a in s.treeGroups || Lists(e, a))
            && (a in s'.unlistedSeen <==>
                  a in s.unlistedSeen || (c.enabled && c.unlistedGroups && Sights(e, a) && a !in s.treeGroups))
  {
    hide ProcessGroups, EnsureAll, Ensure, EnsureUnlisted;
    match e
    case TreeParsed(n, plan) =>
      var s1 := s.(run := Some({}));
      GroupsRecord(c, s1, n, plan.groups, a);
      ZonesLeaveRecords(c, ProcessGroups(c, s1, n, plan.groups), plan.zones);
    case Seen(x) => EnsureLeavesRecords(c, s, x);
    case Relabelled(x, again) => EnsureLeavesRecords(c, s.(seen := s.seen - {x.key}), x);
    case UnlistedSeen(n, g, eligible) => UnlistedRecords(c, s, n, g, eligible, a);
    case Removed(n) =>
    case Status(n, p) =>
  }

  lemma {:induction false} RunRecords(c: Settings, s: State, es: seq<Event>, a: GroupAddress)
    ensures var s' := Run(c, s, es);
            && (a in s'.treeGroups <==> a in s.treeGroups || ListedIn(es, a))
            && (a !in s'.treeGroups ==>
                  (a in s'.unlistedSeen <==>
                     a in s.unlistedSeen || (c.enabled && c.unlistedGroups && SightedIn(es, a))))
    decreases |es|
  {
    hide Step, Lists, Sights;
    if es != [] {
      var rest := es[1..];
      StepRecords(c, s, es[0], a);
      RunRecords(c, Step(c, s, es[0]), rest, a);
      assert forall i :: 0 < i < |es| ==> es[i] == rest[i - 1];
      assert forall i :: 0 <= i < |rest| ==> rest[i] == es[i + 1];
      assert ListedIn(es, a) <==> Lists(es[0], a) || ListedIn(rest, a);
      assert SightedIn(es, a) <==> Sights(es[0], a) || SightedIn(rest, a);
    }
  }

  /**
   * Over every history: a sighting changes anything if and only if both settings are on, the group's
   * application has an entity type, no tree run has listed the address so far, and no such sighting of
   * it came before.
   */
  lemma UnlistedIsTakenIff(c: Settings, es: seq<Event>, n: nat, g: Group, eligible: bool)
    ensures var s, a := Run(c, INITIAL, es), GroupAddress(n, g.app, g.address);
            EnsureUnlisted(c, s, n, g, eligible) != s <==>
            && c.enabled && c.unlistedGroups && eligible && !ListedIn(es, a) && !SightedIn(es, a)
  {
    var s, a := Run(c, INITIAL, es), GroupAddress(n, g.app, g.address);
    RunRecords(c, INITIAL, es, a);
    UnlistedRecords(c, s, n, g, eligible, a);
    hide Run, ListedIn, SightedIn, ProcessGroup;
  }

  // What becomes of the topics.

  lemma {:induction false} ActionsFinish(s: State, actions: seq<Action>)
    requires s.run.Some? && Announced(actions) !! Cleared(actions)
    ensures var s' := ActAll(s, actions);
            && s'.run == Some(s.run.value + Announced(actions)) && s'.eventDriven == s.eventDriven
            && s'.published == s.published - Cleared(actions)
            && (forall t :: t in Announced(actions) ==> t in s'.cache && t in s'.broker)
            && (forall t :: t !in Cleared(actions) ==>
                  && (t in s.cache ==> t in s'.cache) && (t in s.broker ==> t in s'.broker))
    decreases |actions|
  {
    if actions == [] {
      assert s.run.value + {} == s.run.value && s.published - {} == s.published;
    } else {
      var s1 := Act(s, actions[0]);
      ActionsFinish(s1, actions[1..]);
      assert s1.run.value + Announced(actions[1..]) == s.run.value + Announced(actions);
    }
  }

  /** Taken outside a tree run: every topic the group has is cached, retained, published and event-driven. */
  lemma TakenIsAnnounced(c: Settings, s: State, n: nat, g: Group)
    requires Possible(c, g) && s.run.None?
    requires EnsureUnlisted(c, s, n, g, true) != s
    ensures var s', own := EnsureUnlisted(c, s, n, g, true), Announced(Actions(c, n, g));
            && (own == {} <==> g.outcome.Excluded?) && s'.run.None?
            && (forall t :: t in own ==> t in s'.cache && t in s'.broker && t in s'.published && t in s'.eventDriven)
  {
    ActionsAreApart(c, n, g);
    ActionTopics(c, n, g);
    ActionsFinish(s.(run := Some({})), Actions(c, n, g));
    hide Actions, ActAll, Possible;
  }

  /** Taken inside a tree run: its topics are that run's, and if any is new, so marked as the bus's own. */
  lemma TakenInsideRun(c: Settings, s: State, n: nat, g: Group)
    requires Possible(c, g) && s.run.Some?
    requires EnsureUnlisted(c, s, n, g, true) != s
    ensures var s', own := EnsureUnlisted(c, s, n, g, true), Announced(Actions(c, n, g));
            && s'.run == Some(s.run.value + own) && s'.published == s.published - Cleared(Actions(c, n, g))
            && s'.eventDriven == if own <= s.run.value then s.eventDriven else s.eventDriven + s.run.value + own
  {
    var own := Announced(Actions(c, n, g));
    ActionsAreApart(c, n, g);
    ActionsFinish(s, Actions(c, n, g));
    hide Actions, ActAll, Possible, Announced, Cleared;
    GrowsIff(s.run.value, own);
    assert s.eventDriven + s.run.value + own == s.eventDriven + (s.run.value + own);
  }

  lemma GrowsIff(before: set<Topic>, own: set<Topic>)
    ensures |before + own| > |before| <==> !(own <= before)
  {
    assert before + own == before + (own - before);
  }

  predicate IsKept(s: State, t: Topic) {
    t in s.cache && t in s.broker && t in s.published && t in s.eventDriven
  }

  lemma {:induction false} GroupsKeep(c: Settings, s: State, n: nat, groups: seq<Group>, t: Topic)
    requires s.run.Some? && IsKept(s, t)
    requires forall i :: 0 <= i < |groups| ==> Possible(c, groups[i]) && !AtGroup(t, n, groups[i])
    ensures IsKept(ProcessGroups(c, s, n, groups), t)
    decreases |groups|
  {
    if groups != [] {
      var s1 := s.(treeGroups := s.treeGroups + {GroupAddress(n, groups[0].app, groups[0].address)});
      ActionsAreApart(c, n, groups[0]);
      ActionsFinish(s1, Actions(c, n, groups[0]));
      hide Actions, ActAll, Possible, AtGroup;
      GroupsKeep(c, ProcessGroup(c, s, n, groups[0], true), n, groups[1..], t);
    }
  }

  lemma {:induction false} NotRetracted(topics: seq<Topic>, t: Topic)
    requires t !in topics
    ensures t !in TopicSet(topics)
  {
  }

  lemma EnsureKeepsTopic(c: Settings, s: State, e: Announcement, t: Topic)
    requires IsKept(s, t) && t !in e.retracts
    ensures IsKept(Ensure(c, s, e), t)
  {
    EnsureMoves(c, s, e);
    NotRetracted(e.retracts, t);
    hide Ensure, PayloadsOf;
  }

  lemma {:induction false} ZonesKeep(c: Settings, s: State, zones: seq<Announcement>, t: Topic)
    requires IsKept(s, t) && forall i :: 0 <= i < |zones| ==> t !in zones[i].retracts
    ensures IsKept(EnsureAll(c, s, zones), t)
    decreases |zones|
  {
    if zones != [] {
      EnsureKeepsTopic(c, s, zones[0], t);
      hide Ensure, IsKept;
      ZonesKeep(c, Ensure(c, s, zones[0]), zones[1..], t);
    }
  }

  /**
   * So what a sighting announced is still there after the next tree run of any network, sweep and all,
   * unless that run has a group at the very address or a zone that takes the topic back.
   */
  lemma AnnouncedSurvivesRun(c: Settings, s: State, t: Topic, n: nat, plan: Plan)
    requires IsKept(s, t)
    requires forall i :: 0 <= i < |plan.groups| ==> Possible(c, plan.groups[i]) && !AtGroup(t, n, plan.groups[i])
    requires forall i :: 0 <= i < |plan.zones| ==> t !in plan.zones[i].retracts
    ensures IsKept(TreeRun(c, s, n, plan), t)
  {
    var s1 := s.(run := Some({}));
    GroupsKeep(c, s1, n, plan.groups, t);
    ZonesKeep(c, ProcessGroups(c, s1, n, plan.groups), plan.zones, t);
    hide ProcessGroups, EnsureAll, Possible, AtGroup;
  }
}
