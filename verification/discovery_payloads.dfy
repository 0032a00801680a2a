/** What a tree run leaves in the replay cache, and so on the broker, as an equation about payloads. */
module DiscoveryPayloads {
  import opened DiscoverySpec
  import opened DiscoveryGuarantees
  import opened DiscoveryResults
  import opened Options

  /** The payload each topic of a group is announced with. */
  function Payloads(actions: seq<Action>): map<Topic, Payload>
    decreases |actions|
  {
    if actions == [] then map[]
    else (if actions[0].Announce? then map[actions[0].topic := actions[0].payload] else map[]) + Payloads(actions[1..])
  }

  function PayloadsBy(c: Settings, n: nat, groups: seq<Group>): map<Topic, Payload>
    decreases |groups|
  {
    if groups == [] then map[] else Payloads(Actions(c, n, groups[0])) + PayloadsBy(c, n, groups[1..])
  }

  lemma {:induction false} PayloadKeys(actions: seq<Action>)
    ensures Payloads(actions).Keys == Announced(actions)
    decreases |actions|
  {
    if actions != [] {
      PayloadKeys(actions[1..]);
    }
  }

  lemma {:induction false} PayloadKeysBy(c: Settings, n: nat, groups: seq<Group>)
    ensures PayloadsBy(c, n, groups).Keys == AnnouncedBy(c, n, groups)
    decreases |groups|
  {
    if groups != [] {
      PayloadKeys(Actions(c, n, groups[0]));
      hide Actions;
      PayloadKeysBy(c, n, groups[1..]);
    }
  }

  lemma MergeMaps(m: map<Topic, Payload>, c1: set<Topic>, p1: map<Topic, Payload>,
                  c2: set<Topic>, p2: map<Topic, Payload>)
    requires p1.Keys !! c2
    ensures (m - c1 + p1) - c2 + p2 == (m - (c1 + c2)) + (p1 + p2)
  {
  }

  lemma ActCache(s: State, a: Action)
    ensures Act(s, a).cache == (s.cache - Cleared([a])) + Payloads([a])
  {
    assert [a][1..] == [];
  }

  /** A group that does not clear what it announces takes its topics over and the cleared ones out. */
  lemma {:induction false} ActAllCache(s: State, actions: seq<Action>)
    requires Announced(actions) !! Cleared(actions)
    ensures ActAll(s, actions).cache == (s.cache - Cleared(actions)) + Payloads(actions)
    decreases |actions|
  {
    hide Act;
    if actions == [] {
      assert s.cache - {} == s.cache;
    } else {
      var first, rest := [actions[0]], actions[1..];
      assert first[1..] == [] && first + rest == actions;
      AppendActions(first, rest);
      ActCache(s, actions[0]);
      ActAllCache(Act(s, actions[0]), rest);
      PayloadKeys(first);
      assert Payloads(actions) == Payloads(first) + Payloads(rest);
      MergeMaps(s.cache, Cleared(first), Payloads(first), Cleared(rest), Payloads(rest));
      hide Payloads, Cleared, Announced;
    }
  }

  ghost predicate AtSome(t: Topic, n: nat, groups: seq<Group>) {
    exists i :: 0 <= i < |groups| && AtGroup(t, n, groups[i])
  }

  lemma {:induction false} ClearedAtGroups(c: Settings, n: nat, groups: seq<Group>)
    requires forall i :: 0 <= i < |groups| ==> Possible(c, groups[i])
    ensures forall t :: t in ClearedBy(c, n, groups) ==> AtSome(t, n, groups)
    decreases |groups|
  {
    if groups != [] {
      ActionsAreApart(c, n, groups[0]);
      hide Actions, Possible, AtGroup;
      ClearedAtGroups(c, n, groups[1..]);
      forall t | t in ClearedBy(c, n, groups) ensures AtSome(t, n, groups) {
        if t in Cleared(Actions(c, n, groups[0])) {
          assert AtGroup(t, n, groups[0]);
        } else {
          assert AtSome(t, n, groups[1..]);
          var i :| 0 <= i < |groups[1..]| && AtGroup(t, n, groups[1..][i]);
          assert groups[i + 1] == groups[1..][i];
        }
      }
    }
  }

  lemma ApartFromRest(n: nat, groups: seq<Group>, t: Topic)
    requires groups != [] && forall i, j :: 0 <= i < j < |groups| ==> !SameAddress(groups[i], groups[j])
    ensures AtGroup(t, n, groups[0]) ==> !AtSome(t, n, groups[1..])
  {
    if AtGroup(t, n, groups[0]) {
      forall i | 0 <= i < |groups[1..]| ensures !AtGroup(t, n, groups[1..][i]) {
        assert groups[1..][i] == groups[i + 1] && !SameAddress(groups[0], groups[i + 1]);
      }
    }
  }

  lemma ProcessGroupCache(c: Settings, s: State, n: nat, g: Group)
    requires Possible(c, g)
    ensures var actions := Actions(c, n, g);
            ProcessGroup(c, s, n, g, true).cache == (s.cache - Cleared(actions)) + Payloads(actions)
  {
    ActionsAreApart(c, n, g);
    hide Actions, Possible;
    ActAllCache(s.(treeGroups := s.treeGroups + {GroupAddress(n, g.app, g.address)}), Actions(c, n, g));
  }

  lemma {:induction false} ProcessGroupsCache(c: Settings, s: State, n: nat, groups: seq<Group>)
    requires forall i :: 0 <= i < |groups| ==> Possible(c, groups[i])
    requires forall i, j :: 0 <= i < j < |groups| ==> !SameAddress(groups[i], groups[j])
    ensures ProcessGroups(c, s, n, groups).cache == (s.cache - ClearedBy(c, n, groups)) + PayloadsBy(c, n, groups)
    decreases |groups|
  {
    if groups == [] {
      assert s.cache - {} == s.cache;
    } else {
      var g, rest := groups[0], groups[1..];
      ProcessGroupCache(c, s, n, g);
      ProcessGroupsCache(c, ProcessGroup(c, s, n, g, true), n, rest);
      ActionsAreApart(c, n, g);
      PayloadKeys(Actions(c, n, g));
      ClearedAtGroups(c, n, rest);
      hide Actions, ProcessGroup, Possible;
      forall t | t in Announced(Actions(c, n, g)) ensures t !in ClearedBy(c, n, rest) {
        ApartFromRest(n, groups, t);
      }
      MergeMaps(s.cache, Cleared(Actions(c, n, g)), Payloads(Actions(c, n, g)),
                ClearedBy(c, n, rest), PayloadsBy(c, n, rest));
    }
  }

  /**
   * After a tree run every topic its groups or its zones dealt with is retained exactly as the zones'
   * effect on the groups' payloads says: a topic a zone announced has the zone's payload, whoever else
   * announced it; one a zone took back is gone; every other topic of a group has the group's payload.
   */
  lemma RunRetainsPayloads(c: Settings, s: State, n: nat, plan: Plan, earlier: set<Topic>)
    requires Inv(s, earlier, true) && PlanOk(c, n, plan)
    ensures var s', x := TreeRun(c, s, n, plan), Effects(c, s.seen, plan.zones);
            var payloads := PayloadsBy(c, n, plan.groups);
            forall t :: t in payloads || t in x.won || t in x.lost ==>
                          && (t in s'.cache <==> t in Patch(payloads, x))
                          && (t in s'.broker <==> t in Patch(payloads, x))
                          && (t in Patch(payloads, x) ==> s'.cache[t] == s'.broker[t] == Patch(payloads, x)[t])
  {
    var start, x, payloads := s.(run := Some({})), Effects(c, s.seen, plan.zones), PayloadsBy(c, n, plan.groups);
    var s0, s1 := ProcessGroups(c, start, n, plan.groups), TreeRunBody(c, s, n, plan);
    ProcessGroupsCache(c, start, n, plan.groups);
    PayloadKeysBy(c, n, plan.groups);
    TreeRunBodyKeeps(c, s, n, plan, earlier, true);
    TreeRunRetained(c, s, n, plan, earlier, true);
    assert TreeRun(c, s, n, plan) == FinishRun(s1, n);
    hide TreeRun, TreeRunBody, ProcessGroups, Effects, PayloadsBy, PlanOk, OnlyNetwork, Books;
    forall t | t in payloads || t in x.won || t in x.lost
      ensures var s' := FinishRun(s1, n);
              && (t in s'.cache <==> t in Patch(payloads, x)) && (t in s'.broker <==> t in Patch(payloads, x))
              && (t in Patch(payloads, x) ==> s'.cache[t] == s'.broker[t] == Patch(payloads, x)[t])
    {
      MovedAt(s0, s1, x, t);
      PatchAt(payloads, x, t);
      FinishRunAt(s1, n, t);
      assert t in payloads ==> t in s0.cache && s0.cache[t] == payloads[t] && t in s0.broker;
      assert t in StaleTopics(s1, n) ==> t !in s1.eventDriven && t !in s1.run.value;
      assert t in payloads ==> t in s1.run.value;
      hide FinishRun, StaleTopics, Moved, Patch;
    }
  }
}
