/**
 * The discovery bookkeeping of src/haDiscovery.js and src/haDiscoveryPublishers.js as the object it
 * is; every method is proved against DiscoverySpec.
 */
module Discovery {
  import opened DiscoverySpec
  import opened DiscoveryGuarantees
  import opened Options

  class HaDiscovery {
    const settings: Settings
    var publishedConfigPayloads: map<Topic, Payload>
    var publishedTopics: set<Topic>
    var currentRunTopics: Option<set<Topic>>
    var eventDrivenDiscoveryTopics: set<Topic>
    var networkDiscoveryEntities: set<nat>
    var seen: set<Key>
    var treeDiscoveredGroups: set<GroupAddress>
    var unlistedGroupSeen: set<GroupAddress>

    // The retained configs on the broker.
    var broker: map<Topic, Payload>

    ghost function Abs(): State
      reads this
    {
      State(publishedConfigPayloads, broker, publishedTopics, currentRunTopics, eventDrivenDiscoveryTopics,
            networkDiscoveryEntities, seen, treeDiscoveredGroups, unlistedGroupSeen)
    }

    constructor (settings: Settings)
      ensures this.settings == settings && Abs() == INITIAL
    {
      this.settings := settings;
      publishedConfigPayloads, broker := map[], map[];
      publishedTopics, currentRunTopics, eventDrivenDiscoveryTopics := {}, None, {};
      networkDiscoveryEntities, seen, treeDiscoveredGroups, unlistedGroupSeen := {}, {}, {}, {};
    }

    /** The function the bridge hands in; an absent payload clears the retained message. */
    method RawPublish(topic: Topic, payload: Option<Payload>)
      modifies this`broker
      ensures broker == match payload case Some(p) => old(broker)[topic := p] case None => old(broker) - {topic}
    {
      match payload
      case Some(p) => broker := broker[topic := p];
      case None => broker := broker - {topic};
    }

    /** The wrapper that records what would have to be replayed. */
    method Publish(topic: Topic, payload: Option<Payload>)
      modifies this`broker, this`publishedConfigPayloads
      ensures Abs() == match payload
                       case Some(p) => DiscoverySpec.Publish(old(Abs()), topic, p)
                       case None => Retract(old(Abs()), topic)
    {
      match payload {
        case Some(p) => publishedConfigPayloads := publishedConfigPayloads[topic := p];
        case None => publishedConfigPayloads := publishedConfigPayloads - {topic};
      }
      RawPublish(topic, payload);
    }

    method RepublishDiscoveryConfigs() returns (count: nat)
      modifies this`broker
      ensures Abs() == Replay(old(Abs())) && count == |publishedConfigPayloads|
    {
      count := 0;
      var entries := publishedConfigPayloads;
      var todo := entries.Keys;
      ghost var start := broker;
      while todo != {}
        invariant todo <= entries.Keys && count + |todo| == |entries.Keys|
        invariant broker + entries == start + entries
        invariant forall t :: t in entries && t !in todo ==> t in broker && broker[t] == entries[t]
        decreases |todo|
      {
        var topic :| topic in todo;
        RepublishOne(broker, entries, topic);
        RawPublish(topic, Some(entries[topic]));
        todo := todo - {topic};
        count := count + 1;
      }
      assert broker == broker + entries;
    }

    method FinishTreeEntity(topic: Topic, payload: Payload)
      modifies this`broker, this`publishedConfigPayloads, this`currentRunTopics
      ensures Abs() == FinishTree(old(Abs()), topic, payload)
    {
      Publish(topic, Some(payload));
      if currentRunTopics.Some? {
        currentRunTopics := Some(currentRunTopics.value + {topic});
      }
    }

    method FinishEventDrivenEntity(topic: Topic, payload: Payload)
      modifies this`broker, this`publishedConfigPayloads, this`publishedTopics, this`eventDrivenDiscoveryTopics
      ensures Abs() == FinishEventDriven(old(Abs()), topic, payload)
    {
      Publish(topic, Some(payload));
      publishedTopics := publishedTopics + {topic};
      eventDrivenDiscoveryTopics := eventDrivenDiscoveryTopics + {topic};
    }

    method RetractEventDrivenConfig(topic: Topic)
      modifies this`broker, this`publishedConfigPayloads, this`publishedTopics, this`eventDrivenDiscoveryTopics
      ensures Abs() == RetractEventDriven(old(Abs()), topic)
    {
      Publish(topic, None);
      publishedTopics := publishedTopics - {topic};
      eventDrivenDiscoveryTopics := eventDrivenDiscoveryTopics - {topic};
    }

    method ClearStaleConfig(topic: Topic)
      modifies this`broker, this`publishedConfigPayloads, this`publishedTopics
      ensures Abs() == ClearStale(old(Abs()), topic)
    {
      Publish(topic, None);
      publishedTopics := publishedTopics - {topic};
    }

    method ClearStaleLightConfig(n: nat, g: Group)
      modifies this`broker, this`publishedConfigPayloads, this`publishedTopics
      ensures Abs() == ActAll(old(Abs()), [Clear(TopicOf(n, g, Light, Whole))])
    {
      ClearStaleConfig(TopicOf(n, g, Light, Whole));
    }

    method ClearStaleInputBinarySensorConfig(n: nat, g: Group)
      modifies this`broker, this`publishedConfigPayloads, this`publishedTopics
      ensures Abs() == ActAll(old(Abs()),
                              if settings.typeFromUnit then [Clear(TopicOf(n, g, BinarySensor, Whole))] else [])
    {
      if !settings.typeFromUnit {
        return;
      }
      ClearStaleConfig(TopicOf(n, g, BinarySensor, Whole));
    }

    /** One group of either kind of application, once it is known what becomes of it. */
    method ProcessGroup(n: nat, g: Group, recording: bool)
      modifies this`broker, this`publishedConfigPayloads, this`publishedTopics, this`currentRunTopics,
               this`treeDiscoveredGroups
      ensures Abs() == DiscoverySpec.ProcessGroup(settings, old(Abs()), n, g, recording)
    {
      if recording {
        treeDiscoveredGroups := treeDiscoveredGroups + {GroupAddress(n, g.app, g.address)};
      }
      ghost var s0 := Abs();
      match g.outcome
      case Excluded =>
      case AsLight(p) =>
        FinishTreeEntity(TopicOf(n, g, Light, Whole), p);
        ClearStaleInputBinarySensorConfig(n, g);
        ActAppend(s0, [Announce(TopicOf(n, g, Light, Whole), p)],
                  if settings.typeFromUnit then [Clear(TopicOf(n, g, BinarySensor, Whole))] else []);
      case AsInput(p) =>
        FinishTreeEntity(TopicOf(n, g, BinarySensor, Whole), p);
        ClearStaleLightConfig(n, g);
        ActAppend(s0, [Announce(TopicOf(n, g, BinarySensor, Whole), p)], [Clear(TopicOf(n, g, Light, Whole))]);
      case AsTyped(k, p) =>
        FinishTreeEntity(TopicOf(n, g, k, Whole), p);
        ActAppend(s0, [Announce(TopicOf(n, g, k, Whole), p)], ClearLight(n, g));
        if g.app == LIGHTING_APP {
          ClearStaleLightConfig(n, g);
        }
      case AsTrigger(event, button, scene) =>
        PublishTrigger(n, g, event, button, scene);
        ActAppend(s0, TriggerActions(n, g, event, button, scene), ClearLight(n, g));
        if g.app == LIGHTING_APP {
          ClearStaleLightConfig(n, g);
        }
    }

    /** The event entity of a trigger group with its companions. */
    method PublishTrigger(n: nat, g: Group, event: Payload, button: Payload, scene: Option<Payload>)
      modifies this`broker, this`publishedConfigPayloads, this`currentRunTopics
      ensures Abs() == ActAll(old(Abs()), TriggerActions(n, g, event, button, scene))
    {
      ghost var s0 := Abs();
      FinishTreeEntity(TopicOf(n, g, EventEntity, Whole), event);
      FinishTreeEntity(TopicOf(n, g, Button, ButtonPart), button);
      ghost var first := Announce(TopicOf(n, g, EventEntity, Whole), event);
      ghost var second := Announce(TopicOf(n, g, Button, ButtonPart), button);
      ActAppend(s0, [first], [second]);
      ghost var both := [first, second];
      assert [first] + [second] == both;
      if scene.Some? {
        FinishTreeEntity(TopicOf(n, g, SceneEntity, ScenePart), scene.value);
        ActAppend(s0, both, [Announce(TopicOf(n, g, SceneEntity, ScenePart), scene.value)]);
      } else {
        assert both + [] == both;
      }
    }

    /** Clears the retained configs of a snapshot of topics and drops them from the session's set. */
    method ClearPublished(topics: set<Topic>)
      modifies this`broker, this`publishedConfigPayloads, this`publishedTopics
      ensures Abs() == RetractSet(old(Abs()), topics)
    {
      ghost var start, done := Abs(), {};
      var todo := topics;
      RetractNone(start);
      hide RetractSet, Retract;
      while todo != {}
        invariant done + todo == topics && done !! todo
        invariant Abs() == RetractSet(start, done)
        decreases |todo|
      {
        var topic :| topic in todo;
        RetractOneMore(start, done, topic);
        Publish(topic, None);
        publishedTopics := publishedTopics - {topic};
        todo := todo - {topic};
        done := done + {topic};
      }
      assert done == topics;
    }

    method EnsureEventDrivenEntity(e: Announcement) returns (announced: bool)
      modifies this`broker, this`publishedConfigPayloads, this`publishedTopics, this`eventDrivenDiscoveryTopics,
               this`seen
      ensures Abs() == Ensure(settings, old(Abs()), e)
      ensures announced <==> settings.enabled && e.key !in old(seen) && !e.excluded
    {
      if !settings.enabled || e.key in seen {
        return false;
      }
      ghost var start := Abs();
      announced := !e.excluded;
      if e.excluded {
        assert e.retracts[0..] == e.retracts;
        for i := 0 to |e.retracts|
          invariant RetractEach(Abs(), e.retracts[i..]) == RetractEach(start, e.retracts)
        {
          assert e.retracts[i..][1..] == e.retracts[i + 1..];
          RetractEventDrivenConfig(e.retracts[i]);
        }
      } else {
        assert e.creates[0..] == e.creates;
        for i := 0 to |e.creates|
          invariant CreateAll(Abs(), e.creates[i..]) == CreateAll(start, e.creates)
        {
          assert e.creates[i..][1..] == e.creates[i + 1..];
          FinishEventDrivenEntity(e.creates[i].0, e.creates[i].1);
        }
      }
      seen := seen + {e.key};
    }

    /** One security zone label changed (`again`) or disappeared. */
    method RepublishRenamedSecurityZone(e: Announcement, again: bool)
      modifies this`broker, this`publishedConfigPayloads, this`publishedTopics, this`eventDrivenDiscoveryTopics,
               this`seen
      ensures Abs() == Relabel(settings, old(Abs()), e, again)
    {
      seen := seen - {e.key};
      if again {
        var _ := EnsureEventDrivenEntity(e);
      }
    }

    method RunDiscoveryFromTree(n: nat, plan: Plan)
      modifies this
      ensures Abs() == TreeRun(settings, old(Abs()), n, plan)
    {
      hide DiscoverySpec.ProcessGroup, Ensure;
      currentRunTopics := Some({});
      ghost var start := Abs();
      ghost var body := TreeRunBody(settings, old(Abs()), n, plan);
      assert plan.groups[0..] == plan.groups && plan.zones[0..] == plan.zones;
      for i := 0 to |plan.groups|
        invariant ProcessGroups(settings, Abs(), n, plan.groups[i..]) == ProcessGroups(settings, start, n, plan.groups)
      {
        assert plan.groups[i..][1..] == plan.groups[i + 1..];
        ProcessGroup(n, plan.groups[i], true);
      }
      for i := 0 to |plan.zones|
        invariant EnsureAll(settings, Abs(), plan.zones[i..]) == body
      {
        assert plan.zones[i..][1..] == plan.zones[i + 1..];
        var _ := EnsureEventDrivenEntity(plan.zones[i]);
      }
      assert Abs() == body;
      FinishRun(n);
    }

    /** Clears what the run did not republish and merges its topics into the session's set. */
    method FinishRun(n: nat)
      modifies this`broker, this`publishedConfigPayloads, this`publishedTopics, this`currentRunTopics
      ensures Abs() == DiscoverySpec.FinishRun(old(Abs()), n)
    {
      var run := if currentRunTopics.Some? then currentRunTopics.value else {};
      var stale := set t | t in publishedTopics && OfNetwork(t, n) && t !in run && t !in eventDrivenDiscoveryTopics;
      assert stale == StaleTopics(Abs(), n);
      ClearPublished(stale);
      publishedTopics := publishedTopics + run;
      currentRunTopics := None;
    }

    method EnsureUnlistedGroupDiscovery(n: nat, g: Group, eligible: bool)
      modifies this`broker, this`publishedConfigPayloads, this`publishedTopics, this`currentRunTopics,
               this`eventDrivenDiscoveryTopics, this`treeDiscoveredGroups, this`unlistedGroupSeen
      ensures Abs() == EnsureUnlisted(settings, old(Abs()), n, g, eligible)
    {
      hide DiscoverySpec.ProcessGroup;
      if !settings.enabled || !settings.unlistedGroups {
        return;
      }
      var address := GroupAddress(n, g.app, g.address);
      if address in treeDiscoveredGroups || address in unlistedGroupSeen || !eligible {
        return;
      }
      var ownRunTopics := currentRunTopics.None?;
      if ownRunTopics {
        currentRunTopics := Some({});
      }
      var before := |currentRunTopics.value|;
      ProcessGroup(n, g, false);
      unlistedGroupSeen := unlistedGroupSeen + {address};
      if currentRunTopics.Some? {
        if ownRunTopics {
          publishedTopics := publishedTopics + currentRunTopics.value;
          eventDrivenDiscoveryTopics := eventDrivenDiscoveryTopics + currentRunTopics.value;
          currentRunTopics := None;
        } else if |currentRunTopics.value| > before {
          eventDrivenDiscoveryTopics := eventDrivenDiscoveryTopics + currentRunTopics.value;
        }
      }
    }

    method HandleNetworkRemoved(n: nat)
      modifies this`broker, this`publishedConfigPayloads, this`publishedTopics, this`networkDiscoveryEntities
      ensures Abs() == NetworkRemoved(settings, old(Abs()), n)
    {
      if !settings.enabled {
        return;
      }
      var topicsToRemove := set t | t in publishedTopics && OfNetwork(t, n);
      assert topicsToRemove == NetworkTopics(Abs(), n);
      ClearPublished(topicsToRemove);
      if n in networkDiscoveryEntities {
        Publish(StatusSensor(n), None);
        networkDiscoveryEntities := networkDiscoveryEntities - {n};
      }
    }

    /** The config half of a status update: the sensor is announced once per network. */
    method SetDiscoveryStatus(n: nat, config: Payload)
      modifies this`broker, this`publishedConfigPayloads, this`networkDiscoveryEntities
      ensures Abs() == SetStatus(settings, old(Abs()), n, config)
    {
      if !settings.enabled || n in networkDiscoveryEntities {
        return;
      }
      Publish(StatusSensor(n), Some(config));
      networkDiscoveryEntities := networkDiscoveryEntities + {n};
    }

    method Stop()
      modifies this`networkDiscoveryEntities
      ensures Abs() == DiscoverySpec.Stop(old(Abs()))
    {
      networkDiscoveryEntities := {};
    }
  }

  lemma RetractNone(s: State)
    ensures RetractSet(s, {}) == s
  {
    assert s.cache - {} == s.cache && s.broker - {} == s.broker && s.published - {} == s.published;
  }

  lemma RetractOneMore(s: State, topics: set<Topic>, t: Topic)
    ensures var s1 := Retract(RetractSet(s, topics), t);
            s1.(published := s1.published - {t}) == RetractSet(s, topics + {t})
  {
    assert s.cache - topics - {t} == s.cache - (topics + {t});
    assert s.broker - topics - {t} == s.broker - (topics + {t});
    assert s.published - topics - {t} == s.published - (topics + {t});
  }

  lemma RepublishOne(broker: map<Topic, Payload>, entries: map<Topic, Payload>, t: Topic)
    requires t in entries
    ensures broker[t := entries[t]] + entries == broker + entries
  {
  }

  function TriggerActions(n: nat, g: Group, event: Payload, button: Payload, scene: Option<Payload>): seq<Action> {
    [Announce(TopicOf(n, g, EventEntity, Whole), event), Announce(TopicOf(n, g, Button, ButtonPart), button)]
    + if scene.Some? then [Announce(TopicOf(n, g, SceneEntity, ScenePart), scene.value)] else []
  }

  lemma {:induction false} ActAppend(s: State, a: seq<Action>, b: seq<Action>)
    ensures ActAll(s, a + b) == ActAll(ActAll(s, a), b)
    decreases |a|
  {
    if a == [] {
      assert a + b == b;
    } else {
      assert (a + b)[1..] == a[1..] + b;
      ActAppend(Act(s, a[0]), a[1..], b);
    }
  }
}
