/**
 * The retained publishes that src/mqttManager.js queues while the broker is unreachable, and what
 * replaying them on reconnect leaves on the broker.
 */
module MqttPending {
  import opened BridgeStatus
  import opened Options
  import opened InsertionMaps

  /** The retained messages on the broker, by topic. */
  type Broker = map<string, string>

  datatype Publish = Publish(topic: string, payload: string, retain: bool)

  /** A retained empty payload deletes the topic; a message that is not retained leaves no trace. */
  function Deliver(b: Broker, p: Publish): Broker {
    if !p.retain then b
    else if p.payload == "" then b - {p.topic}
    else b[p.topic := p.payload]
  }

  function DeliverAll(b: Broker, ps: seq<Publish>): Broker {
    if ps == [] then b else Deliver(DeliverAll(b, ps[..|ps| - 1]), ps[|ps| - 1])
  }

  type Queue = InsertionMap<string, string>

  /** Newest wins per topic, the oldest entry goes when the queue is over the cap. */
  function Enqueue(q: Queue, max: nat, p: Publish): Queue {
    if !p.retain then q
    else
      var q1 := Delete(q, p.topic) + [(p.topic, p.payload)];
      if |q1| > max then q1[1..] else q1
  }

  function EnqueueAll(max: nat, ps: seq<Publish>): Queue {
    if ps == [] then [] else Enqueue(EnqueueAll(max, ps[..|ps| - 1]), max, ps[|ps| - 1])
  }

  /** Every topic written, ordered by its last write, with the payload of that write. */
  function LastWrites(ps: seq<Publish>): Queue {
    if ps == [] then []
    else
      var before, p := LastWrites(ps[..|ps| - 1]), ps[|ps| - 1];
      if p.retain then Delete(before, p.topic) + [(p.topic, p.payload)] else before
  }

  function LastOf<T>(s: seq<T>, n: nat): seq<T> {
    if |s| <= n then s else s[|s| - n..]
  }

  lemma {:induction false} LastWritesDistinct(ps: seq<Publish>)
    ensures Distinct(LastWrites(ps))
  {
    if ps != [] {
      var before, p := LastWrites(ps[..|ps| - 1]), ps[|ps| - 1];
      LastWritesDistinct(ps[..|ps| - 1]);
      DeleteKeeps(before, p.topic);
      PutFresh(Delete(before, p.topic), p.topic, p.payload);
      PutKeeps(Delete(before, p.topic), p.topic, p.payload);
    }
  }

  /** The bounded queue is exactly the end of the unbounded one: the most recently written topics. */
  lemma {:induction false} QueueIsNewest(max: nat, ps: seq<Publish>)
    requires max > 0
    ensures EnqueueAll(max, ps) == LastOf(LastWrites(ps), max)
  {
    if ps != [] {
      var p, all := ps[|ps| - 1], LastWrites(ps[..|ps| - 1]);
      QueueIsNewest(max, ps[..|ps| - 1]);
      LastWritesDistinct(ps[..|ps| - 1]);
      DeleteKeeps(all, p.topic);
      if p.retain && |all| > max {
        NewestAfterWrite(all, max, p.topic, p.payload);
      }
    }
  }

  lemma SuffixOfConcat<T>(a: seq<T>, b: seq<T>, n: nat)
    ensures |b| == n ==> LastOf(a + b, n) == b
    ensures |b| == n + 1 ==> LastOf(a + b, n) == b[1..]
  {
  }

  lemma InOnePart(older: Queue, recent: Queue, k: string)
    requires Distinct(older + recent) && Has(recent, k)
    ensures !Has(older, k)
  {
    HasIffIndex(older, k);
    HasIffIndex(recent, k);
    var all := older + recent;
    assert forall i :: 0 <= i < |recent| ==> all[|older| + i] == recent[i];
    assert forall i :: 0 <= i < |older| ==> all[i] == older[i];
  }

  lemma NewestAfterWrite(all: Queue, max: nat, k: string, v: string)
    requires Distinct(all) && 0 < max < |all|
    ensures var q := Delete(LastOf(all, max), k) + [(k, v)];
            (if |q| > max then q[1..] else q) == LastOf(Delete(all, k) + [(k, v)], max)
  {
    hide Delete, Has;
    var older, recent := all[..|all| - max], all[|all| - max..];
    assert all == older + recent;
    DeleteFromConcat(older, recent, k);
    DeleteKeeps(recent, k);
    var q := Delete(recent, k) + [(k, v)];
    if Has(recent, k) {
      InOnePart(older, recent, k);
      assert Delete(all, k) + [(k, v)] == older + q;
      SuffixOfConcat(older, q, max);
    } else {
      DeleteAbsent(recent, k);
      var kept := if Has(older, k) then Delete(older, k) else older;
      assert Delete(all, k) + [(k, v)] == kept + q;
      SuffixOfConcat(kept, q, max);
    }
  }

  // What a queue leaves on the broker.

  function Shown(b: Broker, topic: string): Option<string> {
    if topic in b then Some(b[topic]) else None
  }

  /** A write of the payload shows it, or nothing when it is empty. */
  function Write(payload: string): Option<string> {
    if payload == "" then None else Some(payload)
  }

  /** Replays the queue in order; an entry whose publish throws is lost. */
  function Flush(b: Broker, q: Queue, failing: set<string>): Broker
    decreases |q|
  {
    if q == [] then b
    else
      var (topic, payload) := q[0];
      Flush(if topic in failing then b else Deliver(b, Publish(topic, payload, true)), q[1..], failing)
  }

  lemma {:induction false} FlushShows(b: Broker, q: Queue, failing: set<string>, topic: string)
    requires Distinct(q)
    ensures Shown(Flush(b, q, failing), topic) ==
            if Get(q, topic).Some? && topic !in failing then Write(Get(q, topic).value) else Shown(b, topic)
    decreases |q|
  {
    if q != [] {
      var (first, payload) := q[0];
      var b1 := if first in failing then b else Deliver(b, Publish(first, payload, true));
      FlushShows(b1, q[1..], failing, topic);
      HasIffIndex(q[1..], topic);
    }
  }

  /** A flush leaves what is not queued alone. */
  lemma {:induction false} FlushLeaves(b: Broker, q: Queue, failing: set<string>, topic: string)
    requires !Has(q, topic)
    ensures Shown(Flush(b, q, failing), topic) == Shown(b, topic)
    decreases |q|
  {
    if q != [] {
      var (first, payload) := q[0];
      FlushLeaves(if first in failing then b else Deliver(b, Publish(first, payload, true)), q[1..], failing, topic);
    }
  }

  lemma {:induction false} LiveShows(b: Broker, ps: seq<Publish>, topic: string)
    ensures Shown(DeliverAll(b, ps), topic) ==
            if Get(LastWrites(ps), topic).Some? then Write(Get(LastWrites(ps), topic).value) else Shown(b, topic)
  {
    if ps != [] {
      var before, p := LastWrites(ps[..|ps| - 1]), ps[|ps| - 1];
      LiveShows(b, ps[..|ps| - 1], topic);
      LastWritesDistinct(ps[..|ps| - 1]);
      if p.retain {
        DeleteKeeps(before, p.topic);
        PutFresh(Delete(before, p.topic), p.topic, p.payload);
        PutKeeps(Delete(before, p.topic), p.topic, p.payload);
      }
    }
  }

  /** With no more distinct topics than the cap, replaying leaves the broker as if each had been sent live. */
  lemma ReplayEqualsLive(max: nat, ps: seq<Publish>, b: Broker)
    requires max > 0 && |LastWrites(ps)| <= max
    ensures Flush(b, EnqueueAll(max, ps), {}) == DeliverAll(b, ps)
  {
    QueueIsNewest(max, ps);
    LastWritesDistinct(ps);
    var replayed, live := Flush(b, EnqueueAll(max, ps), {}), DeliverAll(b, ps);
    forall topic ensures Shown(replayed, topic) == Shown(live, topic) {
      FlushShows(b, EnqueueAll(max, ps), {}, topic);
      LiveShows(b, ps, topic);
    }
    assert forall topic :: topic in replayed <==> Shown(replayed, topic).Some?;
    assert forall topic :: topic in live <==> Shown(live, topic).Some?;
  }

  /** Beyond the cap a topic shows its newest payload if it is among the last `max` written, else is untouched. */
  lemma ReplayKeepsNewest(max: nat, ps: seq<Publish>, b: Broker, topic: string)
    requires max > 0
    ensures var kept := Get(LastOf(LastWrites(ps), max), topic);
            Shown(Flush(b, EnqueueAll(max, ps), {}), topic) == if kept.Some? then Write(kept.value) else Shown(b, topic)
  {
    QueueIsNewest(max, ps);
    LastWritesDistinct(ps);
    FlushShows(b, EnqueueAll(max, ps), {}, topic);
  }

  // What "most recently written" means.

  function LastWriteOf(ps: seq<Publish>, topic: string): Option<nat> {
    if ps == [] then None
    else if ps[|ps| - 1].retain && ps[|ps| - 1].topic == topic then Some(|ps| - 1)
    else LastWriteOf(ps[..|ps| - 1], topic)
  }

  lemma {:induction false} LastWriteBounds(ps: seq<Publish>, topic: string)
    ensures var i := LastWriteOf(ps, topic);
            i.Some? ==> i.value < |ps| && ps[i.value].retain && ps[i.value].topic == topic
  {
    if ps != [] {
      LastWriteBounds(ps[..|ps| - 1], topic);
    }
  }

  /** LastWrites lists each written topic with its newest payload ... */
  lemma {:induction false} LastWritesAreNewest(ps: seq<Publish>, topic: string)
    ensures var i := LastWriteOf(ps, topic);
            && (i.Some? ==> i.value < |ps|)
            && Get(LastWrites(ps), topic) == if i.Some? then Some(ps[i.value].payload) else None
  {
    LastWriteBounds(ps, topic);
    if ps != [] {
      var before, p := LastWrites(ps[..|ps| - 1]), ps[|ps| - 1];
      LastWritesAreNewest(ps[..|ps| - 1], topic);
      LastWritesDistinct(ps[..|ps| - 1]);
      if p.retain {
        DeleteKeeps(before, p.topic);
        PutFresh(Delete(before, p.topic), p.topic, p.payload);
        PutKeeps(Delete(before, p.topic), p.topic, p.payload);
      }
    }
  }

  ghost predicate ByLastWrite(q: Queue, ps: seq<Publish>) {
    && (forall i :: 0 <= i < |q| ==> LastWriteOf(ps, q[i].0).Some?)
    && (forall i, j :: 0 <= i < j < |q| ==> LastWriteOf(ps, q[i].0).value < LastWriteOf(ps, q[j].0).value)
  }

  /** ... in the order of their last writes. */
  lemma {:induction false} LastWritesAreOrdered(ps: seq<Publish>)
    ensures ByLastWrite(LastWrites(ps), ps)
  {
    if ps != [] {
      var before, p := LastWrites(ps[..|ps| - 1]), ps[|ps| - 1];
      LastWritesAreOrdered(ps[..|ps| - 1]);
      if p.retain {
        LastWritesDistinct(ps[..|ps| - 1]);
        var d := Delete(before, p.topic);
        DeleteKeeps(before, p.topic);
        HasIffIndex(d, p.topic);
        DeleteStaysOrdered(before, ps[..|ps| - 1], p.topic);
        forall i | 0 <= i < |d|
          ensures LastWriteOf(ps, d[i].0) == LastWriteOf(ps[..|ps| - 1], d[i].0)
          ensures LastWriteOf(ps, d[i].0).value < |ps| - 1
        {
          LastWriteBounds(ps[..|ps| - 1], d[i].0);
        }
      }
    }
  }

  lemma DeleteStaysOrdered(q: Queue, ps: seq<Publish>, k: string)
    requires ByLastWrite(q, ps)
    ensures ByLastWrite(Delete(q, k), ps)
  {
    if Has(q, k) {
      var i := DeleteAt(q, k);
    } else {
      DeleteAbsent(q, k);
    }
  }

  function StatusDelivered(b: Broker, last: Option<string>, payload: string): Broker {
    if last == Some(payload) then b else b[STATUS_TOPIC := payload]
  }

  /** If the broker still shows what was remembered, it shows the payload afterwards; no other topic moves. */
  lemma StatusIsShown(b: Broker, last: Option<string>, payload: string)
    requires last.Some? ==> Shown(b, STATUS_TOPIC) == last
    ensures var b' := StatusDelivered(b, last, payload);
            && Shown(b', STATUS_TOPIC) == Some(payload)
            && (forall topic :: topic != STATUS_TOPIC ==> Shown(b', topic) == Shown(b, topic))
            && (last == Some(payload) ==> b' == b)
  {
  }

  /** The manager: connection flag, pending queue and counters, with the broker it publishes to. */
  class MqttManager {
    const pendingPublishMaxEntries: nat
    var connected: bool
    var bridgeReady: bool
    var lastStatusPayload: Option<string>
    var pendingPublishQueue: Queue
    var pendingPublishEvicted: nat
    var droppedPublishCount: nat
    var broker: Broker

    /** The status protocol's view of the manager. */
    ghost function Link(): BridgeStatus.Link
      reads this
    {
      BridgeStatus.Link(connected, bridgeReady, lastStatusPayload, Shown(broker, STATUS_TOPIC))
    }

    constructor (maxEntriesSetting: int, broker: Broker)
      ensures !connected && pendingPublishQueue == [] && this.broker == broker
      ensures Link() == START.(shown := Shown(broker, STATUS_TOPIC))
      ensures pendingPublishMaxEntries >= 10
      ensures maxEntriesSetting >= 10 ==> pendingPublishMaxEntries == maxEntriesSetting
    {
      pendingPublishMaxEntries := if maxEntriesSetting < 10 then 10 else maxEntriesSetting;
      connected, pendingPublishQueue, pendingPublishEvicted, droppedPublishCount := false, [], 0, 0;
      bridgeReady, lastStatusPayload := false, None;
      this.broker := broker;
    }

    /** True when the publish reached the client; while disconnected only retained ones are kept. */
    method PublishMessage(p: Publish, clientThrows: bool) returns (sent: bool)
      modifies this
      ensures connected == old(connected) && (sent <==> connected && !clientThrows)
      ensures bridgeReady == old(bridgeReady) && lastStatusPayload == old(lastStatusPayload)
      ensures pendingPublishQueue == if connected then old(pendingPublishQueue)
                                     else Enqueue(old(pendingPublishQueue), pendingPublishMaxEntries, p)
      ensures broker == if sent then Deliver(old(broker), p) else old(broker)
      ensures droppedPublishCount == old(droppedPublishCount) + (if connected then 0 else 1)
    {
      if !connected {
        droppedPublishCount := droppedPublishCount + 1;
        if p.retain {
          EnqueueRetainedPublish(p);
        }
        return false;
      }
      if clientThrows {
        return false;
      }
      broker := Deliver(broker, p);
      sent := true;
    }

    method EnqueueRetainedPublish(p: Publish)
      requires p.retain
      modifies this`pendingPublishQueue, this`pendingPublishEvicted
      ensures pendingPublishQueue == Enqueue(old(pendingPublishQueue), pendingPublishMaxEntries, p)
    {
      pendingPublishQueue := Delete(pendingPublishQueue, p.topic);
      pendingPublishQueue := pendingPublishQueue + [(p.topic, p.payload)];
      if |pendingPublishQueue| > pendingPublishMaxEntries {
        pendingPublishQueue := pendingPublishQueue[1..];
        pendingPublishEvicted := pendingPublishEvicted + 1;
      }
    }

    method FlushPendingPublishes(failing: set<string>)
      modifies this`pendingPublishQueue, this`broker
      ensures pendingPublishQueue == [] && broker == Flush(old(broker), old(pendingPublishQueue), failing)
    {
      if pendingPublishQueue == [] {
        return;
      }
      var entries := pendingPublishQueue;
      pendingPublishQueue := [];
      assert entries[0..] == entries;
      for i := 0 to |entries|
        invariant pendingPublishQueue == []
        invariant Flush(old(broker), entries, failing) == Flush(broker, entries[i..], failing)
      {
        assert entries[i..][1..] == entries[i + 1..];
        if entries[i].0 !in failing {
          broker := Deliver(broker, Publish(entries[i].0, entries[i].1, true));
        }
      }
    }

    /** Only what differs from the last status is sent; should the client throw, nothing is remembered. */
    method PublishStatus(payload: string, clientThrows: bool) returns (ok: bool)
      modifies this`lastStatusPayload, this`broker
      ensures ok <==> connected && (old(lastStatusPayload) == Some(payload) || !clientThrows)
      ensures ok ==> lastStatusPayload == Some(payload)
                     && broker == StatusDelivered(old(broker), old(lastStatusPayload), payload)
                     && Link() == BridgeStatus.PublishStatus(old(Link()), payload)
      ensures !ok ==> lastStatusPayload == old(lastStatusPayload) && broker == old(broker)
    {
      if !connected {
        return false;
      }
      if lastStatusPayload == Some(payload) {
        return true;
      }
      if clientThrows {
        return false;
      }
      broker := broker[STATUS_TOPIC := payload];
      lastStatusPayload := Some(payload);
      ok := true;
    }

    /**
     * The broker is reachable again: the counters restart, the status is published and then the queue is
     * replayed, unless publishing the status throws.
     */
    method HandleConnect(statusThrows: bool, failing: set<string>) returns (ok: bool)
      modifies this
      ensures connected && bridgeReady == old(bridgeReady) && pendingPublishEvicted == 0 && droppedPublishCount == 0
      ensures ok <==> old(lastStatusPayload) == Some(StatusFor(bridgeReady)) || !statusThrows
      ensures ok ==> && lastStatusPayload == Some(StatusFor(bridgeReady)) && pendingPublishQueue == []
                     && broker == Flush(StatusDelivered(old(broker), old(lastStatusPayload), StatusFor(bridgeReady)),
                                        old(pendingPublishQueue), failing)
      ensures ok && !Has(old(pendingPublishQueue), STATUS_TOPIC) ==> Link() == Step(old(Link()), Connects)
      ensures !ok ==> lastStatusPayload == old(lastStatusPayload) && broker == old(broker)
                      && pendingPublishQueue == old(pendingPublishQueue)
    {
      connected := true;
      pendingPublishEvicted, droppedPublishCount := 0, 0;
      ok := PublishStatus(StatusFor(bridgeReady), statusThrows);
      if ok {
        ghost var before := broker;
        FlushPendingPublishes(failing);
        if !Has(old(pendingPublishQueue), STATUS_TOPIC) {
          FlushLeaves(before, old(pendingPublishQueue), failing, STATUS_TOPIC);
        }
      }
    }

    method HandleClose()
      modifies this`connected, this`bridgeReady
      ensures Link() == Step(old(Link()), Closes)
    {
      connected, bridgeReady := false, false;
    }

    method HandleError()
      modifies this`connected
      ensures Link() == Step(old(Link()), Errors)
    {
      connected := false;
    }

    method SetBridgeReady(isReady: bool, clientThrows: bool) returns (ok: bool)
      modifies this`bridgeReady, this`lastStatusPayload, this`broker
      ensures bridgeReady == isReady && (ok ==> connected)
      ensures ok || !connected ==> Link() == Step(old(Link()), SetsReady(isReady))
      ensures !clientThrows ==> (ok <==> connected)
    {
      bridgeReady := isReady;
      if !connected {
        return false;
      }
      ok := PublishStatus(StatusFor(isReady), clientThrows);
    }

    /** An intentional end: the offline status is sent on a best-effort basis. */
    method Disconnect(clientThrows: bool)
      modifies this`connected, this`bridgeReady, this`lastStatusPayload, this`broker
      ensures pendingPublishQueue == old(pendingPublishQueue)
      ensures var thrown := clientThrows && old(connected) && old(lastStatusPayload) != Some(OFFLINE);
              && Link() == (if thrown then old(Link()).(connected := false, ready := false)
                            else Step(old(Link()), Disconnects))
              && (thrown ==> broker == old(broker))
    {
      bridgeReady := false;
      if connected {
        var _ := PublishStatus(OFFLINE, clientThrows);
      }
      connected := false;
    }
  }
}
