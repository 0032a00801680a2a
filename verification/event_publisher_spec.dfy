/**
 * The publish path of src/eventPublisher.js: coalescing within one turn of the event loop, dropping
 * repeats inside a time window, and the bounded cache that remembers what was last sent.
 */
module PublishSpec {
  import opened Options
  import opened InsertionMaps

  type Millis = int

  /** A window of 0 switches deduplication off. */
  datatype Settings = Settings(coalesce: bool, dedupWindowMs: nat, dedupMaxEntries: nat)

  datatype Recent = Recent(payload: string, atMs: Millis)

  datatype Stats = Stats(publishAttempts: nat, published: nat, dedupDropped: nat, coalesced: nat, dedupEvicted: nat)

  /**
   * The publisher and what it exchanged with the world: for each topic the payload last asked for,
   * and the payload and time last handed to publishFn.
   */
  datatype State = State(
    recent: InsertionMap<string, Recent>,
    buffer: InsertionMap<string, string>,
    flushScheduled: bool,
    stats: Stats,
    requested: map<string, string>,
    delivered: map<string, Recent>)

  const INITIAL := State([], [], false, Stats(0, 0, 0, 0, 0), map[], map[])

  predicate Expired(c: Settings, now: Millis, r: Recent) {
    r.atMs < now - c.dedupWindowMs
  }

  /** The first pruning pass: expired entries go, the others keep their order. */
  function DropExpired(c: Settings, m: InsertionMap<string, Recent>, now: Millis): InsertionMap<string, Recent> {
    if m == [] then []
    else if Expired(c, now, m[0].1) then DropExpired(c, m[1..], now)
    else [m[0]] + DropExpired(c, m[1..], now)
  }

  /** Both passes: expired entries first, then the oldest until the cache is within its limit. */
  function Prune(c: Settings, m: InsertionMap<string, Recent>, now: Millis): InsertionMap<string, Recent> {
    if |m| <= c.dedupMaxEntries then m
    else
      var live := DropExpired(c, m, now);
      if |live| <= c.dedupMaxEntries then live else live[|live| - c.dedupMaxEntries..]
  }

  predicate IsRepeat(c: Settings, s: State, topic: string, payload: string, now: Millis) {
    var previous := Get(s.recent, topic);
    previous.Some? && previous.value.payload == payload && now - previous.value.atMs <= c.dedupWindowMs
  }

  function Send(s: State, topic: string, payload: string, now: Millis): State {
    s.(delivered := s.delivered[topic := Recent(payload, now)],
       stats := s.stats.(published := s.stats.published + 1))
  }

  function PublishNow(c: Settings, s: State, topic: string, payload: string, now: Millis): State {
    if c.dedupWindowMs == 0 then Send(s, topic, payload, now)
    else if IsRepeat(c, s, topic, payload, now) then
      s.(stats := s.stats.(dedupDropped := s.stats.dedupDropped + 1))
    else
      var remembered := Put(s.recent, topic, Recent(payload, now));
      var pruned := Prune(c, remembered, now);
      var s1 := s.(recent := pruned,
                   stats := s.stats.(dedupEvicted := s.stats.dedupEvicted + |remembered| - Kept(c, remembered, now)));
      Send(s1, topic, payload, now)
  }

  function Kept(c: Settings, m: InsertionMap<string, Recent>, now: Millis): (n: nat)
    ensures n == |Prune(c, m, now)| && n <= |m|
  {
    DropExpiredShrinks(c, m, now);
    |Prune(c, m, now)|
  }

  lemma {:induction false} DropExpiredShrinks(c: Settings, m: InsertionMap<string, Recent>, now: Millis)
    ensures |DropExpired(c, m, now)| <= |m|
  {
    if m != [] {
      DropExpiredShrinks(c, m[1..], now);
    }
  }

  lemma DropExpiredNext(c: Settings, m: InsertionMap<string, Recent>, i: nat, now: Millis)
    requires i < |m|
    ensures DropExpired(c, m[i..], now) ==
            (if Expired(c, now, m[i].1) then [] else [m[i]]) + DropExpired(c, m[i + 1..], now)
  {
    assert m[i..][1..] == m[i + 1..];
  }

  function PublishIfNeeded(c: Settings, s: State, topic: string, payload: string, now: Millis): State {
    var s1 := s.(stats := s.stats.(publishAttempts := s.stats.publishAttempts + 1),
                 requested := s.requested[topic := payload]);
    if !c.coalesce then PublishNow(c, s1, topic, payload, now)
    else s1.(
         buffer := Put(s.buffer, topic, payload),
         stats := s1.stats.(coalesced := s1.stats.coalesced + if Has(s.buffer, topic) then 1 else 0),
         flushScheduled := true)
  }

  function PublishEach(c: Settings, s: State, entries: InsertionMap<string, string>, clock: nat -> Millis): State
    decreases |entries|
  {
    if entries == [] then s
    else PublishEach(c, PublishNow(c, s, entries[0].0, entries[0].1, clock(|entries|)), entries[1..], clock)
  }

  /** The scheduled flush runs; the clock may move between its entries. */
  function FlushBuffer(c: Settings, s: State, clock: nat -> Millis): State {
    PublishEach(c, s.(buffer := [], flushScheduled := false), s.buffer, clock)
  }

  // Which entries pruning forgets.

  /** Sent no longer ago than the window. */
  predicate IsFresh(c: Settings, now: Millis, r: Recent) {
    now - r.atMs <= c.dedupWindowMs
  }

  function FreshCount(c: Settings, m: InsertionMap<string, Recent>, now: Millis): nat {
    if m == [] then 0 else (if IsFresh(c, now, m[0].1) then 1 else 0) + FreshCount(c, m[1..], now)
  }

  lemma {:induction false} DropExpiredAt(c: Settings, m: InsertionMap<string, Recent>, now: Millis, i: nat)
    requires i < |m|
    ensures var live := DropExpired(c, m, now);
            && |live| == FreshCount(c, m, now) && FreshCount(c, m[i..], now) <= |live|
            && (IsFresh(c, now, m[i].1) ==> FreshCount(c, m[i..], now) > 0
                                            && live[|live| - FreshCount(c, m[i..], now)] == m[i])
  {
    DropExpiredCounts(c, m, now);
    if i > 0 {
      assert m[i..] == m[1..][i - 1..];
      DropExpiredAt(c, m[1..], now, i - 1);
    } else {
      assert m[0..] == m;
    }
  }

  lemma {:induction false} DropExpiredCounts(c: Settings, m: InsertionMap<string, Recent>, now: Millis)
    ensures |DropExpired(c, m, now)| == FreshCount(c, m, now)
    ensures forall k :: 0 <= k < |DropExpired(c, m, now)| ==> IsFresh(c, now, DropExpired(c, m, now)[k].1)
    ensures forall e :: e in DropExpired(c, m, now) ==> e in m
  {
    if m != [] {
      DropExpiredCounts(c, m[1..], now);
      assert forall e :: e in m[1..] ==> e in m;
    }
  }

  /**
   * A cache within its limit loses nothing. One over it keeps exactly the entries still fresh that are
   * followed by fewer fresh ones than the limit, so the newest, in their order.
   */
  lemma PruneKeepsIff(c: Settings, m: InsertionMap<string, Recent>, now: Millis, i: nat)
    requires Distinct(m) && i < |m|
    ensures m[i] in Prune(c, m, now) <==>
            || |m| <= c.dedupMaxEntries
            || (IsFresh(c, now, m[i].1) && FreshCount(c, m[i..], now) <= c.dedupMaxEntries)
  {
    if |m| > c.dedupMaxEntries {
      var live := DropExpired(c, m, now);
      DropExpiredAt(c, m, now, i);
      DropExpiredCounts(c, m, now);
      DropExpiredWithin(c, m, now);
      hide DropExpired, FreshCount;
      if IsFresh(c, now, m[i].1) {
        var at := |live| - FreshCount(c, m[i..], now);
        assert forall k :: 0 <= k < |live| && live[k] == m[i] ==> k == at;
        if |live| > c.dedupMaxEntries {
          var kept := live[|live| - c.dedupMaxEntries..];
          assert at >= |live| - c.dedupMaxEntries ==> kept[at - (|live| - c.dedupMaxEntries)] == m[i];
        }
      }
    }
  }

  // Pruning only forgets.

  lemma {:induction false} DropExpiredWithin(c: Settings, m: InsertionMap<string, Recent>, now: Millis)
    requires Distinct(m)
    ensures Distinct(DropExpired(c, m, now)) && Within(DropExpired(c, m, now), m)
    ensures forall k :: Get(m, k).Some? && !Expired(c, now, Get(m, k).value) ==>
                          Get(DropExpired(c, m, now), k) == Get(m, k)
  {
    if m != [] {
      var d := DropExpired(c, m[1..], now);
      DropExpiredWithin(c, m[1..], now);
      HasIffIndex(m[1..], m[0].0);
      HasIffIndex(d, m[0].0);
      assert Get(m[1..], m[0].0).None?;
      assert Get(d, m[0].0).None?;
      assert !Expired(c, now, m[0].1) ==> DropExpired(c, m, now)[1..] == d;
    }
  }

  lemma PruneWithin(c: Settings, m: InsertionMap<string, Recent>, now: Millis)
    requires Distinct(m)
    ensures var p := Prune(c, m, now); Distinct(p) && Within(p, m) && |p| <= c.dedupMaxEntries
  {
    DropExpiredWithin(c, m, now);
    var live := DropExpired(c, m, now);
    if |live| > c.dedupMaxEntries {
      SuffixWithin(live, |live| - c.dedupMaxEntries);
    }
  }

  // What holds between operations.

  /** A cached entry is what was last delivered on its topic, and when. */
  ghost predicate CacheIsTrue(s: State) {
    forall t :: Get(s.recent, t).Some? ==> t in s.delivered && s.delivered[t] == Get(s.recent, t).value
  }

  /** The last payload asked for on a topic is either waiting or the last one delivered. */
  ghost predicate NothingForgotten(s: State, waiting: InsertionMap<string, string>) {
    forall t :: t in s.requested ==>
      if Get(waiting, t).Some? then Get(waiting, t).value == s.requested[t]
      else t in s.delivered && s.delivered[t].payload == s.requested[t]
  }

  predicate Counted(s: State, waiting: InsertionMap<string, string>) {
    s.stats.publishAttempts == s.stats.published + s.stats.dedupDropped + s.stats.coalesced + |waiting|
  }

  ghost predicate InvWith(c: Settings, s: State, waiting: InsertionMap<string, string>) {
    && Distinct(s.recent) && |s.recent| <= c.dedupMaxEntries && CacheIsTrue(s)
    && (c.dedupWindowMs == 0 ==> s.recent == [])
    && Distinct(waiting) && NothingForgotten(s, waiting)
    && (forall t :: Get(waiting, t).Some? ==> t in s.requested)
    && Counted(s, waiting)
  }

  ghost predicate Inv(c: Settings, s: State) {
    && InvWith(c, s, s.buffer)
    && (s.buffer != [] ==> s.flushScheduled)
    && (!c.coalesce ==> s.buffer == [])
  }

  lemma PublishNowKeeps(c: Settings, s: State, topic: string, payload: string, now: Millis,
                        waiting: InsertionMap<string, string>)
    requires waiting != [] && waiting[0] == (topic, payload) && InvWith(c, s, waiting)
    ensures InvWith(c, PublishNow(c, s, topic, payload, now), waiting[1..])
    ensures var s' := PublishNow(c, s, topic, payload, now);
            s'.buffer == s.buffer && s'.flushScheduled == s.flushScheduled && s'.requested == s.requested
  {
    HasIffIndex(waiting[1..], topic);
    assert Get(waiting[1..], topic).None?;
    assert Get(waiting, topic) == Some(payload);
    var s' := PublishNow(c, s, topic, payload, now);
    if c.dedupWindowMs > 0 && !IsRepeat(c, s, topic, payload, now) {
      RememberKeeps(c, s, topic, payload, now);
    }
    assert Counted(s', waiting[1..]);
    assert CacheIsTrue(s');
    assert NothingForgotten(s', waiting[1..]);
    assert Distinct(waiting[1..]);
  }

  lemma RememberKeeps(c: Settings, s: State, topic: string, payload: string, now: Millis)
    requires Distinct(s.recent) && CacheIsTrue(s)
    ensures var pruned := Prune(c, Put(s.recent, topic, Recent(payload, now)), now);
            && Distinct(pruned) && |pruned| <= c.dedupMaxEntries
            && (forall t :: Get(pruned, t).Some? && t != topic ==> t in s.delivered)
            && (forall t :: Get(pruned, t).Some? ==>
                              Get(pruned, t).value == if t == topic then Recent(payload, now) else s.delivered[t])
  {
    PutKeeps(s.recent, topic, Recent(payload, now));
    PruneWithin(c, Put(s.recent, topic, Recent(payload, now)), now);
  }

  lemma {:induction false} PublishEachKeeps(c: Settings, s: State, entries: InsertionMap<string, string>,
                                            clock: nat -> Millis)
    requires InvWith(c, s, entries)
    ensures var s' := PublishEach(c, s, entries, clock);
            && InvWith(c, s', [])
            && s'.buffer == s.buffer && s'.flushScheduled == s.flushScheduled && s'.requested == s.requested
    decreases |entries|
  {
    if entries != [] {
      hide PublishNow, InvWith;
      PublishNowKeeps(c, s, entries[0].0, entries[0].1, clock(|entries|), entries);
      PublishEachKeeps(c, PublishNow(c, s, entries[0].0, entries[0].1, clock(|entries|)), entries[1..], clock);
    }
  }

  datatype Event =
    | Wanted(topic: string, payload: string, now: Millis)
    | FlushRuns(clock: nat -> Millis)

  function Step(c: Settings, s: State, e: Event): State {
    match e
    case Wanted(topic, payload, now) => PublishIfNeeded(c, s, topic, payload, now)
    case FlushRuns(clock) => FlushBuffer(c, s, clock)
  }

  function Run(c: Settings, s: State, es: seq<Event>): State
    decreases |es|
  {
    if es == [] then s else Run(c, Step(c, s, es[0]), es[1..])
  }

  lemma InitialInv(c: Settings)
    ensures Inv(c, INITIAL) && INITIAL.stats.dedupEvicted == 0
  {
  }

  lemma {:induction false} PublishEachFlushes(c: Settings, s: State, entries: InsertionMap<string, string>,
                                              clock: nat -> Millis)
    ensures var s' := PublishEach(c, s, entries, clock);
            s'.buffer == s.buffer && s'.flushScheduled == s.flushScheduled
    decreases |entries|
  {
    if entries != [] {
      PublishEachFlushes(c, PublishNow(c, s, entries[0].0, entries[0].1, clock(|entries|)), entries[1..], clock);
    }
  }

  lemma {:induction false} PutIsThere(m: InsertionMap<string, string>, k: string, v: string)
    ensures Put(m, k, v) != []
  {
  }

  lemma {:induction false} FlushFollows(c: Settings, s: State, es: seq<Event>)
    requires s.flushScheduled <==> s.buffer != []
    ensures var s' := Run(c, s, es); s'.flushScheduled <==> s'.buffer != []
    decreases |es|
  {
    if es != [] {
      match es[0] {
        case Wanted(topic, payload, now) => PutIsThere(s.buffer, topic, payload);
        case FlushRuns(clock) => PublishEachFlushes(c, s.(buffer := [], flushScheduled := false), s.buffer, clock);
      }
      hide PublishNow, PublishEach, Put;
      FlushFollows(c, Step(c, s, es[0]), es[1..]);
    }
  }

  /** Over every run, a flush is to come exactly while something waits for one. */
  lemma FlushIsScheduledIff(c: Settings, es: seq<Event>)
    ensures var s := Run(c, INITIAL, es); s.flushScheduled <==> s.buffer != []
  {
    FlushFollows(c, INITIAL, es);
  }

  lemma BufferKeeps(c: Settings, s: State, topic: string, payload: string, now: Millis)
    requires Inv(c, s) && c.coalesce
    ensures Inv(c, PublishIfNeeded(c, s, topic, payload, now))
  {
    PutKeeps(s.buffer, topic, payload);
    HasIffIndex(s.buffer, topic);
  }

  lemma DirectKeeps(c: Settings, s: State, topic: string, payload: string, now: Millis)
    requires Inv(c, s) && !c.coalesce
    ensures Inv(c, PublishIfNeeded(c, s, topic, payload, now))
  {
    hide PublishNow;
    var s1 := s.(stats := s.stats.(publishAttempts := s.stats.publishAttempts + 1),
                 requested := s.requested[topic := payload]);
    assert [(topic, payload)][1..] == [];
    assert InvWith(c, s1, [(topic, payload)]);
    PublishNowKeeps(c, s1, topic, payload, now, [(topic, payload)]);
  }

  lemma StepKeeps(c: Settings, s: State, e: Event)
    requires Inv(c, s)
    ensures Inv(c, Step(c, s, e))
  {
    match e
    case Wanted(topic, payload, now) =>
      if c.coalesce {
        BufferKeeps(c, s, topic, payload, now);
      } else {
        DirectKeeps(c, s, topic, payload, now);
      }
    case FlushRuns(clock) =>
      var s1 := s.(buffer := [], flushScheduled := false);
      assert InvWith(c, s1, s.buffer);
      PublishEachKeeps(c, s1, s.buffer, clock);
  }

  lemma {:induction false} RunKeeps(c: Settings, s: State, es: seq<Event>)
    requires Inv(c, s)
    ensures Inv(c, Run(c, s, es))
    decreases |es|
  {
    if es != [] {
      hide Step, Inv;
      StepKeeps(c, s, es[0]);
      RunKeeps(c, Step(c, s, es[0]), es[1..]);
    }
  }

  /** publishAttempts = published + dedupDropped + coalesced + buffered, and the cache within its limit. */
  lemma EveryAttemptIsCounted(c: Settings, es: seq<Event>)
    ensures var s := Run(c, INITIAL, es);
            && s.stats.publishAttempts == s.stats.published + s.stats.dedupDropped + s.stats.coalesced + |s.buffer|
            && |s.recent| <= c.dedupMaxEntries
  {
    InitialInv(c);
    RunKeeps(c, INITIAL, es);
  }

  /**
   * Lossless: once the buffer has been flushed, the last payload delivered on every topic is the
   * last one asked for, whatever was coalesced, dropped as a repeat or evicted on the way.
   */
  lemma FlushedIsUpToDate(c: Settings, es: seq<Event>, clock: nat -> Millis)
    ensures var s := Run(c, INITIAL, es);
            var s' := FlushBuffer(c, s, clock);
            && s'.buffer == [] && s'.requested == s.requested
            && forall t :: t in s'.requested ==> t in s'.delivered && s'.delivered[t].payload == s'.requested[t]
  {
    InitialInv(c);
    RunKeeps(c, INITIAL, es);
    var s := Run(c, INITIAL, es);
    PublishEachKeeps(c, s.(buffer := [], flushScheduled := false), s.buffer, clock);
    assert NothingForgotten(FlushBuffer(c, s, clock), []);
  }

  /** A publish is dropped exactly when its topic is cached and just carried that payload within the window. */
  lemma DropsExactlyRepeats(c: Settings, s: State, topic: string, payload: string, now: Millis)
    requires Inv(c, s) && c.dedupWindowMs > 0
    ensures PublishNow(c, s, topic, payload, now).delivered == s.delivered
            && PublishNow(c, s, topic, payload, now).stats.published == s.stats.published <==>
            && Has(s.recent, topic) && topic in s.delivered
            && s.delivered[topic].payload == payload && now - s.delivered[topic].atMs <= c.dedupWindowMs
  {
    HasIffIndex(s.recent, topic);
  }
}
