/**
 * The event publisher of src/eventPublisher.js as the class it is; every method is proved against
 * the step functions of PublishSpec.
 */
module EventPublishers {
  import opened InsertionMaps
  import opened Options
  import opened PublishSpec

  class EventPublisher {
    const settings: Settings
    var recentPublishes: InsertionMap<string, Recent>
    var coalesceBuffer: InsertionMap<string, string>
    var coalesceTimer: bool
    var publishStats: Stats

    // What went in and out.
    var requested: map<string, string>
    var delivered: map<string, Recent>

    ghost function Abs(): State
      reads this
    {
      State(recentPublishes, coalesceBuffer, coalesceTimer, publishStats, requested, delivered)
    }

    ghost predicate Valid()
      reads this
    {
      Inv(settings, Abs())
    }

    constructor (settings: Settings)
      ensures Valid() && this.settings == settings && Abs() == INITIAL
    {
      this.settings := settings;
      recentPublishes, coalesceBuffer, coalesceTimer := [], [], false;
      publishStats := Stats(0, 0, 0, 0, 0);
      requested, delivered := map[], map[];
    }

    method PublishFn(topic: string, payload: string, now: Millis)
      modifies this`delivered, this`publishStats
      ensures Abs() == Send(old(Abs()), topic, payload, now)
    {
      delivered := delivered[topic := Recent(payload, now)];
      publishStats := publishStats.(published := publishStats.published + 1);
    }

    method PublishNow(topic: string, payload: string, now: Millis)
      modifies this
      ensures Abs() == PublishSpec.PublishNow(settings, old(Abs()), topic, payload, now)
    {
      if settings.dedupWindowMs == 0 {
        PublishFn(topic, payload, now);
        return;
      }
      var previous := Get(recentPublishes, topic);
      if previous.Some? && previous.value.payload == payload && now - previous.value.atMs <= settings.dedupWindowMs {
        publishStats := publishStats.(dedupDropped := publishStats.dedupDropped + 1);
        return;
      }
      recentPublishes := Put(recentPublishes, topic, Recent(payload, now));
      PruneDedupCache(now);
      PublishFn(topic, payload, now);
    }

    method PruneDedupCache(now: Millis)
      modifies this`recentPublishes, this`publishStats
      ensures var before := old(recentPublishes);
              && recentPublishes == Prune(settings, before, now)
              && publishStats == old(publishStats).(
                   dedupEvicted := old(publishStats).dedupEvicted + |before| - Kept(settings, before, now))
    {
      if |recentPublishes| <= settings.dedupMaxEntries {
        return;
      }
      ghost var before, evictedBefore := recentPublishes, publishStats.dedupEvicted;
      var entries := recentPublishes;
      var live: InsertionMap<string, Recent> := [];
      assert entries[0..] == entries;
      assert DropExpired(settings, [], now) == [];
      hide DropExpired;
      for i := 0 to |entries|
        invariant DropExpired(settings, before, now) == live + DropExpired(settings, entries[i..], now)
        invariant |live| <= i
        invariant publishStats == old(publishStats).(dedupEvicted := evictedBefore + i - |live|)
        invariant recentPublishes == before
      {
        DropExpiredNext(settings, entries, i, now);
        if entries[i].1.atMs < now - settings.dedupWindowMs {
          publishStats := publishStats.(dedupEvicted := publishStats.dedupEvicted + 1);
        } else {
          live := live + [entries[i]];
        }
      }
      recentPublishes := live;
      EvictOldest();
    }

    /** The second pass over the cache: oldest first until it is within its limit. */
    method EvictOldest()
      modifies this`recentPublishes, this`publishStats
      ensures var live, limit := old(recentPublishes), settings.dedupMaxEntries;
              && recentPublishes == (if |live| <= limit then live else live[|live| - limit..])
              && publishStats == old(publishStats).(
                                 dedupEvicted := old(publishStats).dedupEvicted + |live| - |recentPublishes|)
    {
      ghost var live, evicted, before := recentPublishes, 0, publishStats;
      hide Get, Put, Delete, Has;
      while |recentPublishes| > settings.dedupMaxEntries
        invariant evicted <= |live| && recentPublishes == live[evicted..]
        invariant evicted > 0 ==> |recentPublishes| >= settings.dedupMaxEntries
        invariant publishStats == before.(dedupEvicted := before.dedupEvicted + evicted)
        decreases |recentPublishes|
      {
        assert live[evicted..][1..] == live[evicted + 1..];
        evicted := evicted + 1;
        recentPublishes := recentPublishes[1..];
        publishStats := publishStats.(dedupEvicted := publishStats.dedupEvicted + 1);
      }
    }

    method PublishIfNeeded(topic: string, payload: string, now: Millis)
      requires Valid()
      modifies this
      ensures Valid() && Abs() == PublishSpec.PublishIfNeeded(settings, old(Abs()), topic, payload, now)
    {
      hide Inv, PublishSpec.PublishNow, Put, Has;
      StepKeeps(settings, Abs(), Wanted(topic, payload, now));
      publishStats := publishStats.(publishAttempts := publishStats.publishAttempts + 1);
      requested := requested[topic := payload];
      if settings.coalesce {
        var hadExisting := Has(coalesceBuffer, topic);
        coalesceBuffer := Put(coalesceBuffer, topic, payload);
        if hadExisting {
          publishStats := publishStats.(coalesced := publishStats.coalesced + 1);
        }
        coalesceTimer := true;
        return;
      }
      PublishNow(topic, payload, now);
    }

    /** The scheduled setImmediate callback. */
    method OnFlush(clock: nat -> Millis)
      requires Valid()
      modifies this
      ensures Valid() && Abs() == FlushBuffer(settings, old(Abs()), clock)
    {
      StepKeeps(settings, Abs(), FlushRuns(clock));
      hide Inv, PublishSpec.PublishNow;
      coalesceTimer := false;
      var entries := coalesceBuffer;
      coalesceBuffer := [];
      ghost var start := Abs();
      assert entries[0..] == entries;
      for i := 0 to |entries|
        invariant PublishEach(settings, start, entries, clock) == PublishEach(settings, Abs(), entries[i..], clock)
      {
        assert entries[i..][1..] == entries[i + 1..];
        PublishNow(entries[i].0, entries[i].1, clock(|entries| - i));
      }
    }
  }
}
