/** The tracker of src/coverRampTracker.js as the class it is, proved against CoverRampSpec. */
module CoverRamps {
  import opened CoverRampSpec
  import opened Options

  class CoverRampTracker {
    var ramps: map<Key, nat>

    // The runtime's side: intervals that still fire, with what their callbacks captured.
    var intervals: map<nat, Ramp>
    var nextHandle: nat

    ghost function Abs(): State
      reads this
    {
      State(ramps, intervals, nextHandle)
    }

    ghost predicate Valid()
      reads this
    {
      Inv(Abs())
    }

    constructor ()
      ensures Valid() && Abs() == INITIAL
    {
      ramps, intervals, nextHandle := map[], map[], 0;
    }

    method StartRamp(key: Key, startLevel: int, targetLevel: int, durationMs: Millis, now: Millis)
      requires Valid()
      modifies this
      ensures Valid() && Abs() == Start(old(Abs()), Ramp(key, startLevel, targetLevel, durationMs, now))
    {
      var r := Ramp(key, startLevel, targetLevel, durationMs, now);
      StepKeeps(Abs(), Starts(r));
      CancelRamp(key);
      var handle := nextHandle;
      intervals := intervals[handle := r];
      nextHandle := nextHandle + 1;
      ramps := ramps[key := handle];
    }

    method CancelRamp(key: Key)
      requires Valid()
      modifies this`ramps, this`intervals
      ensures Valid() && Abs() == Cancel(old(Abs()), key)
    {
      StepKeeps(Abs(), Cancels(key));
      if key in ramps {
        intervals := intervals - {ramps[key]};
        ramps := ramps - {key};
      }
    }

    method CancelAll()
      requires Valid()
      modifies this`ramps, this`intervals
      ensures Valid() && Abs() == CoverRampSpec.CancelAll(old(Abs())) && intervals == map[]
    {
      ghost var start := Abs();
      var todo := ramps.Keys;
      while todo != {}
        invariant Valid() && todo == ramps.Keys
        invariant nextHandle == start.nextHandle
        decreases |todo|
      {
        var key :| key in todo;
        CancelRamp(key);
        todo := todo - {key};
      }
      AllRamping(start);
      assert ramps == map[];
      assert intervals == map[];
    }

    /** An interval that is still live fires; the clock does not run backwards. */
    method OnInterval(handle: nat, now: Millis) returns (level: int)
      requires Valid() && handle in intervals && intervals[handle].startTime <= now
      modifies this`ramps, this`intervals
      ensures Valid() && Abs() == Tick(old(Abs()), handle, now)
      ensures level == Estimate(old(intervals[handle]), now)
      ensures Over(old(intervals[handle]), now) ==> handle !in intervals && level == old(intervals[handle]).targetLevel
    {
      var r := intervals[handle];
      var elapsed := now - r.startTime;
      if elapsed >= r.durationMs {
        CancelRamp(r.key);
        return r.targetLevel;
      }
      level := Interpolated(r, elapsed);
    }

    method IsRamping(key: Key) returns (r: bool)
      requires Valid()
      ensures r <==> exists h :: h in intervals && intervals[h].key == key
    {
      r := key in ramps;
      if r {
        assert intervals[ramps[key]].key == key;
      }
    }
  }

  /** Every live interval is on record, so cancelling every key stops them all. */
  lemma AllRamping(s: State)
    requires Inv(s)
    ensures s.intervals - s.ramps.Values == map[]
  {
    forall h | h in s.intervals ensures h in s.ramps.Values {
      assert s.ramps[s.intervals[h].key] == h;
    }
  }
}
