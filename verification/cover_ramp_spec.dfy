/**
 * Estimated positions of moving covers (src/coverRampTracker.js): interval callbacks that
 * interpolate until the ramp is over, is cancelled or is replaced.
 */
module CoverRampSpec {
  import opened Options

  type Millis = int

  type Key = string

  /** What an interval's callback has captured. */
  datatype Ramp = Ramp(key: Key, startLevel: int, targetLevel: int, durationMs: Millis, startTime: Millis)

  /** `ramps` names the interval of each key; `intervals` are those the runtime will still fire. */
  datatype State = State(ramps: map<Key, nat>, intervals: map<nat, Ramp>, nextHandle: nat)

  const INITIAL := State(map[], map[], 0)

  /** Math.round: halves go up. */
  function Round(x: real): int {
    (x + 0.5).Floor
  }

  function Lerp(from: int, to: int, progress: real): real {
    from as real + (to - from) as real * progress
  }

  function Interpolated(r: Ramp, elapsed: Millis): int
    requires elapsed < r.durationMs && r.durationMs != 0
  {
    Round(Lerp(r.startLevel, r.targetLevel, elapsed as real / r.durationMs as real))
  }

  predicate Over(r: Ramp, now: Millis) {
    now - r.startTime >= r.durationMs
  }

  /** The level a callback reports. Before a zero-length ramp has even started there is nothing to divide by. */
  function Estimate(r: Ramp, now: Millis): int {
    if Over(r, now) || r.durationMs == 0 then r.targetLevel else Interpolated(r, now - r.startTime)
  }

  function Cancel(s: State, key: Key): State {
    if key in s.ramps then s.(intervals := s.intervals - {s.ramps[key]}, ramps := s.ramps - {key}) else s
  }

  function Start(s: State, r: Ramp): State {
    var s1 := Cancel(s, r.key);
    State(s1.ramps[r.key := s1.nextHandle], s1.intervals[s1.nextHandle := r], s1.nextHandle + 1)
  }

  function CancelAll(s: State): State {
    State(map[], s.intervals - s.ramps.Values, s.nextHandle)
  }

  /** The runtime fires an interval that has not been cleared. */
  function Tick(s: State, handle: nat, now: Millis): State {
    if handle in s.intervals && Over(s.intervals[handle], now) then Cancel(s, s.intervals[handle].key) else s
  }

  datatype Event =
    | Starts(ramp: Ramp)
    | Cancels(key: Key)
    | CancelsAll
    | Ticks(handle: nat, now: Millis)

  function Step(s: State, e: Event): State {
    match e
    case Starts(r) => Start(s, r)
    case Cancels(key) => Cancel(s, key)
    case CancelsAll => CancelAll(s)
    case Ticks(h, now) => Tick(s, h, now)
  }

  function Run(s: State, es: seq<Event>): State
    decreases |es|
  {
    if es == [] then s else Run(Step(s, es[0]), es[1..])
  }

  /** The levels one interval reports over a run. */
  function Reported(s: State, es: seq<Event>, h: nat): seq<int>
    decreases |es|
  {
    if es == [] then []
    else
      (if es[0].Ticks? && es[0].handle == h && h in s.intervals then [Estimate(s.intervals[h], es[0].now)] else [])
      + Reported(Step(s, es[0]), es[1..], h)
  }

  // One live interval per key.

  ghost predicate Inv(s: State) {
    && (forall k :: k in s.ramps ==> s.ramps[k] in s.intervals && s.intervals[s.ramps[k]].key == k)
    && (forall h :: h in s.intervals ==> h < s.nextHandle
                                         && s.intervals[h].key in s.ramps && s.ramps[s.intervals[h].key] == h)
  }

  lemma StepKeeps(s: State, e: Event)
    requires Inv(s)
    ensures Inv(Step(s, e)) && Step(s, e).nextHandle >= s.nextHandle
    ensures forall h :: h in Step(s, e).intervals && h < s.nextHandle ==>
                          h in s.intervals && Step(s, e).intervals[h] == s.intervals[h]
  {
    if e.CancelsAll? {
      forall h | h in s.intervals ensures h in s.ramps.Values {
        assert s.ramps[s.intervals[h].key] == h;
      }
    }
  }

  lemma {:induction false} RunKeeps(s: State, es: seq<Event>)
    requires Inv(s)
    ensures Inv(Run(s, es))
    decreases |es|
  {
    if es != [] {
      StepKeeps(s, es[0]);
      hide Step, Inv;
      RunKeeps(Step(s, es[0]), es[1..]);
    }
  }

  /** At every moment of every run each key has at most one live interval, and it is the one on record. */
  lemma OneIntervalPerKey(es: seq<Event>, h1: nat, h2: nat)
    ensures var s := Run(INITIAL, es);
            h1 in s.intervals && h2 in s.intervals && s.intervals[h1].key == s.intervals[h2].key ==> h1 == h2
  {
    RunKeeps(INITIAL, es);
  }

  /** An interval that was cancelled, replaced or has finished reports nothing ever again. */
  lemma {:induction false} GoneIsSilent(s: State, es: seq<Event>, h: nat)
    requires Inv(s) && h < s.nextHandle && h !in s.intervals
    ensures Reported(s, es, h) == []
    decreases |es|
  {
    if es != [] {
      StepKeeps(s, es[0]);
      hide Step, Inv;
      GoneIsSilent(Step(s, es[0]), es[1..], h);
    }
  }

  /** Starting a ramp on a key silences the key's previous interval; so does cancelling it. */
  lemma ReplacedIsSilent(s: State, r: Ramp, es: seq<Event>)
    requires Inv(s) && r.key in s.ramps
    ensures Reported(Start(s, r), es, s.ramps[r.key]) == []
    ensures Reported(Cancel(s, r.key), es, s.ramps[r.key]) == []
  {
    StepKeeps(s, Starts(r));
    StepKeeps(s, Cancels(r.key));
    GoneIsSilent(Start(s, r), es, s.ramps[r.key]);
    GoneIsSilent(Cancel(s, r.key), es, s.ramps[r.key]);
  }

  // Estimates stay on the way.

  predicate Between(a: int, x: int, b: int) {
    a <= x <= b || b <= x <= a
  }

  lemma RoundMonotone(x: real, y: real)
    requires x <= y
    ensures Round(x) <= Round(y)
  {
  }

  lemma RoundOfInt(n: int)
    ensures Round(n as real) == n
  {
  }

  lemma ProgressBounds(elapsed: Millis, later: Millis, duration: Millis)
    requires 0 <= elapsed <= later < duration
    ensures 0.0 <= elapsed as real / duration as real <= later as real / duration as real <= 1.0
  {
    QuotientMonotone(0.0, elapsed as real, duration as real);
    QuotientMonotone(elapsed as real, later as real, duration as real);
    QuotientMonotone(later as real, duration as real, duration as real);
  }

  lemma QuotientMonotone(x: real, y: real, d: real)
    requires x <= y && d > 0.0
    ensures x / d <= y / d
  {
    assert (x / d) * d == x && (y / d) * d == y;
  }

  lemma LerpMonotone(from: int, to: int, p: real, q: real)
    requires p <= q
    ensures from <= to ==> Lerp(from, to, p) <= Lerp(from, to, q)
    ensures from >= to ==> Lerp(from, to, q) <= Lerp(from, to, p)
  {
    var k := (to - from) as real;
    assert k * q - k * p == k * (q - p);
  }

  lemma LerpEnds(from: int, to: int)
    ensures Lerp(from, to, 0.0) == from as real && Lerp(from, to, 1.0) == to as real
  {
  }

  /** The estimate is the integer nearest to the exact position, halves rounded up. */
  lemma InterpolatedIsNearest(r: Ramp, elapsed: Millis)
    requires 0 <= elapsed < r.durationMs
    ensures var exact := r.startLevel * r.durationMs + (r.targetLevel - r.startLevel) * elapsed;
            var level := Interpolated(r, elapsed);
            level * (2 * r.durationMs) <= 2 * exact + r.durationMs < (level + 1) * (2 * r.durationMs)
  {
    hide Lerp;
    var v := Lerp(r.startLevel, r.targetLevel, elapsed as real / r.durationMs as real);
    LerpScaled(r, elapsed);
    NearestScaled(r.durationMs, Interpolated(r, elapsed), v,
                  r.startLevel * r.durationMs + (r.targetLevel - r.startLevel) * elapsed);
  }

  lemma LerpScaled(r: Ramp, elapsed: Millis)
    requires 0 <= elapsed < r.durationMs
    ensures Lerp(r.startLevel, r.targetLevel, elapsed as real / r.durationMs as real) * r.durationMs as real ==
            (r.startLevel * r.durationMs + (r.targetLevel - r.startLevel) * elapsed) as real
  {
    var d, span := r.durationMs as real, (r.targetLevel - r.startLevel) as real;
    var p := elapsed as real / d;
    assert p * d == elapsed as real;
    assert span * p * d == span * (p * d);
  }

  /** From the nearest integer to v to whole numbers, by the common denominator 2d. */
  lemma NearestScaled(d: int, level: int, v: real, exact: int)
    requires d > 0 && v * d as real == exact as real && level as real <= v + 0.5 < level as real + 1.0
    ensures level * (2 * d) <= 2 * exact + d < (level + 1) * (2 * d)
  {
    Halved(v, d as real);
    ScaledInt(level, v + 0.5, 2 * d, 2 * exact + d);
    ScaledInt(level + 1, v + 0.5, 2 * d, 2 * exact + d);
  }

  lemma Halved(v: real, d: real)
    ensures (v + 0.5) * (2.0 * d) == 2.0 * (v * d) + d
  {
  }

  lemma ScaledInt(n: int, x: real, k: int, y: int)
    requires k > 0 && x * k as real == y as real
    ensures n as real <= x ==> n * k <= y
    ensures x < n as real ==> y < n * k
  {
    ProductAsReal(n, k);
    if n as real <= x {
      Scaled(n as real, x, k as real);
    } else {
      Scaled(x, n as real, k as real);
    }
  }

  lemma ProductAsReal(a: int, b: int)
    ensures (a * b) as real == a as real * b as real
  {
  }

  lemma Scaled(x: real, y: real, k: real)
    requires x <= y && k > 0.0
    ensures x * k <= y * k && (x < y ==> x * k < y * k)
  {
    assert y * k - x * k == (y - x) * k;
  }

  lemma InterpolatedOnTheWay(r: Ramp, e1: Millis, e2: Millis)
    requires 0 <= e1 <= e2 < r.durationMs
    ensures Between(r.startLevel, Interpolated(r, e1), r.targetLevel)
    ensures Between(Interpolated(r, e1), Interpolated(r, e2), r.targetLevel)
  {
    var a, b := r.startLevel, r.targetLevel;
    var p1, p2 := e1 as real / r.durationMs as real, e2 as real / r.durationMs as real;
    ProgressBounds(e1, e2, r.durationMs);
    LerpMonotone(a, b, 0.0, p1);
    LerpMonotone(a, b, p1, p2);
    LerpMonotone(a, b, p2, 1.0);
    LerpEnds(a, b);
    RoundOfInt(a);
    RoundOfInt(b);
    hide Lerp, Round;
    if a <= b {
      RoundMonotone(a as real, Lerp(a, b, p1));
      RoundMonotone(Lerp(a, b, p1), Lerp(a, b, p2));
      RoundMonotone(Lerp(a, b, p2), b as real);
    } else {
      RoundMonotone(Lerp(a, b, p1), a as real);
      RoundMonotone(Lerp(a, b, p2), Lerp(a, b, p1));
      RoundMonotone(b as real, Lerp(a, b, p2));
    }
  }

  lemma EstimatesOnTheWay(r: Ramp, t1: Millis, t2: Millis)
    requires r.startTime <= t1 <= t2
    ensures Between(r.startLevel, Estimate(r, t1), r.targetLevel)
    ensures Between(Estimate(r, t1), Estimate(r, t2), r.targetLevel)
  {
    hide Interpolated;
    if !Over(r, t1) && r.durationMs != 0 {
      var e1 := t1 - r.startTime;
      InterpolatedOnTheWay(r, e1, if Over(r, t2) then e1 else t2 - r.startTime);
    }
  }

  /** Each level is between its predecessor and the target. */
  predicate Approaches(from: int, levels: seq<int>, target: int)
    decreases |levels|
  {
    levels == [] || (Between(from, levels[0], target) && Approaches(levels[0], levels[1..], target))
  }

  predicate ClockForward(now: Millis, es: seq<Event>)
    decreases |es|
  {
    es == [] || (if es[0].Ticks? then now <= es[0].now && ClockForward(es[0].now, es[1..])
                 else ClockForward(now, es[1..]))
  }

  /**
   * Over any run with a forward clock, what an interval reports starts between start and target and moves
   * only towards the target; and if the ramp has run its time, the last report is exactly the target.
   */
  lemma {:induction false} ReportsApproach(s: State, es: seq<Event>, h: nat, now: Millis)
    requires Inv(s) && h in s.intervals && s.intervals[h].startTime <= now && ClockForward(now, es)
    ensures Approaches(Estimate(s.intervals[h], now), Reported(s, es, h), s.intervals[h].targetLevel)
    ensures Finishes(s, es, h) ==>
              var levels := Reported(s, es, h); levels != [] && levels[|levels| - 1] == s.intervals[h].targetLevel
    decreases |es|
  {
    if es != [] {
      var r, e, s' := s.intervals[h], es[0], Step(s, es[0]);
      var now', rest := if e.Ticks? then e.now else now, Reported(s', es[1..], h);
      StepKeeps(s, e);
      EstimatesOnTheWay(r, now, now');
      assert Over(r, now') ==> Estimate(r, now') == r.targetLevel;
      assert e.Ticks? && e.handle == h && Over(r, e.now) ==> h !in s'.intervals;
      hide Estimate, Step, Inv, Over, Between, Approaches;
      if h in s'.intervals {
        ReportsApproach(s', es[1..], h, now');
      } else {
        GoneIsSilent(s', es[1..], h);
        assert !Finishes(s', es[1..], h);
        AtTarget(Estimate(r, now'), r.targetLevel);
      }
      Closer(Estimate(r, now), Estimate(r, now'), rest, r.targetLevel);
      assert [] + rest == rest;
      assert Reported(s, es, h) == if e.Ticks? && e.handle == h then [Estimate(r, now')] + rest else rest;
    }
  }

  lemma AtTarget(from: int, target: int)
    ensures Approaches(from, [], target)
  {
  }

  /** The ramp's own time runs out while it is live. */
  predicate Finishes(s: State, es: seq<Event>, h: nat)
    decreases |es|
  {
    es != [] && h in s.intervals
    && ((es[0].Ticks? && es[0].handle == h && Over(s.intervals[h], es[0].now)) || Finishes(Step(s, es[0]), es[1..], h))
  }

  lemma Closer(from: int, mid: int, levels: seq<int>, target: int)
    requires Between(from, mid, target) && Approaches(mid, levels, target)
    ensures Approaches(from, levels, target) && Approaches(from, [mid] + levels, target)
  {
    assert ([mid] + levels)[1..] == levels;
  }

  /** From the moment it is started, a ramp's reports stay between its levels and move to the target. */
  lemma StartedRampApproaches(s: State, r: Ramp, es: seq<Event>)
    requires Inv(s) && ClockForward(r.startTime, es)
    ensures Approaches(r.startLevel, Reported(Start(s, r), es, Cancel(s, r.key).nextHandle), r.targetLevel)
  {
    var h, s' := Cancel(s, r.key).nextHandle, Start(s, r);
    StepKeeps(s, Starts(r));
    ReportsApproach(s', es, h, r.startTime);
    EstimatesOnTheWay(r, r.startTime, r.startTime);
    Closer(r.startLevel, Estimate(r, r.startTime), Reported(s', es, h), r.targetLevel);
  }
}
