/**
 * The data structure of src/throttledQueue.js: four growing arrays with dequeue heads, consumed
 * slots cleared in place and compacted, refining the plain FIFO lanes of QueueSpec.
 */
module ThrottledQueues {
  import opened Options
  import opened QueueSpec

  const COMPACT_AT := 64

  /** The items of the slots that have not been consumed. */
  function Live<T>(slots: seq<Option<T>>, head: nat): seq<T>
    requires WellFormed(slots, head)
  {
    seq(|slots| - head, i requires 0 <= i < |slots| - head => slots[head + i].value)
  }

  /**
   * Consumed slots are cleared, live ones hold items, a drained array is reset, and the consumed
   * prefix is short or less than half of the array.
   */
  predicate WellFormed<T>(slots: seq<Option<T>>, head: nat) {
    && head <= |slots|
    && (head == |slots| ==> slots == [])
    && (forall i :: 0 <= i < head ==> slots[i].None?)
    && (forall i :: head <= i < |slots| ==> slots[i].Some?)
    && (head < COMPACT_AT || 2 * head < |slots|)
  }

  /** Each array holds fewer than max(live + 64, 2 * live) slots, so garbage stays bounded by the load. */
  lemma SlotsBounded<T>(slots: seq<Option<T>>, head: nat)
    requires WellFormed(slots, head)
    ensures |slots| < |Live(slots, head)| + COMPACT_AT || |slots| < 2 * |Live(slots, head)|
  {
  }

  /** Consuming the head item: clear its slot, then advance, compact or reset. */
  function Take<T>(slots: seq<Option<T>>, head: nat): (seq<Option<T>>, nat)
    requires head < |slots|
  {
    var cleared := slots[head := None];
    var newHead := head + 1;
    if newHead == |slots| then ([], 0)
    else if newHead >= COMPACT_AT && newHead * 2 >= |slots| then (cleared[newHead..], 0)
    else (cleared, newHead)
  }

  lemma TakeRefines<T>(slots: seq<Option<T>>, head: nat)
    requires WellFormed(slots, head) && head < |slots|
    ensures var (slots', head') := Take(slots, head);
            && WellFormed(slots', head')
            && Live(slots', head') == Live(slots, head)[1..]
            && slots[head] == Some(Live(slots, head)[0])
  {
  }

  lemma PushRefines<T>(slots: seq<Option<T>>, head: nat, item: T)
    requires WellFormed(slots, head)
    ensures WellFormed(slots + [Some(item)], head)
    ensures Live(slots + [Some(item)], head) == Live(slots, head) + [item]
  {
  }

  predicate AllWellFormed<T>(queues: map<Priority, seq<Option<T>>>, heads: map<Priority, nat>) {
    forall p: Priority :: p in queues && p in heads && WellFormed(queues[p], heads[p])
  }

  /** The FIFO lanes that the arrays and their heads stand for. */
  function LanesIn<T>(queues: map<Priority, seq<Option<T>>>, heads: map<Priority, nat>): Lanes<T>
    requires AllWellFormed(queues, heads)
  {
    Lanes(Live(queues[Critical], heads[Critical]), Live(queues[Interactive], heads[Interactive]),
          Live(queues[Normal], heads[Normal]), Live(queues[Bulk], heads[Bulk]))
  }

  lemma LaneUpdated<T>(queues: map<Priority, seq<Option<T>>>, heads: map<Priority, nat>, p: Priority,
                       slots: seq<Option<T>>, head: nat)
    requires AllWellFormed(queues, heads) && WellFormed(slots, head)
    ensures AllWellFormed(queues[p := slots], heads[p := head])
    ensures LanesIn(queues[p := slots], heads[p := head]) == LanesIn(queues, heads).With(p, Live(slots, head))
  {
  }

  lemma LaneOf<T>(queues: map<Priority, seq<Option<T>>>, heads: map<Priority, nat>, p: Priority)
    requires AllWellFormed(queues, heads)
    ensures WellFormed(queues[p], heads[p])
    ensures LanesIn(queues, heads).Get(p) == Live(queues[p], heads[p])
    ensures |Live(queues[p], heads[p])| == |queues[p]| - heads[p]
  {
  }

  lemma LengthWith<T>(lanes: Lanes<T>, p: Priority)
    requires lanes.Get(p) != []
    ensures lanes.With(p, lanes.Get(p)[1..]).Length() == lanes.Length() - 1
  {
  }

  lemma LengthAppended<T>(lanes: Lanes<T>, p: Priority, item: T)
    ensures lanes.Append(p, item).Length() == lanes.Length() + 1
  {
  }

  lemma EmptyArrays<T>()
    ensures var queues: map<Priority, seq<Option<T>>> :=
              map[Critical := [], Interactive := [], Normal := [], Bulk := []];
            var heads: map<Priority, nat> := map[Critical := 0, Interactive := 0, Normal := 0, Bulk := 0];
            AllWellFormed(queues, heads) && LanesIn(queues, heads) == EmptyLanes()
  {
    var queues: map<Priority, seq<Option<T>>> := map[Critical := [], Interactive := [], Normal := [], Bulk := []];
    var heads: map<Priority, nat> := map[Critical := 0, Interactive := 0, Normal := 0, Bulk := 0];
    forall p: Priority ensures p in queues && p in heads && WellFormed(queues[p], heads[p]) {
      match p
      case Critical =>
      case Interactive =>
      case Normal =>
      case Bulk =>
    }
  }

  lemma HeadIsServed<T>(lanes: Lanes<T>)
    requires lanes.Length() > 0
    ensures lanes.Get(Highest(lanes))[0] == lanes.ServiceOrder()[0]
  {
  }

  const PRIORITY_ORDER: seq<Priority> := [Critical, Interactive, Normal, Bulk]
  const DROP_ORDER: seq<Priority> := [Bulk, Normal, Interactive, Critical]

  lemma FirstNonEmptyIsHighest<T>(lanes: Lanes<T>, i: nat)
    requires i < |PRIORITY_ORDER| && lanes.Get(PRIORITY_ORDER[i]) != []
    requires forall j :: 0 <= j < i ==> lanes.Get(PRIORITY_ORDER[j]) == []
    ensures lanes.Length() > 0 && PRIORITY_ORDER[i] == Highest(lanes)
  {
    assert i > 0 ==> lanes.Get(PRIORITY_ORDER[0]) == [];
    assert i > 1 ==> lanes.Get(PRIORITY_ORDER[1]) == [];
    assert i > 2 ==> lanes.Get(PRIORITY_ORDER[2]) == [];
  }

  lemma FirstNonEmptyIsLowest<T>(lanes: Lanes<T>, i: nat)
    requires i < |DROP_ORDER| && lanes.Get(DROP_ORDER[i]) != []
    requires forall j :: 0 <= j < i ==> lanes.Get(DROP_ORDER[j]) == []
    ensures lanes.Length() > 0 && DROP_ORDER[i] == Lowest(lanes)
  {
    assert i > 0 ==> lanes.Get(DROP_ORDER[0]) == [];
    assert i > 1 ==> lanes.Get(DROP_ORDER[1]) == [];
    assert i > 2 ==> lanes.Get(DROP_ORDER[2]) == [];
  }

  lemma NoneLeft<T>(lanes: Lanes<T>, order: seq<Priority>)
    requires order == PRIORITY_ORDER || order == DROP_ORDER
    requires forall j :: 0 <= j < |order| ==> lanes.Get(order[j]) == []
    ensures lanes.Length() == 0
  {
    assert lanes.Get(order[0]) == [] && lanes.Get(order[1]) == [];
    assert lanes.Get(order[2]) == [] && lanes.Get(order[3]) == [];
  }

  class ThrottledQueue<T> {
    const settings: Settings
    var queues: map<Priority, seq<Option<T>>>
    var queueHeads: map<Priority, nat>
    var length: int
    var timer: Option<nat>
    var isProcessing: bool
    var active: bool
    var droppedCount: nat

    // What happened outside: promises not yet settled, and the fate of every item.
    var inFlight: nat
    ghost var added: Lanes<T>
    ghost var left: Lanes<T>
    ghost var processed: seq<T>
    ghost var dropped: seq<T>
    ghost var cleared: seq<T>
    var notices: seq<Notice>

    ghost predicate Valid()
      reads this`queues, this`queueHeads, this`length, this`droppedCount, this`dropped
    {
      && AllWellFormed(queues, queueHeads)
      && length == LanesIn(queues, queueHeads).Length()
      && droppedCount == |dropped|
    }

    ghost function Abs(): State<T>
      reads this
      requires Valid()
    {
      State(LanesIn(queues, queueHeads), active, isProcessing, timer, inFlight, added, left,
            processed, dropped, cleared, notices)
    }

    constructor (settings: Settings)
      ensures Valid() && this.settings == settings && Abs() == Initial()
    {
      this.settings := settings;
      queues := map[Critical := [], Interactive := [], Normal := [], Bulk := []];
      queueHeads := map[Critical := 0, Interactive := 0, Normal := 0, Bulk := 0];
      length, timer, isProcessing, active, droppedCount, inFlight := 0, None, false, false, 0, 0;
      added, left, processed, dropped, cleared, notices := EmptyLanes(), EmptyLanes(), [], [], [], [];
      new;
      EmptyArrays<T>();
    }

    method QueueLength(p: Priority) returns (n: nat)
      requires Valid()
      ensures n == |Abs().lanes.Get(p)|
    {
      LaneOf(queues, queueHeads, p);
      n := |queues[p]| - queueHeads[p];
    }

    /** Consumes the head slot of one array: clear it, then reset, compact or advance. */
    static method ConsumeHead(slots: seq<Option<T>>, head: nat) returns (item: T, slots': seq<Option<T>>, head': nat)
      requires WellFormed(slots, head) && head < |slots|
      ensures (slots', head') == Take(slots, head) && slots[head] == Some(item)
    {
      item := slots[head].value;
      var cleared := slots[head := None];
      var newHead := head + 1;
      if newHead == |cleared| {
        slots', head' := [], 0;
      } else if newHead >= COMPACT_AT && newHead * 2 >= |cleared| {
        slots', head' := cleared[newHead..], 0;
      } else {
        slots', head' := cleared, newHead;
      }
    }

    /** Removes and returns the head item of one lane. */
    method TakeFromQueue(p: Priority) returns (item: T)
      requires Valid() && Abs().lanes.Get(p) != []
      modifies this`queues, this`queueHeads, this`left, this`length
      ensures Valid() && Abs() == Leave(old(Abs()), p) && item == old(Abs()).lanes.Get(p)[0]
    {
      hide WellFormed, Live, LanesIn, Take;
      LaneOf(queues, queueHeads, p);
      TakeRefines(queues[p], queueHeads[p]);
      var slots, head;
      item, slots, head := ConsumeHead(queues[p], queueHeads[p]);
      LaneUpdated(queues, queueHeads, p, slots, head);
      LengthWith(LanesIn(queues, queueHeads), p);
      queues, queueHeads := queues[p := slots], queueHeads[p := head];
      left := left.Append(p, item);
      length := length - 1;
    }

    method DequeueOneItem() returns (item: Option<T>)
      requires Valid()
      modifies this`queues, this`queueHeads, this`left, this`length, this`processed
      ensures Valid()
      ensures old(Abs()).lanes.Length() == 0 ==> item.None? && Abs() == old(Abs())
      ensures old(Abs()).lanes.Length() > 0 ==>
                item == Some(old(Abs()).lanes.ServiceOrder()[0]) && Abs() == TakeNext(old(Abs()))
    {
      var order := PRIORITY_ORDER;
      item := None;
      for i := 0 to |order|
        invariant Valid() && Abs() == old(Abs()) && item.None?
        invariant forall j :: 0 <= j < i ==> Abs().lanes.Get(order[j]) == []
      {
        var n := QueueLength(order[i]);
        if n > 0 {
          FirstNonEmptyIsHighest(Abs().lanes, i);
          HeadIsServed(Abs().lanes);
          var head := TakeFromQueue(order[i]);
          processed := processed + [head];
          return Some(head);
        }
      }
      NoneLeft(Abs().lanes, order);
    }

    method DropOneItem()
      requires Valid() && Abs().lanes.Length() > 0
      modifies this`queues, this`queueHeads, this`left, this`length, this`droppedCount, this`dropped, this`notices
      ensures Valid() && Abs() == DropOne(settings, old(Abs()))
    {
      var order := DROP_ORDER;
      for i := 0 to |order|
        invariant Valid() && Abs() == old(Abs())
        invariant forall j :: 0 <= j < i ==> Abs().lanes.Get(order[j]) == []
      {
        var n := QueueLength(order[i]);
        if n > 0 {
          FirstNonEmptyIsLowest(Abs().lanes, i);
          var victim := TakeFromQueue(order[i]);
          RecordDrop(victim, order[i]);
          return;
        }
      }
      NoneLeft(Abs().lanes, order);
    }

    method RecordDrop(victim: T, p: Priority)
      requires Valid()
      modifies this`droppedCount, this`dropped, this`notices
      ensures Valid()
      ensures var was := old(Abs());
              Abs() == was.(dropped := was.dropped + [victim],
                            notices := was.notices + Reported(|was.dropped| + 1, p, settings.maxSize))
    {
      hide AllWellFormed, LanesIn;
      dropped := dropped + [victim];
      droppedCount := droppedCount + 1;
      if droppedCount == 1 || droppedCount % 100 == 0 {
        notices := notices + [Notice(droppedCount, p, settings.maxSize)];
      }
    }

    // The scheduler.

    method ScheduleNext(delayMs: nat)
      requires Valid()
      modifies this`timer
      ensures Valid() && Abs() == QueueSpec.ScheduleNext(old(Abs()), delayMs)
    {
      if timer.Some? {
        return;
      }
      timer := Some(delayMs);
    }

    method FinishProcess(interval: Option<int>)
      requires Valid()
      modifies this`isProcessing, this`timer
      ensures Valid() && Abs() == Finish(settings, old(Abs()), interval)
    {
      isProcessing := false;
      if !active {
        timer := None;
        return;
      }
      ScheduleNext(CurrentInterval(settings, interval));
    }

    method Process(env: Env)
      requires Valid()
      modifies this
      ensures Valid() && Abs() == QueueSpec.Process(settings, old(Abs()), env)
    {
      hide AllWellFormed, Highest, Leave, Lanes.ServiceOrder;
      if isProcessing {
        return;
      }
      if length == 0 {
        active, timer := false, None;
        return;
      }
      if !env.gateOpen {
        ScheduleNext(settings.retryWhenBlockedMs);
        return;
      }
      var item := DequeueOneItem();
      isProcessing := true;
      match env.outcome {
        case Defers => inFlight := inFlight + 1;
        case Returns => FinishProcess(env.interval);
        case Throws => FinishProcess(env.interval);
      }
    }

    /** An inherited name finds no array to push to: the call throws, with room already made. */
    method Add(item: T, name: Option<string>, env: Env) returns (ok: bool)
      requires Valid()
      modifies this
      ensures ok <==> ClassNamed(name).Some?
      ensures Valid() && Abs() == AddNamed(settings, old(Abs()), name, item, env)
    {
      hide ClassNamed;
      var p := ClassNamed(name);
      DropWhenFull();
      if p.None? {
        return false;
      }
      ok := true;
      PushItem(item, p.value);
      if !active {
        active := true;
        Process(env);
        return;
      }
      if timer.None? && !isProcessing {
        ScheduleNext(CurrentInterval(settings, env.interval));
      }
    }

    method DropWhenFull()
      requires Valid()
      modifies this`queues, this`queueHeads, this`left, this`length, this`droppedCount, this`dropped, this`notices
      ensures Valid() && Abs() == MakeRoom(settings, old(Abs()))
    {
      if settings.maxSize > 0 && length >= settings.maxSize {
        DropOneItem();
      }
    }

    method PushItem(item: T, p: Priority)
      requires Valid()
      modifies this`queues, this`length, this`added
      ensures Valid()
      ensures var was := old(Abs());
              Abs() == was.(lanes := was.lanes.Append(p, item), added := was.added.Append(p, item))
    {
      hide WellFormed, Live, LanesIn;
      LaneOf(queues, queueHeads, p);
      PushRefines(queues[p], queueHeads[p], item);
      LaneUpdated(queues, queueHeads, p, queues[p] + [Some(item)], queueHeads[p]);
      LengthAppended(LanesIn(queues, queueHeads), p, item);
      assert queueHeads == queueHeads[p := queueHeads[p]];
      queues := queues[p := queues[p] + [Some(item)]];
      length := length + 1;
      added := added.Append(p, item);
    }

    /** The armed timer fires. */
    method OnTimer(env: Env)
      requires Valid() && timer.Some?
      modifies this
      ensures Valid() && Abs() == TimerFires(settings, old(Abs()), env)
    {
      timer := None;
      Process(env);
    }

    /** A promise returned by processFn settles, either way. */
    method OnSettled(interval: Option<int>)
      requires Valid() && inFlight > 0
      modifies this
      ensures Valid() && Abs() == PromiseSettles(settings, old(Abs()), interval)
    {
      inFlight := inFlight - 1;
      FinishProcess(interval);
    }

    method Clear()
      requires Valid()
      modifies this
      ensures Valid() && Abs() == QueueSpec.Clear(old(Abs()))
    {
      hide AllWellFormed, LanesIn, Lanes.ServiceOrder;
      DiscardAll();
      isProcessing, active, timer := false, false, None;
    }

    /** Fresh arrays; every item still queued counts as cleared. */
    method DiscardAll()
      requires Valid()
      modifies this`queues, this`queueHeads, this`length, this`left, this`cleared
      ensures Valid()
      ensures var was := old(Abs());
              Abs() == was.(lanes := EmptyLanes(), cleared := was.cleared + was.lanes.ServiceOrder(),
                            left := Lanes(was.left.critical + was.lanes.critical,
                                          was.left.interactive + was.lanes.interactive,
                                          was.left.normal + was.lanes.normal, was.left.bulk + was.lanes.bulk))
    {
      hide WellFormed, Live, LanesIn, AllWellFormed, Lanes.ServiceOrder;
      ghost var lanes := LanesIn(queues, queueHeads);
      left := Lanes(left.critical + lanes.critical, left.interactive + lanes.interactive,
                    left.normal + lanes.normal, left.bulk + lanes.bulk);
      cleared := cleared + lanes.ServiceOrder();
      queues := map[Critical := [], Interactive := [], Normal := [], Bulk := []];
      queueHeads := map[Critical := 0, Interactive := 0, Normal := 0, Bulk := 0];
      length := 0;
      EmptyArrays<T>();
    }
  }
}
