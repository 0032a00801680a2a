/**
 * What the throttled queue keeps over every run of adds, timer ticks, settled promises and clears.
 */
module QueueGuarantees {
  import opened Options
  import opened QueueSpec

  /** Each lane is a FIFO: what was added to it is what has left it, in that order, then what it holds. */
  ghost predicate Fifo<T>(s: State<T>) {
    && s.added.critical == s.left.critical + s.lanes.critical
    && s.added.interactive == s.left.interactive + s.lanes.interactive
    && s.added.normal == s.left.normal + s.lanes.normal
    && s.added.bulk == s.left.bulk + s.lanes.bulk
  }

  function Items<T>(lanes: Lanes<T>): multiset<T> {
    multiset(lanes.critical) + multiset(lanes.interactive) + multiset(lanes.normal) + multiset(lanes.bulk)
  }

  /** Everything that left a lane was processed, dropped or cleared, and nothing else was. */
  ghost predicate Accounted<T>(s: State<T>) {
    multiset(s.processed) + multiset(s.dropped) + multiset(s.cleared) == Items(s.left)
  }

  predicate Bounded<T>(c: Settings, s: State<T>) {
    c.maxSize > 0 ==> s.lanes.Length() <= c.maxSize
  }

  /** No lost wakeup: a waiting item always has a timer or an item in flight to come for it. */
  predicate Awake<T>(s: State<T>) {
    && (s.lanes.Length() > 0 ==> s.active && (s.timer.Some? || s.processing))
    && (!s.active ==> s.lanes.Length() == 0 && s.timer.None? && !s.processing)
    && (s.processing ==> s.inFlight > 0 && s.timer.None?)
  }

  ghost predicate Inv<T>(c: Settings, s: State<T>) {
    Fifo(s) && Accounted(s) && Bounded(c, s) && Awake(s)
  }

  lemma LeaveKeeps<T>(s: State<T>, p: Priority)
    requires Fifo(s) && s.lanes.Get(p) != []
    ensures var s' := Leave(s, p);
            && Fifo(s')
            && Items(s'.left) == Items(s.left) + multiset{s.lanes.Get(p)[0]}
            && s'.lanes.Length() == s.lanes.Length() - 1
  {
    var items := s.lanes.Get(p);
    HeadMoves(s.left.Get(p), items);
    AppendedItem(s.left, p, items[0]);
    hide Items;
  }

  lemma HeadMoves<T>(left: seq<T>, items: seq<T>)
    requires items != []
    ensures left + items == (left + [items[0]]) + items[1..]
  {
    assert items == [items[0]] + items[1..];
  }

  lemma AppendedItem<T>(lanes: Lanes<T>, p: Priority, item: T)
    ensures Items(lanes.Append(p, item)) == Items(lanes) + multiset{item}
  {
  }

  lemma DropKeeps<T>(c: Settings, s: State<T>)
    requires Fifo(s) && Accounted(s) && s.lanes.Length() > 0
    ensures var s' := DropOne(c, s);
            Fifo(s') && Accounted(s') && s'.lanes.Length() == s.lanes.Length() - 1
  {
    LeaveKeeps(s, Lowest(s.lanes));
  }

  lemma TakeKeeps<T>(s: State<T>)
    requires Fifo(s) && Accounted(s) && s.lanes.Length() > 0
    ensures var s' := TakeNext(s);
            && Fifo(s') && Accounted(s') && s'.lanes.Length() == s.lanes.Length() - 1
            && s'.active == s.active && s'.timer == s.timer
            && s'.processing == s.processing && s'.inFlight == s.inFlight
  {
    LeaveKeeps(s, Highest(s.lanes));
    hide Items, Highest;
  }

  /** Room for one more item, and nothing of the scheduler touched. */
  lemma MakeRoomKeeps<T>(c: Settings, s: State<T>)
    requires Fifo(s) && Accounted(s) && Bounded(c, s)
    ensures var s' := MakeRoom(c, s);
            && Fifo(s') && Accounted(s') && s'.lanes.Length() <= s.lanes.Length()
            && (c.maxSize > 0 ==> s'.lanes.Length() < c.maxSize)
            && s'.active == s.active && s'.timer == s.timer
            && s'.processing == s.processing && s'.inFlight == s.inFlight
  {
    if c.maxSize > 0 && s.lanes.Length() >= c.maxSize {
      DropKeeps(c, s);
    }
  }

  lemma PushKeeps<T>(c: Settings, s: State<T>, p: Priority, item: T)
    requires Fifo(s) && Accounted(s) && Bounded(c, s)
    ensures var s' := Push(c, s, p, item);
            && Fifo(s') && Accounted(s') && Bounded(c, s')
            && s'.lanes.Length() > 0
            && s'.active == s.active && s'.timer == s.timer
            && s'.processing == s.processing && s'.inFlight == s.inFlight
  {
    MakeRoomKeeps(c, s);
    AppendKeeps(MakeRoom(c, s), p, item);
    hide MakeRoom, Fifo, Accounted;
  }

  lemma AppendKeeps<T>(s: State<T>, p: Priority, item: T)
    requires Fifo(s)
    ensures var s' := s.(lanes := s.lanes.Append(p, item), added := s.added.Append(p, item));
            Fifo(s') && (Accounted(s) <==> Accounted(s')) && s'.lanes.Length() == s.lanes.Length() + 1
  {
    hide Items;
    assert s.left.Get(p) + (s.lanes.Get(p) + [item]) == (s.left.Get(p) + s.lanes.Get(p)) + [item];
  }

  lemma ProcessKeeps<T>(c: Settings, s: State<T>, env: Env)
    requires Fifo(s) && Accounted(s) && Bounded(c, s)
    requires s.active && s.timer.None? && !s.processing
    ensures Inv(c, Process(c, s, env))
  {
    hide TakeNext, Fifo, Accounted, Lanes.Length;
    if s.lanes.Length() > 0 && env.gateOpen {
      TakeKeeps(s);
      SameItems(TakeNext(s), Process(c, s, env));
    } else {
      SameItems(s, Process(c, s, env));
    }
  }

  lemma SameItems<T>(s: State<T>, s': State<T>)
    requires s'.lanes == s.lanes && s'.added == s.added && s'.left == s.left
    requires s'.processed == s.processed && s'.dropped == s.dropped && s'.cleared == s.cleared
    ensures (Fifo(s') <==> Fifo(s)) && (Accounted(s') <==> Accounted(s))
  {
    hide Items;
  }

  lemma ClearKeeps<T>(c: Settings, s: State<T>)
    requires Fifo(s) && Accounted(s)
    ensures Inv(c, Clear(s))
  {
    var s' := Clear(s);
    assert multiset(s.lanes.ServiceOrder()) == Items(s.lanes);
    assert multiset(s'.cleared) == multiset(s.cleared) + Items(s.lanes);
    assert Items(s'.left) == Items(s.left) + Items(s.lanes);
  }

  lemma AddKeeps<T>(c: Settings, s: State<T>, p: Priority, item: T, env: Env)
    requires Inv(c, s)
    ensures Inv(c, Add(c, s, p, item, env))
  {
    hide Push, Process;
    PushKeeps(c, s, p, item);
    if !s.active {
      ProcessKeeps(c, Push(c, s, p, item).(active := true), env);
    }
  }

  lemma StepKeeps<T>(c: Settings, s: State<T>, e: Event<T>)
    requires Inv(c, s) && Enabled(s, e)
    ensures Inv(c, Step(c, s, e))
  {
    match e
    case Added(name, item, env) =>
      hide Add, MakeRoom, ClassNamed, Fifo, Accounted;
      MakeRoomKeeps(c, s);
      if ClassNamed(name).Some? {
        AddKeeps(c, s, ClassNamed(name).value, item, env);
      }
    case Fired(env) =>
      hide Process;
      ProcessKeeps(c, s.(timer := None), env);
    case Settled(_) =>
    case Cleared =>
      ClearKeeps(c, s);
  }

  /** Conservation, FIFO order, the size bound and wakefulness hold in every reachable state. */
  lemma {:induction false} RunKeeps<T>(c: Settings, s: State<T>, es: seq<Event<T>>)
    requires Inv(c, s) && CanRun(c, s, es)
    ensures Inv(c, Run(c, s, es))
    decreases |es|
  {
    hide Step, Inv;
    if es != [] {
      StepKeeps(c, s, es[0]);
      RunKeeps(c, Step(c, s, es[0]), es[1..]);
    }
  }

  lemma InitialInv<T>(c: Settings)
    ensures Inv(c, Initial<T>()) && Noticed(c, Initial<T>()) && SingleFlight(Initial<T>())
  {
  }

  /** added = processed + dropped + cleared + queued, as multisets. */
  lemma NothingLostOrInvented<T>(c: Settings, es: seq<Event<T>>)
    requires CanRun(c, Initial(), es)
    ensures var s := Run(c, Initial(), es);
            Items(s.added) ==
            multiset(s.processed) + multiset(s.dropped) + multiset(s.cleared) + Items(s.lanes)
  {
    InitialInv<T>(c);
    RunKeeps(c, Initial(), es);
  }

  // Reports and refusals.

  /** The k-th report came with the first drop, then with every hundredth. */
  function ReportedAt(k: nat): nat {
    if k == 0 then 1 else 100 * k
  }

  predicate Noticed<T>(c: Settings, s: State<T>) {
    && |s.notices| == (if s.dropped == [] then 0 else 1 + |s.dropped| / 100)
    && (forall k :: 0 <= k < |s.notices| ==>
          s.notices[k].dropped == ReportedAt(k) && s.notices[k].maxSize == c.maxSize)
  }

  lemma StepNotices<T>(c: Settings, s: State<T>, e: Event<T>)
    requires Noticed(c, s) && Enabled(s, e)
    ensures Noticed(c, Step(c, s, e))
  {
    hide AddNamed, Process, MakeRoom;
    match e
    case Added(name, item, env) =>
      AddRecords(c, s, name, item, env);
      DropNotices(c, s);
    case Fired(env) =>
      ProcessRecords(c, s.(timer := None), env);
    case Settled(_) =>
    case Cleared =>
  }

  /** Processing adds and drops nothing. */
  lemma ProcessRecords<T>(c: Settings, s: State<T>, env: Env)
    ensures var s' := Process(c, s, env);
            s'.added == s.added && s'.dropped == s.dropped && s'.notices == s.notices
  {
    hide Highest, Lanes.Append, Lanes.With;
  }

  /** Adding drops what making room drops, and nothing else. */
  lemma AddRecords<T>(c: Settings, s: State<T>, name: Option<string>, item: T, env: Env)
    ensures var s', room, p := AddNamed(c, s, name, item, env), MakeRoom(c, s), ClassNamed(name);
            && s'.dropped == room.dropped && s'.notices == room.notices
            && s'.added == if p.Some? then room.added.Append(p.value, item) else room.added
  {
    hide MakeRoom, ClassNamed, Process;
    var p := ClassNamed(name);
    if p.Some? {
      ProcessRecords(c, Push(c, s, p.value, item).(active := true), env);
    }
    hide Lanes.Append;
  }

  lemma DropNotices<T>(c: Settings, s: State<T>)
    requires Noticed(c, s)
    ensures Noticed(c, MakeRoom(c, s))
  {
    hide Leave, Lowest;
  }

  /** One report for the first drop and one for each full hundred, over every run; never another. */
  lemma {:induction false} ReportsCountDrops<T>(c: Settings, s: State<T>, es: seq<Event<T>>)
    requires Noticed(c, s) && CanRun(c, s, es)
    ensures Noticed(c, Run(c, s, es))
    decreases |es|
  {
    hide Step, Noticed;
    if es != [] {
      StepNotices(c, s, es[0]);
      ReportsCountDrops(c, Step(c, s, es[0]), es[1..]);
    }
  }

  /**
   * A call queues its item exactly when its name, in lower case, is not an inherited one. A refused
   * call still costs a full queue the item it sacrifices first.
   */
  lemma QueuedIff<T>(c: Settings, s: State<T>, name: Option<string>, item: T, env: Env)
    requires Inv(c, s)
    ensures var s', refused := AddNamed(c, s, name, item, env), name.Some? && Lower(name.value) in INHERITED;
            && (Items(s'.added) == Items(s.added) + multiset{item} <==> !refused)
            && (refused ==>
                  && s'.added == s.added
                  && s'.dropped == s.dropped + if c.maxSize > 0 && s.lanes.Length() == c.maxSize
                                               then [s.lanes.SacrificeOrder()[0]] else [])
  {
    RoomCosts(c, s);
    AddRecords(c, s, name, item, env);
    hide AddNamed, MakeRoom, Items, Fifo, Accounted, Awake, Lanes.SacrificeOrder;
    if ClassNamed(name).Some? {
      AppendedItem(s.added, ClassNamed(name).value, item);
    } else {
      assert |Items(s.added)| != |Items(s.added) + multiset{item}|;
    }
  }

  lemma RoomCosts<T>(c: Settings, s: State<T>)
    requires Bounded(c, s)
    ensures MakeRoom(c, s).added == s.added
    ensures MakeRoom(c, s).dropped == s.dropped + if c.maxSize > 0 && s.lanes.Length() == c.maxSize
                                                  then [s.lanes.SacrificeOrder()[0]] else []
  {
    if c.maxSize > 0 && s.lanes.Length() == c.maxSize {
      DropsSacrificeOrder(c, s);
    }
    hide Lanes.SacrificeOrder, Lowest;
  }

  // The order of service and of sacrifice.

  lemma HeadOfService<T>(lanes: Lanes<T>)
    requires lanes.Length() > 0
    ensures var p := Highest(lanes);
            lanes.ServiceOrder() == [lanes.Get(p)[0]] + lanes.With(p, lanes.Get(p)[1..]).ServiceOrder()
  {
    var p := Highest(lanes);
    assert lanes.Get(p) == [lanes.Get(p)[0]] + lanes.Get(p)[1..];
    match p
    case Critical =>
    case Interactive => assert lanes.critical == [];
    case Normal => assert lanes.critical == [] && lanes.interactive == [];
    case Bulk => assert lanes.critical == [] && lanes.interactive == [] && lanes.normal == [];
  }

  /** Serving the highest class first, oldest item first, takes the service order from its head. */
  lemma TakesServiceOrder<T>(s: State<T>)
    requires s.lanes.Length() > 0
    ensures var s', order := TakeNext(s), s.lanes.ServiceOrder();
            s'.processed == s.processed + [order[0]] && s'.lanes.ServiceOrder() == order[1..]
  {
    HeadOfService(s.lanes);
    hide Lanes.ServiceOrder;
  }

  lemma HeadOfSacrifice<T>(lanes: Lanes<T>)
    requires lanes.Length() > 0
    ensures var p := Lowest(lanes);
            lanes.SacrificeOrder() == [lanes.Get(p)[0]] + lanes.With(p, lanes.Get(p)[1..]).SacrificeOrder()
  {
    var p := Lowest(lanes);
    assert lanes.Get(p) == [lanes.Get(p)[0]] + lanes.Get(p)[1..];
    match p
    case Bulk =>
    case Normal => assert lanes.bulk == [];
    case Interactive => assert lanes.bulk == [] && lanes.normal == [];
    case Critical => assert lanes.bulk == [] && lanes.normal == [] && lanes.interactive == [];
  }

  /** Overflow sacrifices from the lowest class, oldest item first, and touches nothing else. */
  lemma DropsSacrificeOrder<T>(c: Settings, s: State<T>)
    requires s.lanes.Length() > 0
    ensures var s', order := DropOne(c, s), s.lanes.SacrificeOrder();
            s'.dropped == s.dropped + [order[0]] && s'.lanes.SacrificeOrder() == order[1..]
  {
    HeadOfSacrifice(s.lanes);
    hide Lanes.SacrificeOrder;
  }

  /** An item jumps ahead only of less important ones: it joins the end of its own lane. */
  lemma AddedBehindItsClass<T>(lanes: Lanes<T>, p: Priority, item: T)
    ensures var before, order := AheadOf(lanes, p), lanes.ServiceOrder();
            lanes.Append(p, item).ServiceOrder() == order[..before] + [item] + order[before..]
  {
    var c, i, n, b := lanes.critical, lanes.interactive, lanes.normal, lanes.bulk;
    var (x, y) := match p
      case Critical => (c, i + n + b)
      case Interactive => (c + i, n + b)
      case Normal => (c + i + n, b)
      case Bulk => (c + i + n + b, []);
    assert lanes.ServiceOrder() == x + y && AheadOf(lanes, p) == |x|;
    assert lanes.Append(p, item).ServiceOrder() == x + [item] + y;
    InsertBehind(x, y);
    hide Lanes.ServiceOrder, Lanes.Append, AheadOf;
  }

  lemma InsertBehind<T>(before: seq<T>, behind: seq<T>)
    ensures (before + behind)[..|before|] == before && (before + behind)[|before|..] == behind
  {
  }

  /** How many queued items are served before a new item of class p. */
  function AheadOf<T>(lanes: Lanes<T>, p: Priority): (n: nat)
    ensures n <= |lanes.ServiceOrder()|
  {
    var critical, interactive, normal := |lanes.critical|, |lanes.interactive|, |lanes.normal|;
    match p
    case Critical => critical
    case Interactive => critical + interactive
    case Normal => critical + interactive + normal
    case Bulk => lanes.Length()
  }

  // Single flight.

  /** At most one item is being processed, and the flag knows it. */
  predicate SingleFlight<T>(s: State<T>) {
    s.inFlight == (if s.processing then 1 else 0)
  }

  /** Single flight survives every step but a clear() while an item is in flight. */
  lemma SingleFlightIff<T>(c: Settings, s: State<T>, e: Event<T>)
    requires Inv(c, s) && SingleFlight(s) && Enabled(s, e)
    ensures SingleFlight(Step(c, s, e)) <==> !(e.Cleared? && s.inFlight > 0)
  {
    hide Push, MakeRoom, ClassNamed, Fifo, Accounted, Bounded, Highest;
    if e.Added? {
      MakeRoomKeeps(c, s);
      var p := ClassNamed(e.name);
      if p.Some? {
        PushKeeps(c, s, p.value, e.item);
      }
    }
  }

  predicate NeverClearsMidItem<T>(c: Settings, s: State<T>, es: seq<Event<T>>)
    requires CanRun(c, s, es)
    decreases |es|
  {
    es == [] || (!(es[0].Cleared? && s.inFlight > 0) && NeverClearsMidItem(c, Step(c, s, es[0]), es[1..]))
  }

  /** So items are processed one at a time over every run that never clears mid-item. */
  lemma {:induction false} RunsOneAtATime<T>(c: Settings, s: State<T>, es: seq<Event<T>>)
    requires Inv(c, s) && SingleFlight(s) && CanRun(c, s, es) && NeverClearsMidItem(c, s, es)
    ensures Run(c, s, es).inFlight <= 1
    decreases |es|
  {
    if es != [] {
      hide Step, Inv;
      SingleFlightIff(c, s, es[0]);
      StepKeeps(c, s, es[0]);
      RunsOneAtATime(c, Step(c, s, es[0]), es[1..]);
    }
  }

  /** After such a clear, the next item that defers is processed beside the one still in flight. */
  lemma ClearMidItemOverlaps<T>(c: Settings, s: State<T>, p: Priority, item: T, interval: Option<int>)
    requires s.inFlight > 0
    ensures var s' := Add(c, Clear(s), p, item, Env(true, Defers, interval));
            s'.inFlight == s.inFlight + 1 && s'.processing
  {
    assert Push(c, Clear(s), p, item).lanes.Length() > 0;
  }

  // Draining.

  /** One processing step: the timer fires and, if the item deferred, its promise settles. */
  function Tick<T>(c: Settings, s: State<T>, env: Env): State<T>
    requires s.timer.Some?
  {
    var s1 := TimerFires(c, s, env);
    if s1.processing && s1.inFlight > 0 then PromiseSettles(c, s1, env.interval) else s1
  }

  /** Nothing is in flight and the timer is armed. */
  predicate Ready<T>(s: State<T>) {
    s.active && s.timer.Some? && !s.processing && s.inFlight == 0
  }

  lemma TickServesOne<T>(c: Settings, s: State<T>, env: Env)
    requires Ready(s) && s.lanes.Length() > 0 && env.gateOpen
    ensures var s', order := Tick(c, s, env), s.lanes.ServiceOrder();
            && Ready(s')
            && s'.processed == s.processed + [order[0]]
            && s'.lanes.ServiceOrder() == order[1..]
  {
    TakesServiceOrder(s.(timer := None));
  }

  predicate GateOpen(envs: seq<Env>) {
    forall i :: 0 <= i < |envs| ==> envs[i].gateOpen
  }

  function Ticks<T>(c: Settings, s: State<T>, envs: seq<Env>): State<T>
    requires Ready(s) && GateOpen(envs) && |envs| <= s.lanes.Length()
    decreases |envs|
  {
    if envs == [] then s
    else
      TickServesOne(c, s, envs[0]);
      assert s.lanes.Length() == |s.lanes.ServiceOrder()|;
      Ticks(c, Tick(c, s, envs[0]), envs[1..])
  }

  /**
   * With no new adds and an open gate, k processing steps serve exactly the first k items in service
   * order, whether the items return, throw or defer; so a queue of n items is empty after n steps
   * and not before.
   */
  lemma {:induction false} DrainsInOrder<T>(c: Settings, s: State<T>, envs: seq<Env>)
    requires Ready(s) && GateOpen(envs) && |envs| <= s.lanes.Length()
    ensures var s', order := Ticks(c, s, envs), s.lanes.ServiceOrder();
            && s'.processed == s.processed + order[..|envs|]
            && s'.lanes.ServiceOrder() == order[|envs|..]
            && (s'.lanes.Length() == 0 <==> |envs| == s.lanes.Length())
    decreases |envs|
  {
    hide Tick;
    var order := s.lanes.ServiceOrder();
    assert s.lanes.Length() == |order|;
    hide Lanes.ServiceOrder;
    if envs == [] {
      assert order[..0] == [] && order[0..] == order;
    } else {
      TickServesOne(c, s, envs[0]);
      DrainsInOrder(c, Tick(c, s, envs[0]), envs[1..]);
      assert order[..|envs|] == [order[0]] + order[1..][..|envs| - 1];
    }
  }
}
