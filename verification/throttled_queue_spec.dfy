/**
 * What src/throttledQueue.js promises: four FIFO lanes served in priority order, a drop policy that
 * sacrifices the least important lane first, and a scheduler that never loses a wakeup.
 */
module QueueSpec {
  import opened Options

  datatype Priority = Critical | Interactive | Normal | Bulk

  /** `toLowerCase` where it can matter: A to Z, and the Kelvin sign, which becomes a plain k. */
  function LowerChar(ch: char): char {
    if 'A' <= ch <= 'Z' then (ch as int + 32) as char else if ch == '\U{212A}' then 'k' else ch
  }

  function Lower(s: string): (r: string)
    ensures |r| == |s| && forall i :: 0 <= i < |s| ==> r[i] == LowerChar(s[i])
  {
    seq(|s|, i requires 0 <= i < |s| => LowerChar(s[i]))
  }

  /** Lower-case names that look something up on every object, though no lane. */
  const INHERITED := {"constructor", "__proto__"}

  /** The class a caller's option names: normal when it names none, and no class for an inherited name. */
  function ClassNamed(name: Option<string>): Option<Priority> {
    if name.None? then Some(Normal)
    else
      var lower := Lower(name.value);
      if lower == "critical" then Some(Critical)
      else if lower == "interactive" then Some(Interactive)
      else if lower == "bulk" then Some(Bulk)
      else if lower in INHERITED then None
      else Some(Normal)
  }

  /** What the drop callback is told. */
  datatype Notice = Notice(dropped: nat, priority: Priority, maxSize: int)

  /** The first drop and every hundredth are reported. */
  function Reported(n: nat, p: Priority, maxSize: int): seq<Notice> {
    if n == 1 || n % 100 == 0 then [Notice(n, p, maxSize)] else []
  }

  /** One plain sequence per priority, oldest item first. */
  datatype Lanes<T> = Lanes(critical: seq<T>, interactive: seq<T>, normal: seq<T>, bulk: seq<T>)
  {
    function Get(p: Priority): seq<T> {
      match p
      case Critical => critical
      case Interactive => interactive
      case Normal => normal
      case Bulk => bulk
    }

    function With(p: Priority, items: seq<T>): Lanes<T> {
      match p
      case Critical => this.(critical := items)
      case Interactive => this.(interactive := items)
      case Normal => this.(normal := items)
      case Bulk => this.(bulk := items)
    }

    function Append(p: Priority, item: T): Lanes<T> {
      With(p, Get(p) + [item])
    }

    function Length(): nat {
      |critical| + |interactive| + |normal| + |bulk|
    }

    /** Every queued item, in the order it will be processed. */
    function ServiceOrder(): seq<T> {
      critical + interactive + normal + bulk
    }

    /** Every queued item, in the order an overflow would sacrifice it. */
    function SacrificeOrder(): seq<T> {
      bulk + normal + interactive + critical
    }
  }

  function EmptyLanes<T>(): Lanes<T> {
    Lanes([], [], [], [])
  }

  /** The highest non-empty class. */
  function Highest<T>(lanes: Lanes<T>): Priority
    requires lanes.Length() > 0
  {
    if lanes.critical != [] then Critical
    else if lanes.interactive != [] then Interactive
    else if lanes.normal != [] then Normal
    else Bulk
  }

  /** The lowest non-empty class. */
  function Lowest<T>(lanes: Lanes<T>): Priority
    requires lanes.Length() > 0
  {
    if lanes.bulk != [] then Bulk
    else if lanes.normal != [] then Normal
    else if lanes.interactive != [] then Interactive
    else Critical
  }

  /** maxSize <= 0 means unlimited. */
  datatype Settings = Settings(intervalMs: nat, maxSize: int, retryWhenBlockedMs: nat)

  datatype Outcome = Returns | Throws | Defers

  /** What the callbacks answer during one call: the gate, the item's processing, the dynamic interval. */
  datatype Env = Env(gateOpen: bool, outcome: Outcome, interval: Option<int>)

  function CurrentInterval(c: Settings, interval: Option<int>): nat {
    if interval.Some? && interval.value > 0 then interval.value else c.intervalMs
  }

  /**
   * The queue and its scheduler. `timer` holds the delay of the armed timer, `inFlight` counts the
   * promises that have not settled, and the last fields record what became of every item and what
   * was reported.
   */
  datatype State<T> = State(
    lanes: Lanes<T>,
    active: bool,
    processing: bool,
    timer: Option<nat>,
    inFlight: nat,
    added: Lanes<T>,
    left: Lanes<T>,
    processed: seq<T>,
    dropped: seq<T>,
    cleared: seq<T>,
    notices: seq<Notice>)

  function Initial<T>(): State<T> {
    State(EmptyLanes(), false, false, None, 0, EmptyLanes(), EmptyLanes(), [], [], [], [])
  }

  /** The oldest item of one lane leaves it. */
  function Leave<T>(s: State<T>, p: Priority): State<T>
    requires s.lanes.Get(p) != []
  {
    var items := s.lanes.Get(p);
    s.(lanes := s.lanes.With(p, items[1..]), left := s.left.Append(p, items[0]))
  }

  function DropOne<T>(c: Settings, s: State<T>): State<T>
    requires s.lanes.Length() > 0
  {
    var p := Lowest(s.lanes);
    Leave(s, p).(dropped := s.dropped + [s.lanes.Get(p)[0]],
                 notices := s.notices + Reported(|s.dropped| + 1, p, c.maxSize))
  }

  function TakeNext<T>(s: State<T>): State<T>
    requires s.lanes.Length() > 0
  {
    var p := Highest(s.lanes);
    Leave(s, p).(processed := s.processed + [s.lanes.Get(p)[0]])
  }

  /** A timer already armed is kept. */
  function ScheduleNext<T>(s: State<T>, delayMs: nat): State<T> {
    if s.timer.Some? then s else s.(timer := Some(delayMs))
  }

  function Finish<T>(c: Settings, s: State<T>, interval: Option<int>): State<T> {
    var s1 := s.(processing := false);
    if !s1.active then s1.(timer := None) else ScheduleNext(s1, CurrentInterval(c, interval))
  }

  function Process<T>(c: Settings, s: State<T>, env: Env): State<T> {
    if s.processing then s
    else if s.lanes.Length() == 0 then s.(active := false, timer := None)
    else if !env.gateOpen then ScheduleNext(s, c.retryWhenBlockedMs)
    else if env.outcome == Defers then TakeNext(s).(processing := true, inFlight := s.inFlight + 1)
    else Finish(c, TakeNext(s).(processing := true), env.interval)
  }

  /** A full queue gives up one item. */
  function MakeRoom<T>(c: Settings, s: State<T>): State<T> {
    if c.maxSize > 0 && s.lanes.Length() >= c.maxSize then DropOne(c, s) else s
  }

  function Push<T>(c: Settings, s: State<T>, p: Priority, item: T): State<T> {
    var s1 := MakeRoom(c, s);
    s1.(lanes := s1.lanes.Append(p, item), added := s1.added.Append(p, item))
  }

  function Add<T>(c: Settings, s: State<T>, p: Priority, item: T, env: Env): State<T> {
    var s1 := Push(c, s, p, item);
    if !s1.active then Process(c, s1.(active := true), env)
    else if s1.timer.None? && !s1.processing then ScheduleNext(s1, CurrentInterval(c, env.interval))
    else s1
  }

  /** A call whose name is an inherited one throws, after it has made room for an item it never queues. */
  function AddNamed<T>(c: Settings, s: State<T>, name: Option<string>, item: T, env: Env): State<T> {
    match ClassNamed(name)
    case Some(p) => Add(c, s, p, item, env)
    case None => MakeRoom(c, s)
  }

  function TimerFires<T>(c: Settings, s: State<T>, env: Env): State<T>
    requires s.timer.Some?
  {
    Process(c, s.(timer := None), env)
  }

  function PromiseSettles<T>(c: Settings, s: State<T>, interval: Option<int>): State<T>
    requires s.inFlight > 0
  {
    Finish(c, s.(inFlight := s.inFlight - 1), interval)
  }

  function Clear<T>(s: State<T>): State<T> {
    State(EmptyLanes(), false, false, None, s.inFlight, s.added,
          Lanes(s.left.critical + s.lanes.critical, s.left.interactive + s.lanes.interactive,
                s.left.normal + s.lanes.normal, s.left.bulk + s.lanes.bulk),
          s.processed, s.dropped, s.cleared + s.lanes.ServiceOrder(), s.notices)
  }

  datatype Event<T> =
    | Added(name: Option<string>, item: T, env: Env)
    | Fired(env: Env)
    | Settled(interval: Option<int>)
    | Cleared

  predicate Enabled<T>(s: State<T>, e: Event<T>) {
    match e
    case Fired(_) => s.timer.Some?
    case Settled(_) => s.inFlight > 0
    case _ => true
  }

  function Step<T>(c: Settings, s: State<T>, e: Event<T>): State<T>
    requires Enabled(s, e)
  {
    match e
    case Added(name, item, env) => AddNamed(c, s, name, item, env)
    case Fired(env) => TimerFires(c, s, env)
    case Settled(interval) => PromiseSettles(c, s, interval)
    case Cleared => Clear(s)
  }

  predicate CanRun<T>(c: Settings, s: State<T>, es: seq<Event<T>>)
    decreases |es|
  {
    es == [] || (Enabled(s, es[0]) && CanRun(c, Step(c, s, es[0]), es[1..]))
  }

  function Run<T>(c: Settings, s: State<T>, es: seq<Event<T>>): State<T>
    requires CanRun(c, s, es)
    decreases |es|
  {
    if es == [] then s else Run(c, Step(c, s, es[0]), es[1..])
  }
}
