/**
 * The TREEXML request protocol of src/haDiscoveryTreeSession.js as a state machine over values.
 *
 * Every event the bridge can deliver (a request, a C-Gate response line, a timer that fires, an XML
 * parse that calls back) is one step. A timer is recorded by the network it is armed for;
 * tree_session.dfy holds the methods that keep the timer handles and delays and refine these steps.
 */
module TreeProtocol {
  import opened Options
  import TreeData

  /** A network address, or the literal the source attributes unexplained responses to. */
  datatype NetworkId = Unknown | Network(number: nat)

  datatype Config = Config(
    discoveryEnabled: bool,
    scope: seq<NetworkId>,
    maxRetries: nat,
    retryInitialMs: nat,
    retryMaxMs: nat,
    maxResyncs: nat,
    resyncInitialMs: nat,
    resyncMaxMs: nat,
    requestTimeoutMs: nat,
    streamStallMs: nat)

  datatype Status = Discovering | Resolved | Paused

  datatype Session = Session(network: NetworkId, parts: seq<string>)

  datatype Resync = Resync(attempts: nat, signature: Option<string>)

  /** A parse whose callback has not run yet, with the epoch it was started under and the text it parses. */
  datatype ParseJob = ParseJob(network: NetworkId, epoch: nat, xml: string)

  /** What the callback finds: an XML error, a tree without device data, or a usable tree. */
  datatype Outcome =
    | ParseFailed
    | NoDeviceData
    | DeviceData(unsynced: bool, signature: string)

  datatype State = State(
    pending: seq<NetworkId>,
    active: Option<Session>,
    attempts: map<NetworkId, nat>,
    watchdogs: set<NetworkId>,
    retries: set<NetworkId>,
    resyncs: map<NetworkId, Resync>,
    resyncTimers: set<NetworkId>,
    deadline: Option<NetworkId>,
    epochs: map<NetworkId, nat>,
    parsing: set<NetworkId>,
    jobs: seq<ParseJob>,
    statuses: map<NetworkId, Status>,
    accepted: seq<NetworkId>,
    sent: seq<NetworkId>)

  const INITIAL := State([], None, map[], {}, {}, map[], {}, None, map[], {}, [], map[], [], [])

  function AttemptsOf(s: State, n: NetworkId): nat {
    if n in s.attempts then s.attempts[n] else 0
  }

  function EpochOf(s: State, n: NetworkId): nat {
    if n in s.epochs then s.epochs[n] else 0
  }

  /** `splice` at `indexOf`: drops the first occurrence only. */
  function RemoveFirst(ns: seq<NetworkId>, n: NetworkId): seq<NetworkId> {
    if ns == [] then []
    else if ns[0] == n then ns[1..]
    else [ns[0]] + RemoveFirst(ns[1..], n)
  }

  predicate Streaming(s: State, n: NetworkId) {
    s.active.Some? && s.active.value.network == n
  }

  /** The guard that keeps a second TREEXML for the same network from being sent. */
  predicate InFlight(s: State, n: NetworkId) {
    n in s.pending || Streaming(s, n) || n in s.parsing
  }

  /** Discovery status is only tracked, and only published, while discovery is switched on. */
  function WithStatus(c: Config, s: State, n: NetworkId, status: Status): map<NetworkId, Status> {
    if c.discoveryEnabled then s.statuses[n := status] else s.statuses
  }

  /**
   * queueTreeRequest: cancels a pending retry, keeps the attempt count, and sends TREEXML unless one
   * is already in flight for this network.
   */
  function QueueRequest(c: Config, s: State, n: NetworkId): State {
    var send := !InFlight(s, n);
    s.(
    attempts := s.attempts[n := AttemptsOf(s, n)],
    retries := s.retries - {n},
    statuses := WithStatus(c, s, n, Discovering),
    pending := if send then s.pending + [n] else s.pending,
    epochs := if send then s.epochs[n := EpochOf(s, n) + 1] else s.epochs,
    watchdogs := if send then s.watchdogs + {n} else s.watchdogs,
    sent := if send then s.sent + [n] else s.sent)
  }

  /** The stream deadline is cancelled only when the open session belongs to this network. */
  function ClearTreeState(s: State, n: NetworkId): State {
    s.(
    watchdogs := s.watchdogs - {n},
    retries := s.retries - {n},
    deadline := if Streaming(s, n) then None else s.deadline,
    attempts := s.attempts - {n})
  }

  function Pause(c: Config, s: State, n: NetworkId): State {
    ClearTreeState(s, n).(
    pending := RemoveFirst(s.pending, n),
    statuses := WithStatus(c, s, n, Paused))
  }

  function ScheduleRetry(s: State, n: NetworkId): State {
    s.(
    pending := RemoveFirst(s.pending, n),
    attempts := s.attempts[n := AttemptsOf(s, n) + 1],
    retries := s.retries + {n})
  }

  /** One failed fetch: retry after a backoff, or pause the network once its retries are spent. */
  function Fail(c: Config, s: State, n: NetworkId): State {
    if AttemptsOf(s, n) + 1 > c.maxRetries then Pause(c, s, n) else ScheduleRetry(s, n)
  }

  function ClearResync(s: State, n: NetworkId): State {
    s.(resyncTimers := s.resyncTimers - {n}, resyncs := s.resyncs - {n})
  }

  function ResyncAttempts(s: State, n: NetworkId): nat {
    if n in s.resyncs then s.resyncs[n].attempts else 0
  }

  function ScheduleResync(c: Config, s: State, n: NetworkId, signature: string): State {
    var r := ResyncAttempts(s, n) + 1;
    if r > c.maxResyncs then ClearResync(s, n)
    else s.(
         resyncs := s.resyncs[n := Resync(r, Some(signature))],
         resyncTimers := s.resyncTimers + {n})
  }

  /** Whether a 401 is about a TREEXML: it says "Network not found" and names no object path. */
  predicate IsTreeError(code: string, saysNotFound: bool, namesPath: bool) {
    code == "401" && saysNotFound && !namesPath
  }

  function CommandFailed(c: Config, s: State): State {
    if s.pending == [] then s
    else
      var n := s.pending[0];
      Fail(c, s.(pending := s.pending[1..], watchdogs := s.watchdogs - {n}), n)
  }

  function StreamNetwork(s: State): NetworkId {
    if s.pending != [] then s.pending[0]
    else if s.active.Some? then s.active.value.network
    else Unknown
  }

  /** 343: the head of the queue starts streaming, whatever session was open before. */
  function StartStream(s: State): State {
    var n := StreamNetwork(s);
    s.(
    pending := if s.pending == [] then [] else s.pending[1..],
    watchdogs := s.watchdogs - {n},
    retries := s.retries - {n},
    resyncTimers := s.resyncTimers - {n},
    active := Some(Session(n, [])),
    deadline := Some(n))
  }

  /** 347: data outside a session opens one first. */
  function StreamData(s: State, data: string): (r: State)
    ensures r.active.Some?
  {
    var s1 := if s.active.None? then StartStream(s) else s;
    var session := s1.active.value;
    s1.(active := Some(session.(parts := session.parts + [data])), deadline := Some(session.network))
  }

  /** The buffered lines as one text, each ended by a newline. */
  function Document(parts: seq<string>): string {
    TreeData.Join(parts, '\n') + if parts != [] then "\n" else []
  }

  /** 344: an empty stream, or one nobody asked for, is dropped without a retry. */
  function EndStream(c: Config, s: State, parserThrows: bool): State {
    var s1 := s.(deadline := None);
    if s1.active.None? then s1
    else
      var session := s1.active.value;
      var s2 := s1.(active := None);
      if session.parts == [] || session.network == Unknown then s2
      else if parserThrows then Fail(c, s2.(parsing := s2.parsing - {session.network}), session.network)
      else s2.(
           parsing := s2.parsing + {session.network},
           jobs := s2.jobs + [ParseJob(session.network, EpochOf(s2, session.network), Document(session.parts))])
  }

  function Accept(c: Config, s: State, n: NetworkId, unsynced: bool, signature: string): State {
    var s1 := ClearTreeState(s, n).(accepted := s.accepted + [n], statuses := WithStatus(c, s, n, Resolved));
    if !unsynced || (n in s.resyncs && s.resyncs[n].signature == Some(signature)) then ClearResync(s1, n)
    else ScheduleResync(c, s1, n, signature)
  }

  function Parsed(c: Config, s: State, i: nat, outcome: Outcome): State
    requires i < |s.jobs|
  {
    var job := s.jobs[i];
    var s1 := s.(jobs := s.jobs[..i] + s.jobs[i + 1..]);
    var s2 :=
      if EpochOf(s1, job.network) != job.epoch then s1
      else match outcome
           case ParseFailed => Fail(c, s1, job.network)
           case NoDeviceData => Fail(c, s1, job.network)
           case DeviceData(unsynced, signature) => Accept(c, s1, job.network, unsynced, signature);
    s2.(parsing := s2.parsing - {job.network})
  }

  function Stall(c: Config, s: State): State
    requires s.deadline.Some?
  {
    var n := if s.active.Some? then s.active.value.network else s.deadline.value;
    Fail(c, s.(deadline := None, active := None), n)
  }

  predicate InScope(c: Config, n: NetworkId) {
    c.discoveryEnabled && (c.scope == [] || n in c.scope)
  }

  function Remove(c: Config, s: State, n: NetworkId): State {
    if !c.discoveryEnabled then s
    else
      var s1 := ClearResync(ClearTreeState(s, n), n);
      s1.(
      epochs := s1.epochs - {n},
      parsing := s1.parsing - {n},
      pending := RemoveFirst(s1.pending, n),
      statuses := s1.statuses - {n})
  }

  function StopAll(s: State): State {
    s.(
    watchdogs := s.watchdogs - s.attempts.Keys,
    retries := s.retries - s.attempts.Keys,
    attempts := map[],
    resyncTimers := s.resyncTimers - s.resyncs.Keys,
    resyncs := map[],
    deadline := None,
    statuses := map[])
  }

  datatype Event =
    | Request(network: NetworkId)
    | NetworkCreated(network: NetworkId)
    | SyncComplete(network: NetworkId)
    | CommandError(code: string, saysNotFound: bool, namesPath: bool)
    | WatchdogFires(network: NetworkId)
    | RetryFires(network: NetworkId)
    | ResyncFires(network: NetworkId)
    | StreamStalls
    | TreeStart
    | TreeData(data: string)
    | TreeEnd(parserThrows: bool)
    | ParseReturns(job: nat, outcome: Outcome)
    | NetworkRemoved(network: NetworkId)
    | Stop

  /** A timer can only fire while it is armed, and a callback can only run while it is outstanding. */
  predicate Enabled(s: State, e: Event) {
    match e
    case WatchdogFires(n) => n in s.watchdogs
    case RetryFires(n) => n in s.retries
    case ResyncFires(n) => n in s.resyncTimers
    case StreamStalls => s.deadline.Some?
    case ParseReturns(i, _) => i < |s.jobs|
    case _ => true
  }

  function Step(c: Config, s: State, e: Event): State
    requires Enabled(s, e)
  {
    match e
    case Request(n) => QueueRequest(c, s, n)
    case NetworkCreated(n) => if InScope(c, n) then QueueRequest(c, s, n) else s
    case SyncComplete(n) => if InScope(c, n) then QueueRequest(c, ClearResync(s, n), n) else s
    case CommandError(code, notFound, path) => if IsTreeError(code, notFound, path) then CommandFailed(c, s) else s
    case WatchdogFires(n) => Fail(c, s.(watchdogs := s.watchdogs - {n}), n)
    case RetryFires(n) => QueueRequest(c, s.(retries := s.retries - {n}), n)
    case ResyncFires(n) => QueueRequest(c, s.(resyncTimers := s.resyncTimers - {n}), n)
    case StreamStalls => Stall(c, s)
    case TreeStart => StartStream(s)
    case TreeData(data) => StreamData(s, data)
    case TreeEnd(parserThrows) => EndStream(c, s, parserThrows)
    case ParseReturns(i, outcome) => Parsed(c, s, i, outcome)
    case NetworkRemoved(n) => Remove(c, s, n)
    case Stop => StopAll(s)
  }

  predicate CanRun(c: Config, s: State, es: seq<Event>)
    decreases |es|
  {
    es == [] || (Enabled(s, es[0]) && CanRun(c, Step(c, s, es[0]), es[1..]))
  }

  function Run(c: Config, s: State, es: seq<Event>): State
    requires CanRun(c, s, es)
    decreases |es|
  {
    if es == [] then s else Run(c, Step(c, s, es[0]), es[1..])
  }

  lemma Then(c: Config, s: State, e: Event, es: seq<Event>)
    requires Enabled(s, e) && CanRun(c, Step(c, s, e), es)
    ensures CanRun(c, s, [e] + es) && Run(c, s, [e] + es) == Run(c, Step(c, s, e), es)
  {
    assert ([e] + es)[1..] == es;
  }

  lemma {:induction false} RunAppend(c: Config, s: State, a: seq<Event>, b: seq<Event>)
    requires CanRun(c, s, a) && CanRun(c, Run(c, s, a), b)
    ensures CanRun(c, s, a + b)
    ensures Run(c, s, a + b) == Run(c, Run(c, s, a), b)
    decreases |a|
  {
    if a == [] {
      assert a + b == b;
    } else {
      assert (a + b)[0] == a[0] && (a + b)[1..] == a[1..] + b;
      RunAppend(c, Step(c, s, a[0]), a[1..], b);
    }
  }
}
