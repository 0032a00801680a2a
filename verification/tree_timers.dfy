/**
 * The timer handles of the TREEXML session: which record holds which live timer of the event loop.
 */
module TreeTimers {
  import opened Options
  import opened Backoff
  import opened TreeProtocol

  type Handle = nat

  /** What a timer does when it fires; the network is the one its closure captured. */
  datatype Callback =
    | Watchdog(network: NetworkId)
    | Retry(network: NetworkId)
    | Refetch(network: NetworkId)
    | StreamStall(fallback: NetworkId)

  datatype Timer = Timer(callback: Callback, delayMs: nat)

  datatype RequestState = RequestState(attempts: nat, watchdogHandle: Option<Handle>, retryHandle: Option<Handle>)

  datatype ResyncState = ResyncState(attempts: nat, handle: Option<Handle>, signature: Option<string>)

  /** The records that hold handles, and the event loop's live timers. */
  datatype Book = Book(
    requests: map<NetworkId, RequestState>,
    resyncs: map<NetworkId, ResyncState>,
    deadline: Option<Handle>,
    timers: map<Handle, Timer>,
    nextHandle: Handle)

  function WatchdogOf(b: Book, n: NetworkId): Option<Handle> {
    if n in b.requests then b.requests[n].watchdogHandle else None
  }

  function RetryOf(b: Book, n: NetworkId): Option<Handle> {
    if n in b.requests then b.requests[n].retryHandle else None
  }

  function RefetchOf(b: Book, n: NetworkId): Option<Handle> {
    if n in b.resyncs then b.resyncs[n].handle else None
  }

  function HolderOf(b: Book, callback: Callback): Option<Handle> {
    match callback
    case Watchdog(n) => WatchdogOf(b, n)
    case Retry(n) => RetryOf(b, n)
    case Refetch(n) => RefetchOf(b, n)
    case StreamStall(_) => b.deadline
  }

  /** The delay the settings prescribe for a timer armed now. */
  function DelayOf(c: Config, b: Book, callback: Callback): nat {
    match callback
    case Watchdog(_) => c.requestTimeoutMs
    case Retry(n) =>
      BackoffDelay(if n in b.requests then b.requests[n].attempts - 1 else 0, c.retryInitialMs, c.retryMaxMs)
    case Refetch(n) =>
      BackoffDelay(if n in b.resyncs then b.resyncs[n].attempts - 1 else 0, c.resyncInitialMs, c.resyncMaxMs)
    case StreamStall(_) => c.streamStallMs
  }

  /** A live timer is held by the one record that can cancel it, and was armed with the right delay. */
  predicate Held(c: Config, b: Book, h: Handle)
    requires h in b.timers
  {
    && h < b.nextHandle
    && HolderOf(b, b.timers[h].callback) == Some(h)
    && b.timers[h].delayMs == DelayOf(c, b, b.timers[h].callback)
  }

  /** A handle a record holds is the handle of a live timer of that kind. */
  predicate Live(b: Book, n: NetworkId) {
    && (WatchdogOf(b, n).Some? ==>
          WatchdogOf(b, n).value in b.timers && b.timers[WatchdogOf(b, n).value].callback == Watchdog(n))
    && (RetryOf(b, n).Some? ==>
          RetryOf(b, n).value in b.timers && b.timers[RetryOf(b, n).value].callback == Retry(n))
    && (RefetchOf(b, n).Some? ==>
          RefetchOf(b, n).value in b.timers && b.timers[RefetchOf(b, n).value].callback == Refetch(n))
  }

  ghost predicate Sound(c: Config, b: Book) {
    && (forall h :: h in b.timers ==> Held(c, b, h))
    && (forall n :: Live(b, n))
    && (b.deadline.Some? ==> b.deadline.value in b.timers && b.timers[b.deadline.value].callback.StreamStall?)
  }

  // What the book says to the protocol.

  function Attempts(requests: map<NetworkId, RequestState>): map<NetworkId, nat> {
    map n | n in requests :: requests[n].attempts
  }

  function Watchdogs(requests: map<NetworkId, RequestState>): set<NetworkId> {
    set n | n in requests && requests[n].watchdogHandle.Some?
  }

  function Retries(requests: map<NetworkId, RequestState>): set<NetworkId> {
    set n | n in requests && requests[n].retryHandle.Some?
  }

  function Resyncs(resyncs: map<NetworkId, ResyncState>): map<NetworkId, Resync> {
    map n | n in resyncs :: Resync(resyncs[n].attempts, resyncs[n].signature)
  }

  function Refetches(resyncs: map<NetworkId, ResyncState>): set<NetworkId> {
    set n | n in resyncs && resyncs[n].handle.Some?
  }

  /** `s` with or without `n`, as a record's handle field says. */
  function Toggle(s: set<NetworkId>, n: NetworkId, armed: bool): set<NetworkId> {
    if armed then s + {n} else s - {n}
  }

  lemma RequestUpdated(m: map<NetworkId, RequestState>, n: NetworkId, r: RequestState)
    ensures Attempts(m[n := r]) == Attempts(m)[n := r.attempts]
    ensures Watchdogs(m[n := r]) == Toggle(Watchdogs(m), n, r.watchdogHandle.Some?)
    ensures Retries(m[n := r]) == Toggle(Retries(m), n, r.retryHandle.Some?)
  {
  }

  lemma ResyncUpdated(m: map<NetworkId, ResyncState>, n: NetworkId, r: ResyncState)
    ensures Resyncs(m[n := r]) == Resyncs(m)[n := Resync(r.attempts, r.signature)]
    ensures Refetches(m[n := r]) == Toggle(Refetches(m), n, r.handle.Some?)
  {
  }

  function Deadline(b: Book): Option<NetworkId>
    requires b.deadline.Some? ==> b.deadline.value in b.timers && b.timers[b.deadline.value].callback.StreamStall?
  {
    if b.deadline.None? then None else Some(b.timers[b.deadline.value].callback.fallback)
  }

  /** The protocol fields the book stands for, the rest being taken from s. */
  ghost function Meaning(c: Config, b: Book, s: State): State
    requires Sound(c, b)
  {
    s.(
    attempts := Attempts(b.requests), watchdogs := Watchdogs(b.requests), retries := Retries(b.requests),
    resyncs := Resyncs(b.resyncs), resyncTimers := Refetches(b.resyncs), deadline := Deadline(b))
  }

  lemma TogglesAgree(b: Book, n: NetworkId)
    ensures n in Watchdogs(b.requests) <==> WatchdogOf(b, n).Some?
    ensures n in Retries(b.requests) <==> RetryOf(b, n).Some?
    ensures n in Refetches(b.resyncs) <==> RefetchOf(b, n).Some?
    ensures n in Attempts(b.requests) <==> n in b.requests
    ensures n in Resyncs(b.resyncs) <==> n in b.resyncs
    ensures n in b.requests ==> Attempts(b.requests)[n] == b.requests[n].attempts
    ensures n in b.resyncs ==> Resyncs(b.resyncs)[n] == Resync(b.resyncs[n].attempts, b.resyncs[n].signature)
  {
  }

  // clearTimeout on the handle a record holds.

  function Cancel(timers: map<Handle, Timer>, h: Option<Handle>): map<Handle, Timer> {
    if h.Some? then timers - {h.value} else timers
  }

  function WithoutWatchdog(b: Book, n: NetworkId): Book {
    if n !in b.requests then b
    else b.(timers := Cancel(b.timers, b.requests[n].watchdogHandle),
            requests := b.requests[n := b.requests[n].(watchdogHandle := None)])
  }

  lemma WithoutWatchdogHeld(c: Config, b: Book, n: NetworkId, h: Handle)
    requires h in b.timers && Held(c, b, h) && h in WithoutWatchdog(b, n).timers
    ensures Held(c, WithoutWatchdog(b, n), h)
  {
    hide BackoffDelay;
  }

  lemma WithoutWatchdogLive(b: Book, n: NetworkId, m: NetworkId)
    requires Live(b, m) && Live(b, n)
    ensures Live(WithoutWatchdog(b, n), m)
  {
  }

  lemma WithoutWatchdogSound(c: Config, b: Book, n: NetworkId)
    requires Sound(c, b)
    ensures Sound(c, WithoutWatchdog(b, n))
  {
    var b' := WithoutWatchdog(b, n);
    assert Live(b, n);
    assert b'.deadline.Some? ==> b'.deadline.value in b'.timers && b'.timers[b'.deadline.value].callback.StreamStall?;
    hide Held, Live;
    forall h | h in b'.timers ensures Held(c, b', h) {
      assert h in b.timers && Held(c, b, h);
      WithoutWatchdogHeld(c, b, n, h);
    }
    forall m ensures Live(b', m) {
      WithoutWatchdogLive(b, n, m);
    }
  }

  lemma WithoutWatchdogMeans(c: Config, b: Book, n: NetworkId, s: State)
    requires Sound(c, b) && Sound(c, WithoutWatchdog(b, n))
    ensures Meaning(c, WithoutWatchdog(b, n), s) == Meaning(c, b, s).(watchdogs := Watchdogs(b.requests) - {n})
  {
    assert Live(b, n);
    hide Attempts, Watchdogs, Retries, Resyncs, Refetches, Live, Held;
    TogglesAgree(b, n);
    if n in b.requests {
      RequestUpdated(b.requests, n, b.requests[n].(watchdogHandle := None));
    }
  }

  function WithoutRetry(b: Book, n: NetworkId): Book {
    if n !in b.requests then b
    else b.(timers := Cancel(b.timers, b.requests[n].retryHandle),
            requests := b.requests[n := b.requests[n].(retryHandle := None)])
  }

  lemma WithoutRetryHeld(c: Config, b: Book, n: NetworkId, h: Handle)
    requires h in b.timers && Held(c, b, h) && h in WithoutRetry(b, n).timers
    ensures Held(c, WithoutRetry(b, n), h)
  {
    hide BackoffDelay;
  }

  lemma WithoutRetryLive(b: Book, n: NetworkId, m: NetworkId)
    requires Live(b, m) && Live(b, n)
    ensures Live(WithoutRetry(b, n), m)
  {
  }

  lemma WithoutRetrySound(c: Config, b: Book, n: NetworkId)
    requires Sound(c, b)
    ensures Sound(c, WithoutRetry(b, n))
  {
    var b' := WithoutRetry(b, n);
    assert Live(b, n);
    assert b'.deadline.Some? ==> b'.deadline.value in b'.timers && b'.timers[b'.deadline.value].callback.StreamStall?;
    hide Held, Live;
    forall h | h in b'.timers ensures Held(c, b', h) {
      assert h in b.timers && Held(c, b, h);
      WithoutRetryHeld(c, b, n, h);
    }
    forall m ensures Live(b', m) {
      WithoutRetryLive(b, n, m);
    }
  }

  lemma WithoutRetryMeans(c: Config, b: Book, n: NetworkId, s: State)
    requires Sound(c, b) && Sound(c, WithoutRetry(b, n))
    ensures Meaning(c, WithoutRetry(b, n), s) == Meaning(c, b, s).(retries := Retries(b.requests) - {n})
  {
    WithoutRetryRecords(b, n);
    hide Attempts, Watchdogs, Retries, Resyncs, Refetches, Live, Held, BackoffDelay;
  }

  lemma WithoutRetryRecords(b: Book, n: NetworkId)
    ensures var b' := WithoutRetry(b, n);
            && Attempts(b'.requests) == Attempts(b.requests) && Watchdogs(b'.requests) == Watchdogs(b.requests)
            && Retries(b'.requests) == Retries(b.requests) - {n}
            && b'.resyncs == b.resyncs && b'.deadline == b.deadline
  {
    hide Attempts, Watchdogs, Retries, Resyncs, Refetches;
    TogglesAgree(b, n);
    if n in b.requests {
      RequestUpdated(b.requests, n, b.requests[n].(retryHandle := None));
    }
  }

  function WithoutRefetch(b: Book, n: NetworkId): Book {
    if n !in b.resyncs then b
    else b.(timers := Cancel(b.timers, b.resyncs[n].handle),
            resyncs := b.resyncs[n := b.resyncs[n].(handle := None)])
  }

  lemma WithoutRefetchSound(c: Config, b: Book, n: NetworkId)
    requires Sound(c, b)
    ensures Sound(c, WithoutRefetch(b, n))
  {
    var b' := WithoutRefetch(b, n);
    assert Live(b, n);
    forall h | h in b'.timers ensures Held(c, b', h) {
      assert h in b.timers ==> Held(c, b, h);
    }
    forall m ensures Live(b', m) {
      assert Live(b, m) && Live(b, n);
    }
  }

  lemma WithoutRefetchMeans(c: Config, b: Book, n: NetworkId, s: State)
    requires Sound(c, b) && Sound(c, WithoutRefetch(b, n))
    ensures Meaning(c, WithoutRefetch(b, n), s) == Meaning(c, b, s).(resyncTimers := Refetches(b.resyncs) - {n})
  {
    assert Live(b, n);
    hide Attempts, Watchdogs, Retries, Resyncs, Refetches, Live, Held;
    TogglesAgree(b, n);
    if n in b.resyncs {
      ResyncUpdated(b.resyncs, n, b.resyncs[n].(handle := None));
    }
  }

  function WithoutDeadline(b: Book): Book {
    b.(timers := Cancel(b.timers, b.deadline), deadline := None)
  }

  lemma WithoutDeadlineSound(c: Config, b: Book)
    requires Sound(c, b)
    ensures Sound(c, WithoutDeadline(b))
  {
    var b' := WithoutDeadline(b);
    forall h | h in b'.timers ensures Held(c, b', h) {
      assert h in b.timers ==> Held(c, b, h);
    }
    forall m ensures Live(b', m) {
      assert Live(b, m);
    }
  }

  lemma WithoutDeadlineMeans(c: Config, b: Book, s: State)
    requires Sound(c, b) && Sound(c, WithoutDeadline(b))
    ensures Meaning(c, WithoutDeadline(b), s) == Meaning(c, b, s).(deadline := None)
  {
  }

  // setTimeout into the record's own handle field.

  function Arm(b: Book, timer: Timer): Book {
    b.(timers := b.timers[b.nextHandle := timer], nextHandle := b.nextHandle + 1)
  }

  function WithWatchdog(c: Config, b: Book, n: NetworkId): Book
    requires n in b.requests
  {
    Arm(b, Timer(Watchdog(n), c.requestTimeoutMs)).(
    requests := b.requests[n := b.requests[n].(watchdogHandle := Some(b.nextHandle))])
  }

  lemma WithWatchdogSound(c: Config, b: Book, n: NetworkId)
    requires Sound(c, b) && n in b.requests && WatchdogOf(b, n) == None
    ensures Sound(c, WithWatchdog(c, b, n))
  {
    var b' := WithWatchdog(c, b, n);
    forall h | h in b'.timers ensures Held(c, b', h) {
      assert h in b.timers ==> Held(c, b, h);
    }
    forall m ensures Live(b', m) {
      assert Live(b, m) && Live(b, n);
    }
  }

  lemma WithWatchdogMeans(c: Config, b: Book, n: NetworkId, s: State)
    requires n in b.requests && WatchdogOf(b, n) == None && Sound(c, b) && Sound(c, WithWatchdog(c, b, n))
    ensures Meaning(c, WithWatchdog(c, b, n), s) == Meaning(c, b, s).(watchdogs := Watchdogs(b.requests) + {n})
  {
    assert Live(b, n);
  }

  function WithRetry(c: Config, b: Book, n: NetworkId): Book
    requires n in b.requests
  {
    var a := b.requests[n].attempts;
    Arm(b, Timer(Retry(n), BackoffDelay(a, c.retryInitialMs, c.retryMaxMs))).(
    requests := b.requests[n := b.requests[n].(attempts := a + 1, retryHandle := Some(b.nextHandle))])
  }

  lemma WithRetrySound(c: Config, b: Book, n: NetworkId)
    requires Sound(c, b) && n in b.requests && RetryOf(b, n) == None
    ensures Sound(c, WithRetry(c, b, n))
  {
    var b' := WithRetry(c, b, n);
    forall h | h in b'.timers ensures Held(c, b', h) {
      assert h in b.timers ==> Held(c, b, h);
    }
    forall m ensures Live(b', m) {
      assert Live(b, m) && Live(b, n);
    }
  }

  lemma WithRetryMeans(c: Config, b: Book, n: NetworkId, s: State)
    requires n in b.requests && RetryOf(b, n) == None && Sound(c, b) && Sound(c, WithRetry(c, b, n))
    ensures Meaning(c, WithRetry(c, b, n), s) ==
            Meaning(c, b, s).(retries := Retries(b.requests) + {n},
                              attempts := Attempts(b.requests)[n := b.requests[n].attempts + 1])
  {
    assert Live(b, n);
  }

  function WithRefetch(c: Config, b: Book, n: NetworkId, signature: string): Book
    requires n in b.resyncs
  {
    var a := b.resyncs[n].attempts;
    Arm(b, Timer(Refetch(n), BackoffDelay(a, c.resyncInitialMs, c.resyncMaxMs))).(
    resyncs := b.resyncs[n := ResyncState(a + 1, Some(b.nextHandle), Some(signature))])
  }

  lemma WithRefetchSound(c: Config, b: Book, n: NetworkId, signature: string)
    requires Sound(c, b) && n in b.resyncs && RefetchOf(b, n) == None
    ensures Sound(c, WithRefetch(c, b, n, signature))
  {
    var b' := WithRefetch(c, b, n, signature);
    forall h | h in b'.timers ensures Held(c, b', h) {
      assert h in b.timers ==> Held(c, b, h);
    }
    forall m ensures Live(b', m) {
      assert Live(b, m) && Live(b, n);
    }
  }

  lemma WithRefetchMeans(c: Config, b: Book, n: NetworkId, signature: string, s: State)
    requires n in b.resyncs && RefetchOf(b, n) == None && Sound(c, b) && Sound(c, WithRefetch(c, b, n, signature))
    ensures Meaning(c, WithRefetch(c, b, n, signature), s) ==
            Meaning(c, b, s).(resyncTimers := Refetches(b.resyncs) + {n},
                              resyncs := Resyncs(b.resyncs)[n := Resync(b.resyncs[n].attempts + 1, Some(signature))])
  {
    assert Live(b, n);
  }

  function WithDeadline(c: Config, b: Book, n: NetworkId): Book {
    Arm(b, Timer(StreamStall(n), c.streamStallMs)).(deadline := Some(b.nextHandle))
  }

  lemma WithDeadlineSound(c: Config, b: Book, n: NetworkId)
    requires Sound(c, b) && b.deadline == None
    ensures Sound(c, WithDeadline(c, b, n))
  {
    var b' := WithDeadline(c, b, n);
    forall h | h in b'.timers ensures Held(c, b', h) {
      assert h in b.timers ==> Held(c, b, h);
    }
    forall m ensures Live(b', m) {
      assert Live(b, m);
    }
  }

  lemma WithDeadlineMeans(c: Config, b: Book, n: NetworkId, s: State)
    requires Sound(c, b) && Sound(c, WithDeadline(c, b, n)) && b.deadline == None
    ensures Meaning(c, WithDeadline(c, b, n), s) == Meaning(c, b, s).(deadline := Some(n))
  {
  }

  // Creating and deleting the records themselves.

  function Tracking(b: Book, n: NetworkId): Book {
    if n in b.requests then b else b.(requests := b.requests[n := RequestState(0, None, None)])
  }

  lemma TrackingSound(c: Config, b: Book, n: NetworkId)
    requires Sound(c, b)
    ensures Sound(c, Tracking(b, n))
  {
    var b' := Tracking(b, n);
    forall h | h in b'.timers ensures Held(c, b', h) {
      assert h in b.timers ==> Held(c, b, h);
    }
    forall m ensures Live(b', m) {
      assert Live(b, m) && Live(b, n);
    }
  }

  lemma TrackingMeans(c: Config, b: Book, n: NetworkId, s: State)
    requires Sound(c, b) && Sound(c, Tracking(b, n))
    ensures Meaning(c, Tracking(b, n), s) ==
            Meaning(c, b, s).(attempts := if n in b.requests then Attempts(b.requests)
                                          else Attempts(b.requests)[n := 0])
  {
  }

  function Untracked(b: Book, n: NetworkId): Book {
    b.(requests := b.requests - {n})
  }

  lemma UntrackedSound(c: Config, b: Book, n: NetworkId)
    requires Sound(c, b) && WatchdogOf(b, n) == None && RetryOf(b, n) == None
    ensures Sound(c, Untracked(b, n))
  {
    var b' := Untracked(b, n);
    forall h | h in b'.timers ensures Held(c, b', h) {
      assert h in b.timers ==> Held(c, b, h);
    }
    forall m ensures Live(b', m) {
      assert Live(b, m);
    }
  }

  lemma UntrackedMeans(c: Config, b: Book, n: NetworkId, s: State)
    requires Sound(c, b) && Sound(c, Untracked(b, n)) && WatchdogOf(b, n) == None && RetryOf(b, n) == None
    ensures Meaning(c, Untracked(b, n), s) == Meaning(c, b, s).(attempts := Attempts(b.requests) - {n})
  {
  }

  function TrackingResync(b: Book, n: NetworkId): Book {
    if n in b.resyncs then b else b.(resyncs := b.resyncs[n := ResyncState(0, None, None)])
  }

  lemma TrackingResyncSound(c: Config, b: Book, n: NetworkId)
    requires Sound(c, b)
    ensures Sound(c, TrackingResync(b, n))
  {
    var b' := TrackingResync(b, n);
    forall h | h in b'.timers ensures Held(c, b', h) {
      assert h in b.timers ==> Held(c, b, h);
    }
    forall m ensures Live(b', m) {
      assert Live(b, m) && Live(b, n);
    }
  }

  lemma TrackingResyncMeans(c: Config, b: Book, n: NetworkId, s: State)
    requires Sound(c, b) && Sound(c, TrackingResync(b, n))
    ensures Meaning(c, TrackingResync(b, n), s) ==
            Meaning(c, b, s).(resyncs := if n in b.resyncs then Resyncs(b.resyncs)
                                         else Resyncs(b.resyncs)[n := Resync(0, None)])
  {
  }

  function UntrackedResync(b: Book, n: NetworkId): Book {
    b.(resyncs := b.resyncs - {n})
  }

  lemma UntrackedResyncSound(c: Config, b: Book, n: NetworkId)
    requires Sound(c, b) && RefetchOf(b, n) == None
    ensures Sound(c, UntrackedResync(b, n))
  {
    var b' := UntrackedResync(b, n);
    forall h | h in b'.timers ensures Held(c, b', h) {
      assert h in b.timers ==> Held(c, b, h);
    }
    forall m ensures Live(b', m) {
      assert Live(b, m);
    }
  }

  lemma UntrackedResyncMeans(c: Config, b: Book, n: NetworkId, s: State)
    requires Sound(c, b) && Sound(c, UntrackedResync(b, n)) && RefetchOf(b, n) == None
    ensures Meaning(c, UntrackedResync(b, n), s) == Meaning(c, b, s).(resyncs := Resyncs(b.resyncs) - {n})
  {
  }

  /** A timer the protocol regards as armed is exactly one live timer of the event loop, and conversely. */
  lemma ArmedIffLive(c: Config, b: Book, callback: Callback, h: Handle)
    requires Sound(c, b) && !callback.StreamStall?
    ensures h in b.timers && b.timers[h].callback == callback <==> HolderOf(b, callback) == Some(h)
    ensures match callback
            case Watchdog(n) => HolderOf(b, callback).Some? <==> n in Watchdogs(b.requests)
            case Retry(n) => HolderOf(b, callback).Some? <==> n in Retries(b.requests)
            case Refetch(n) => HolderOf(b, callback).Some? <==> n in Refetches(b.resyncs)
  {
    assert h in b.timers ==> Held(c, b, h);
    assert Live(b, callback.network);
  }

  /** At most one stall timer is live, and it is the session's. */
  lemma OneDeadline(c: Config, b: Book, h: Handle)
    requires Sound(c, b)
    ensures h in b.timers && b.timers[h].callback.StreamStall? <==> b.deadline == Some(h)
  {
    assert h in b.timers ==> Held(c, b, h);
  }

  /**
   * How long each live timer runs: a request or a stream gives up after its own setting, and the k-th
   * retry or re-fetch in a row waits the initial delay doubled k - 1 times, within the maximum.
   */
  lemma TimersRunFor(c: Config, b: Book, h: Handle)
    requires Sound(c, b) && h in b.timers
    ensures match b.timers[h].callback
            case Watchdog(_) => b.timers[h].delayMs == c.requestTimeoutMs
            case StreamStall(_) => b.timers[h].delayMs == c.streamStallMs
            case Retry(n) =>
              n in b.requests && b.timers[h].delayMs == NthWait(b.requests[n].attempts, c.retryInitialMs, c.retryMaxMs)
            case Refetch(n) =>
              n in b.resyncs && b.timers[h].delayMs == NthWait(b.resyncs[n].attempts, c.resyncInitialMs, c.resyncMaxMs)
  {
    hide BackoffDelay, NthWait;
    assert Held(c, b, h);
    match b.timers[h].callback
    case Retry(n) => DelayIsNthWait(b.requests[n].attempts, c.retryInitialMs, c.retryMaxMs);
    case Refetch(n) => DelayIsNthWait(b.resyncs[n].attempts, c.resyncInitialMs, c.resyncMaxMs);
    case _ =>
  }
}
