/**
 * The session of src/haDiscoveryTreeSession.js with the fields, timer handles and event loop it
 * works on. Every method refines one step of TreeProtocol: a timer is armed in the protocol exactly
 * when a live timer of the event loop is held by the record that can cancel it, with the delay the
 * settings prescribe.
 */
module TreeSessions {
  import opened Options
  import opened Backoff
  import opened TreeProtocol
  import opened TreeTimers

  function WakeUp(callback: Callback): Event {
    match callback
    case Watchdog(n) => WatchdogFires(n)
    case Retry(n) => RetryFires(n)
    case Refetch(n) => ResyncFires(n)
    case StreamStall(_) => StreamStalls
  }

  /** The protocol's one failure step, in the order the session performs it. */
  lemma FailInSteps(c: Config, s: State, n: NetworkId)
    ensures var s1 := s.(pending := RemoveFirst(s.pending, n), attempts := s.attempts[n := AttemptsOf(s, n)]);
            Fail(c, s, n) ==
            if AttemptsOf(s, n) + 1 > c.maxRetries then
              TreeProtocol.ClearTreeState(s1, n).(statuses := WithStatus(c, s1, n, Paused))
            else s1.(retries := s1.retries - {n} + {n}, attempts := s1.attempts[n := AttemptsOf(s1, n) + 1])
  {
    var a := AttemptsOf(s, n);
    assert s.attempts[n := a] - {n} == s.attempts - {n};
    assert s.attempts[n := a][n := a + 1] == s.attempts[n := a + 1];
    assert s.retries - {n} + {n} == s.retries + {n};
  }

  lemma QueueInSteps(c: Config, s: State, n: NetworkId)
    ensures var s1 := s.(attempts := s.attempts[n := AttemptsOf(s, n)], retries := s.retries - {n},
                         statuses := WithStatus(c, s, n, Discovering));
            QueueRequest(c, s, n) ==
            if InFlight(s, n) then s1
            else s1.(pending := s.pending + [n], epochs := s.epochs[n := EpochOf(s, n) + 1],
                     watchdogs := s.watchdogs - {n} + {n}, sent := s.sent + [n])
  {
    assert s.watchdogs - {n} + {n} == s.watchdogs + {n};
  }

  lemma ScheduleInSteps(c: Config, s: State, n: NetworkId, signature: string)
    ensures var s1 := s.(resyncs := if n in s.resyncs then s.resyncs else s.resyncs[n := Resync(0, None)]);
            var r := ResyncAttempts(s1, n) + 1;
            ScheduleResync(c, s, n, signature) ==
            if r > c.maxResyncs then ClearResync(s1, n)
            else s1.(resyncTimers := s1.resyncTimers - {n} + {n},
                     resyncs := s1.resyncs[n := Resync(r, Some(signature))])
  {
    assert s.resyncs[n := Resync(0, None)] - {n} == s.resyncs - {n};
    assert s.resyncTimers - {n} + {n} == s.resyncTimers + {n};
  }

  /** The tree a caller has set directly stands for a session when none is open. */
  function WithLoaded(s: State, network: Option<NetworkId>, parts: seq<string>): State {
    if s.active.None? && network.Some? then s.(active := Some(Session(network.value, parts))) else s
  }

  class TreeSession {
    const config: Config
    var pendingTreeNetworks: seq<NetworkId>
    var activeTreeSession: Option<Session>
    var treeNetwork: Option<NetworkId>
    var treeBufferParts: seq<string>
    var treeRequestState: map<NetworkId, RequestState>
    var treeResyncState: map<NetworkId, ResyncState>
    var treeParseEpoch: map<NetworkId, nat>
    var parsingNetworks: set<NetworkId>
    var treeStreamDeadlineHandle: Option<Handle>
    var networkDiscoveryEntities: map<NetworkId, Status>

    // The runtime around the session: live timers, outstanding parses, and what it has emitted.
    var timers: map<Handle, Timer>
    var nextHandle: Handle
    var parseCallbacks: seq<ParseJob>
    var acceptedTrees: seq<NetworkId>
    var sentCommands: seq<NetworkId>

    ghost function TimerBook(): Book
      reads this
    {
      Book(treeRequestState, treeResyncState, treeStreamDeadlineHandle, timers, nextHandle)
    }

    ghost predicate Valid()
      reads this
    {
      && treeNetwork == (if activeTreeSession.Some? then Some(activeTreeSession.value.network) else None)
      && treeBufferParts == (if activeTreeSession.Some? then activeTreeSession.value.parts else [])
      && Sound(config, TimerBook())
    }

    /** A caller may have set the tree network and buffer directly, while no session is open. */
    ghost predicate Loaded()
      reads this
    {
      Sound(config, TimerBook()) && (activeTreeSession.Some? || treeNetwork.None? ==> Valid())
    }

    /** The protocol state this object represents. */
    ghost function Abs(): State
      reads this
      requires Sound(config, TimerBook())
    {
      Meaning(config, TimerBook(),
              State(pendingTreeNetworks, activeTreeSession, map[], {}, {}, map[], {}, None, treeParseEpoch,
                    parsingNetworks, parseCallbacks, networkDiscoveryEntities, acceptedTrees, sentCommands))
    }

    lemma AbsFields()
      requires Valid()
      ensures var s := Abs();
              && s.pending == pendingTreeNetworks && s.active == activeTreeSession && s.parsing == parsingNetworks
              && s.epochs == treeParseEpoch
              && s.attempts.Keys == treeRequestState.Keys && s.resyncs.Keys == treeResyncState.Keys
              && (forall n :: n in treeRequestState ==> treeRequestState[n].attempts == s.attempts[n])
              && (forall n :: n in treeResyncState ==>
                                treeResyncState[n].attempts == s.resyncs[n].attempts
                                && treeResyncState[n].signature == s.resyncs[n].signature)
    {
    }

    constructor (config: Config)
      ensures Valid() && this.config == config && Abs() == INITIAL
    {
      this.config := config;
      pendingTreeNetworks, activeTreeSession, treeNetwork, treeBufferParts := [], None, None, [];
      treeRequestState, treeResyncState, treeParseEpoch := map[], map[], map[];
      parsingNetworks, treeStreamDeadlineHandle, networkDiscoveryEntities := {}, None, map[];
      timers, nextHandle, parseCallbacks := map[], 0, [];
      acceptedTrees, sentCommands := [], [];
    }

    // Timers.

    method ClearWatchdog(n: NetworkId)
      requires Valid()
      modifies this
      ensures Valid() && Abs() == old(Abs()).(watchdogs := old(Abs()).watchdogs - {n})
    {
      ghost var b := TimerBook();
      WithoutWatchdogSound(config, b, n);
      WithoutWatchdogMeans(config, b, n, Abs());
      if n in treeRequestState {
        var handle := treeRequestState[n].watchdogHandle;
        if handle.Some? {
          timers := timers - {handle.value};
        }
        treeRequestState := treeRequestState[n := treeRequestState[n].(watchdogHandle := None)];
      }
      assert TimerBook() == WithoutWatchdog(b, n);
    }

    method ClearRetry(n: NetworkId)
      requires Valid()
      modifies this
      ensures Valid() && Abs() == old(Abs()).(retries := old(Abs()).retries - {n})
    {
      ghost var b := TimerBook();
      WithoutRetrySound(config, b, n);
      WithoutRetryMeans(config, b, n, Abs());
      if n in treeRequestState {
        var handle := treeRequestState[n].retryHandle;
        if handle.Some? {
          timers := timers - {handle.value};
        }
        treeRequestState := treeRequestState[n := treeRequestState[n].(retryHandle := None)];
      }
      assert TimerBook() == WithoutRetry(b, n);
    }

    method ClearTreeResyncTimer(n: NetworkId)
      requires Valid()
      modifies this
      ensures Valid() && Abs() == old(Abs()).(resyncTimers := old(Abs()).resyncTimers - {n})
    {
      ghost var b := TimerBook();
      WithoutRefetchSound(config, b, n);
      WithoutRefetchMeans(config, b, n, Abs());
      if n in treeResyncState {
        var handle := treeResyncState[n].handle;
        if handle.Some? {
          timers := timers - {handle.value};
        }
        treeResyncState := treeResyncState[n := treeResyncState[n].(handle := None)];
      }
      assert TimerBook() == WithoutRefetch(b, n);
    }

    method ClearTreeStreamDeadline()
      requires Sound(config, TimerBook())
      modifies this`timers, this`treeStreamDeadlineHandle
      ensures Sound(config, TimerBook()) && Abs() == old(Abs()).(deadline := None)
    {
      ghost var b := TimerBook();
      WithoutDeadlineSound(config, b);
      WithoutDeadlineMeans(config, b, Abs());
      if treeStreamDeadlineHandle.Some? {
        timers := timers - {treeStreamDeadlineHandle.value};
        treeStreamDeadlineHandle := None;
      }
      assert TimerBook() == WithoutDeadline(b);
    }

    /** setTimeout: a fresh handle for a timer that will fire after the delay. */
    method SetTimer(callback: Callback, delayMs: nat) returns (handle: Handle)
      modifies this`timers, this`nextHandle
      ensures handle == old(nextHandle) && nextHandle == old(nextHandle) + 1
      ensures timers == old(timers)[handle := Timer(callback, delayMs)]
    {
      handle := nextHandle;
      timers := timers[handle := Timer(callback, delayMs)];
      nextHandle := nextHandle + 1;
    }

    method ArmTreeStreamDeadline(fallbackNetwork: NetworkId)
      requires Valid()
      modifies this
      ensures Valid() && Abs() == old(Abs()).(deadline := Some(fallbackNetwork))
    {
      ClearTreeStreamDeadline();
      ghost var b := TimerBook();
      WithDeadlineSound(config, b, fallbackNetwork);
      WithDeadlineMeans(config, b, fallbackNetwork, Abs());
      var handle := SetTimer(StreamStall(fallbackNetwork), config.streamStallMs);
      treeStreamDeadlineHandle := Some(handle);
      assert TimerBook() == WithDeadline(config, b, fallbackNetwork);
    }

    // Per-network records.

    method GetOrCreateTreeState(n: NetworkId)
      requires Valid()
      modifies this
      ensures Valid() && n in treeRequestState
      ensures Abs() == old(Abs()).(attempts := old(Abs()).attempts[n := AttemptsOf(old(Abs()), n)])
      ensures treeRequestState[n].attempts == AttemptsOf(old(Abs()), n)
    {
      ghost var b := TimerBook();
      TrackingSound(config, b, n);
      TrackingMeans(config, b, n, Abs());
      if n !in treeRequestState {
        treeRequestState := treeRequestState[n := RequestState(0, None, None)];
      }
      assert TimerBook() == Tracking(b, n);
    }

    method ClearTreeState(n: NetworkId)
      requires Valid()
      modifies this
      ensures Valid() && Abs() == TreeProtocol.ClearTreeState(old(Abs()), n)
    {
      ClearWatchdog(n);
      ClearRetry(n);
      if activeTreeSession.Some? && activeTreeSession.value.network == n {
        ClearTreeStreamDeadline();
      }
      ghost var b := TimerBook();
      UntrackedSound(config, b, n);
      UntrackedMeans(config, b, n, Abs());
      treeRequestState := treeRequestState - {n};
      assert TimerBook() == Untracked(b, n);
    }

    method ClearTreeResyncState(n: NetworkId)
      requires Valid()
      modifies this
      ensures Valid() && Abs() == ClearResync(old(Abs()), n)
    {
      ClearTreeResyncTimer(n);
      ghost var b := TimerBook();
      UntrackedResyncSound(config, b, n);
      UntrackedResyncMeans(config, b, n, Abs());
      treeResyncState := treeResyncState - {n};
      assert TimerBook() == UntrackedResync(b, n);
    }

    method SetDiscoveryStatus(n: NetworkId, status: Status)
      requires Valid()
      modifies this`networkDiscoveryEntities
      ensures Valid() && Abs() == old(Abs()).(statuses := WithStatus(config, old(Abs()), n, status))
    {
      if config.discoveryEnabled {
        if !(n in networkDiscoveryEntities && networkDiscoveryEntities[n] == status) {
          networkDiscoveryEntities := networkDiscoveryEntities[n := status];
        }
      }
    }

    // Requests and failures.

    method QueueTreeRequest(n: NetworkId)
      requires Valid()
      modifies this
      ensures Valid() && Abs() == QueueRequest(config, old(Abs()), n)
    {
      hide Meaning, Sound, QueueRequest;
      QueueInSteps(config, Abs(), n);
      TrackRequest(n);
      AbsFields();
      if n in pendingTreeNetworks
         || (activeTreeSession.Some? && activeTreeSession.value.network == n)
         || n in parsingNetworks {
        return;
      }
      SendRequest(n);
    }

    /** The attempt count is kept, a pending retry is cancelled, and the network counts as discovering. */
    method TrackRequest(n: NetworkId)
      requires Valid()
      modifies this
      ensures Valid()
      ensures Abs() == old(Abs()).(attempts := old(Abs()).attempts[n := AttemptsOf(old(Abs()), n)],
                                   retries := old(Abs()).retries - {n},
                                   statuses := WithStatus(config, old(Abs()), n, Discovering))
    {
      hide Meaning, Sound;
      GetOrCreateTreeState(n);
      ClearRetry(n);
      SetDiscoveryStatus(n, Discovering);
    }

    /** TREEXML is sent under a fresh watchdog. */
    method SendRequest(n: NetworkId)
      requires Valid() && n in Abs().attempts
      modifies this
      ensures Valid()
      ensures Abs() == old(Abs()).(pending := old(Abs()).pending + [n],
                                   epochs := old(Abs()).epochs[n := EpochOf(old(Abs()), n) + 1],
                                   watchdogs := old(Abs()).watchdogs - {n} + {n},
                                   sent := old(Abs()).sent + [n])
    {
      hide Meaning, Sound;
      RecordRequest(n);
      ClearWatchdog(n);
      ArmWatchdog(n);
    }

    /** The request joins the queue under a new epoch, and its TREEXML is sent. */
    method RecordRequest(n: NetworkId)
      requires Valid()
      modifies this`pendingTreeNetworks, this`treeParseEpoch, this`sentCommands
      ensures Valid()
      ensures Abs() == old(Abs()).(pending := old(Abs()).pending + [n],
                                   epochs := old(Abs()).epochs[n := EpochOf(old(Abs()), n) + 1],
                                   sent := old(Abs()).sent + [n])
    {
      pendingTreeNetworks := pendingTreeNetworks + [n];
      var nextEpoch := (if n in treeParseEpoch then treeParseEpoch[n] else 0) + 1;
      treeParseEpoch := treeParseEpoch[n := nextEpoch];
      sentCommands := sentCommands + [n];
    }

    method ArmWatchdog(n: NetworkId)
      requires Valid() && n in Abs().attempts && n !in Abs().watchdogs
      modifies this
      ensures Valid() && Abs() == old(Abs()).(watchdogs := old(Abs()).watchdogs + {n})
    {
      ghost var b := TimerBook();
      assert n in treeRequestState && WatchdogOf(b, n) == None;
      WithWatchdogSound(config, b, n);
      WithWatchdogMeans(config, b, n, Abs());
      var handle := SetTimer(Watchdog(n), config.requestTimeoutMs);
      treeRequestState := treeRequestState[n := treeRequestState[n].(watchdogHandle := Some(handle))];
      assert TimerBook() == WithWatchdog(config, b, n);
    }

    /** Counts one more attempt and arms the retry it earns. */
    method ArmRetry(n: NetworkId)
      requires Valid() && n in Abs().attempts && n !in Abs().retries
      modifies this
      ensures Valid()
      ensures Abs() == old(Abs()).(retries := old(Abs()).retries + {n},
                                   attempts := old(Abs()).attempts[n := AttemptsOf(old(Abs()), n) + 1])
    {
      ghost var b := TimerBook();
      assert n in treeRequestState && RetryOf(b, n) == None;
      WithRetrySound(config, b, n);
      WithRetryMeans(config, b, n, Abs());
      var attempts := treeRequestState[n].attempts + 1;
      var delay := BackoffDelay(attempts - 1, config.retryInitialMs, config.retryMaxMs);
      var handle := SetTimer(Retry(n), delay);
      var r := treeRequestState[n].(attempts := attempts, retryHandle := Some(handle));
      treeRequestState := treeRequestState[n := r];
      assert TimerBook() == WithRetry(config, b, n);
    }

    method HandleTreeRequestFailure(n: NetworkId)
      requires Valid()
      modifies this
      ensures Valid() && Abs() == Fail(config, old(Abs()), n)
    {
      hide Meaning, Sound, Fail;
      FailInSteps(config, Abs(), n);
      DropPending(n);
      GetOrCreateTreeState(n);
      AbsFields();
      if treeRequestState[n].attempts + 1 > config.maxRetries {
        PauseNetwork(n);
      } else {
        RescheduleRetry(n);
      }
    }

    method PauseNetwork(n: NetworkId)
      requires Valid()
      modifies this
      ensures Valid()
      ensures Abs() == TreeProtocol.ClearTreeState(old(Abs()), n).(
                         statuses := WithStatus(config, old(Abs()), n, Paused))
    {
      hide Meaning, Sound;
      ClearTreeState(n);
      SetDiscoveryStatus(n, Paused);
    }

    /** Whatever retry was armed gives way to the next one. */
    method RescheduleRetry(n: NetworkId)
      requires Valid() && n in Abs().attempts
      modifies this
      ensures Valid()
      ensures Abs() == old(Abs()).(retries := old(Abs()).retries - {n} + {n},
                                   attempts := old(Abs()).attempts[n := AttemptsOf(old(Abs()), n) + 1])
    {
      hide Meaning, Sound;
      ClearRetry(n);
      ArmRetry(n);
    }

    method DropPending(n: NetworkId)
      requires Valid()
      modifies this`pendingTreeNetworks
      ensures Valid() && Abs() == old(Abs()).(pending := RemoveFirst(old(Abs()).pending, n))
    {
      pendingTreeNetworks := RemoveFirst(pendingTreeNetworks, n);
    }

    method HandleCommandError(code: string, saysNotFound: bool, namesPath: bool)
      requires Valid()
      modifies this
      ensures Valid() && Abs() == Step(config, old(Abs()), CommandError(code, saysNotFound, namesPath))
    {
      if code != "401" || !saysNotFound || namesPath || pendingTreeNetworks == [] {
        return;
      }
      var failedNetwork := pendingTreeNetworks[0];
      pendingTreeNetworks := pendingTreeNetworks[1..];
      ClearWatchdog(failedNetwork);
      HandleTreeRequestFailure(failedNetwork);
    }

    /** Counts one more re-fetch and arms it, remembering the tree that asked for it. */
    method ArmRefetch(n: NetworkId, signature: string)
      requires Valid() && n in Abs().resyncs && n !in Abs().resyncTimers
      modifies this
      ensures Valid()
      ensures Abs() == old(Abs()).(
                       resyncTimers := old(Abs()).resyncTimers + {n},
                       resyncs := old(Abs()).resyncs[n := Resync(ResyncAttempts(old(Abs()), n) + 1, Some(signature))])
    {
      ghost var b := TimerBook();
      assert n in treeResyncState && RefetchOf(b, n) == None;
      WithRefetchSound(config, b, n, signature);
      WithRefetchMeans(config, b, n, signature, Abs());
      var attempts := treeResyncState[n].attempts + 1;
      var delay := BackoffDelay(attempts - 1, config.resyncInitialMs, config.resyncMaxMs);
      var handle := SetTimer(Refetch(n), delay);
      treeResyncState := treeResyncState[n := ResyncState(attempts, Some(handle), Some(signature))];
      assert TimerBook() == WithRefetch(config, b, n, signature);
    }

    method ScheduleTreeResync(n: NetworkId, signature: string)
      requires Valid()
      modifies this
      ensures Valid() && Abs() == ScheduleResync(config, old(Abs()), n, signature)
    {
      hide Meaning, Sound, ScheduleResync;
      ScheduleInSteps(config, Abs(), n, signature);
      GetOrCreateTreeResyncState(n);
      AbsFields();
      if treeResyncState[n].attempts + 1 > config.maxResyncs {
        ClearTreeResyncState(n);
      } else {
        ClearTreeResyncTimer(n);
        ArmRefetch(n, signature);
      }
    }

    method GetOrCreateTreeResyncState(n: NetworkId)
      requires Valid()
      modifies this
      ensures Valid() && n in treeResyncState
      ensures Abs() == old(Abs()).(resyncs := if n in old(Abs()).resyncs then old(Abs()).resyncs
                                              else old(Abs()).resyncs[n := Resync(0, None)])
    {
      ghost var b := TimerBook();
      TrackingResyncSound(config, b, n);
      TrackingResyncMeans(config, b, n, Abs());
      if n !in treeResyncState {
        treeResyncState := treeResyncState[n := ResyncState(0, None, None)];
      }
      assert TimerBook() == TrackingResync(b, n);
    }

    // The response stream.

    method HandleTreeStart()
      requires Valid()
      modifies this
      ensures Valid() && Abs() == StartStream(old(Abs()))
    {
      hide Meaning, Sound;
      var n := TakeNetwork();
      ClearWatchdog(n);
      ClearRetry(n);
      ClearTreeResyncTimer(n);
      OpenSession(n);
    }

    /** The network the arriving tree belongs to. */
    method TakeNetwork() returns (n: NetworkId)
      requires Valid()
      modifies this`pendingTreeNetworks
      ensures Valid() && n == StreamNetwork(old(Abs()))
      ensures Abs() == old(Abs()).(pending := if old(Abs()).pending == [] then [] else old(Abs()).pending[1..])
    {
      if pendingTreeNetworks != [] {
        n := pendingTreeNetworks[0];
        pendingTreeNetworks := pendingTreeNetworks[1..];
      } else {
        n := treeNetwork.GetOr(Unknown);
      }
    }

    method OpenSession(n: NetworkId)
      requires Valid()
      modifies this
      ensures Valid() && Abs() == old(Abs()).(active := Some(Session(n, [])), deadline := Some(n))
    {
      activeTreeSession, treeNetwork, treeBufferParts := Some(Session(n, [])), Some(n), [];
      assert Abs() == old(Abs()).(active := Some(Session(n, [])));
      hide Meaning, Sound;
      ArmTreeStreamDeadline(n);
    }

    method HandleTreeData(data: string)
      requires Valid()
      modifies this
      ensures Valid() && Abs() == StreamData(old(Abs()), data)
    {
      if activeTreeSession.None? {
        HandleTreeStart();
      }
      var session := activeTreeSession.value;
      activeTreeSession := Some(session.(parts := session.parts + [data]));
      treeBufferParts := activeTreeSession.value.parts;
      ArmTreeStreamDeadline(session.network);
    }

    /** The session that ends is the open one, or else the tree a caller has loaded. */
    method HandleTreeEnd(parserThrows: bool)
      requires Loaded()
      modifies this
      ensures Valid()
      ensures Abs() == EndStream(config, WithLoaded(old(Abs()), old(treeNetwork), old(treeBufferParts)), parserThrows)
      ensures old(Valid()) ==> Abs() == EndStream(config, old(Abs()), parserThrows)
    {
      hide Fail;
      ClearTreeStreamDeadline();
      if activeTreeSession.None? {
        if treeNetwork.None? {
          return;
        }
        activeTreeSession := Some(Session(treeNetwork.value, treeBufferParts));
      }
      var session := activeTreeSession.value;
      activeTreeSession, treeNetwork, treeBufferParts := None, None, [];
      if session.parts == [] || session.network == Unknown {
        return;
      }
      ParseTree(session.network, Document(session.parts), parserThrows);
    }

    /** The tree is handed to the parser, which may throw right away. */
    method ParseTree(n: NetworkId, treeXmlData: string, parserThrows: bool)
      requires Valid()
      modifies this
      ensures Valid()
      ensures var s := old(Abs());
              Abs() == if parserThrows then Fail(config, s.(parsing := s.parsing - {n}), n)
                       else s.(parsing := s.parsing + {n},
                               jobs := s.jobs + [ParseJob(n, EpochOf(s, n), treeXmlData)])
    {
      hide Fail;
      var parseEpoch := if n in treeParseEpoch then treeParseEpoch[n] else 0;
      parsingNetworks := parsingNetworks + {n};
      if parserThrows {
        parsingNetworks := parsingNetworks - {n};
        assert Abs().parsing == old(Abs()).parsing - {n};
        HandleTreeRequestFailure(n);
      } else {
        parseCallbacks := parseCallbacks + [ParseJob(n, parseEpoch, treeXmlData)];
      }
    }

    /** The event loop runs the i-th outstanding parse callback. */
    method OnTreeParsed(i: nat, outcome: Outcome)
      requires Valid() && i < |parseCallbacks|
      modifies this
      ensures Valid() && Abs() == Parsed(config, old(Abs()), i, outcome)
    {
      var job := parseCallbacks[i];
      var n := job.network;
      DropCallback(i);
      hide Meaning, Sound, Fail, Accept;
      AbsFields();
      if (if n in treeParseEpoch then treeParseEpoch[n] else 0) == job.epoch {
        match outcome
        case ParseFailed => HandleTreeRequestFailure(n);
        case NoDeviceData => HandleTreeRequestFailure(n);
        case DeviceData(unsynced, signature) => AcceptTree(n, unsynced, signature);
      }
      EndParse(n);
    }

    method DropCallback(i: nat)
      requires Valid() && i < |parseCallbacks|
      modifies this`parseCallbacks
      ensures Valid() && i < |old(Abs()).jobs| && old(Abs()).jobs[i] == old(parseCallbacks)[i]
      ensures Abs() == old(Abs()).(jobs := old(Abs()).jobs[..i] + old(Abs()).jobs[i + 1..])
    {
      parseCallbacks := parseCallbacks[..i] + parseCallbacks[i + 1..];
    }

    method EndParse(n: NetworkId)
      requires Valid()
      modifies this`parsingNetworks
      ensures Valid() && Abs() == old(Abs()).(parsing := old(Abs()).parsing - {n})
    {
      parsingNetworks := parsingNetworks - {n};
    }

    method AcceptTree(n: NetworkId, unsynced: bool, signature: string)
      requires Valid()
      modifies this
      ensures Valid() && Abs() == Accept(config, old(Abs()), n, unsynced, signature)
    {
      hide Meaning, Sound, ScheduleResync, ClearResync;
      ClearTreeState(n);
      EmitTree(n);
      SetDiscoveryStatus(n, Resolved);
      AbsFields();
      if unsynced {
        if n in treeResyncState && treeResyncState[n].signature == Some(signature) {
          ClearTreeResyncState(n);
        } else {
          ScheduleTreeResync(n, signature);
        }
      } else {
        ClearTreeResyncState(n);
      }
    }

    /** The tree is published for the rest of the bridge. */
    method EmitTree(n: NetworkId)
      requires Valid()
      modifies this`acceptedTrees
      ensures Valid() && Abs() == old(Abs()).(accepted := old(Abs()).accepted + [n])
    {
      acceptedTrees := acceptedTrees + [n];
    }

    /**
     * The event loop fires a live timer. Its closure first drops the handle from the record that
     * holds it, which Sound identifies as the record the closure captured.
     */
    method OnTimer(h: Handle)
      requires Valid() && h in timers
      modifies this
      ensures Valid() && Enabled(old(Abs()), WakeUp(old(timers)[h].callback))
      ensures Abs() == Step(config, old(Abs()), WakeUp(old(timers)[h].callback))
    {
      hide QueueRequest, Fail, Stall, BackoffDelay;
      var callback := timers[h].callback;
      assert Held(config, TimerBook(), h);
      match callback {
        case Watchdog(n) =>
          ClearWatchdog(n);
          HandleTreeRequestFailure(n);
        case Retry(n) =>
          ClearRetry(n);
          QueueTreeRequest(n);
        case Refetch(n) =>
          ClearTreeResyncTimer(n);
          QueueTreeRequest(n);
        case StreamStall(fallback) =>
          OnStreamStall(fallback);
      }
    }

    /** What the stall timer does: the open session is given up and its fetch has failed. */
    method OnStreamStall(fallback: NetworkId)
      requires Valid() && Abs().deadline == Some(fallback)
      modifies this
      ensures Valid() && Abs() == Stall(config, old(Abs()))
    {
      hide Fail, Held, Live;
      ClearTreeStreamDeadline();
      var stalled := if activeTreeSession.Some? then activeTreeSession.value.network else fallback;
      activeTreeSession, treeNetwork, treeBufferParts := None, None, [];
      HandleTreeRequestFailure(stalled);
    }

    // Network lifecycle events and shutdown.

    method HandleNetworkCreated(n: NetworkId)
      requires Valid()
      modifies this
      ensures Valid() && Abs() == Step(config, old(Abs()), NetworkCreated(n))
    {
      if config.discoveryEnabled && (config.scope == [] || n in config.scope) {
        QueueTreeRequest(n);
      }
    }

    method HandleNetworkSyncComplete(n: NetworkId)
      requires Valid()
      modifies this
      ensures Valid() && Abs() == Step(config, old(Abs()), SyncComplete(n))
    {
      if config.discoveryEnabled && (config.scope == [] || n in config.scope) {
        ClearTreeResyncState(n);
        QueueTreeRequest(n);
      }
    }

    method HandleNetworkRemoved(n: NetworkId)
      requires Valid()
      modifies this
      ensures Valid() && Abs() == Remove(config, old(Abs()), n)
    {
      if !config.discoveryEnabled {
        return;
      }
      hide TreeProtocol.ClearTreeState, ClearResync, Meaning, Sound;
      ClearTreeState(n);
      ClearTreeResyncState(n);
      ForgetNetwork(n);
    }

    /** Drops what no timer belongs to: epoch, parse, queue entry and status. */
    method ForgetNetwork(n: NetworkId)
      requires Valid()
      modifies this`treeParseEpoch, this`parsingNetworks, this`pendingTreeNetworks, this`networkDiscoveryEntities
      ensures Valid()
      ensures Abs() == old(Abs()).(epochs := old(Abs()).epochs - {n},
                                   parsing := old(Abs()).parsing - {n},
                                   pending := RemoveFirst(old(Abs()).pending, n),
                                   statuses := old(Abs()).statuses - {n})
    {
      treeParseEpoch := treeParseEpoch - {n};
      parsingNetworks := parsingNetworks - {n};
      pendingTreeNetworks := RemoveFirst(pendingTreeNetworks, n);
      networkDiscoveryEntities := networkDiscoveryEntities - {n};
    }

    method ClearAllTreeStates()
      requires Valid()
      modifies this
      ensures Valid()
      ensures Abs() == old(Abs()).(watchdogs := old(Abs()).watchdogs - old(Abs()).attempts.Keys,
                                   retries := old(Abs()).retries - old(Abs()).attempts.Keys,
                                   attempts := map[], deadline := Abs().deadline)
    {
      hide Meaning, Sound;
      ghost var before := Abs();
      AbsFields();
      var left := treeRequestState.Keys;
      ghost var done := {};
      while left != {}
        invariant Valid() && left + done == before.attempts.Keys
        invariant Abs() == before.(watchdogs := before.watchdogs - done, retries := before.retries - done,
                                   attempts := before.attempts - done, deadline := Abs().deadline)
        decreases left
      {
        var n :| n in left;
        left, done := left - {n}, done + {n};
        ClearTreeState(n);
      }
      assert before.attempts - before.attempts.Keys == map[];
    }

    method ClearAllTreeResyncStates()
      requires Valid()
      modifies this
      ensures Valid()
      ensures Abs() == old(Abs()).(resyncTimers := old(Abs()).resyncTimers - old(Abs()).resyncs.Keys, resyncs := map[])
    {
      hide Meaning, Sound;
      ghost var before := Abs();
      AbsFields();
      var left := treeResyncState.Keys;
      ghost var done := {};
      while left != {}
        invariant Valid() && left + done == before.resyncs.Keys
        invariant Abs() == before.(resyncTimers := before.resyncTimers - done, resyncs := before.resyncs - done)
        decreases left
      {
        var n :| n in left;
        left, done := left - {n}, done + {n};
        ClearTreeResyncState(n);
      }
      assert before.resyncs - before.resyncs.Keys == map[];
    }

    method Stop()
      requires Valid()
      modifies this
      ensures Valid() && Abs() == StopAll(old(Abs()))
    {
      ClearAllTreeStates();
      ClearAllTreeResyncStates();
      ClearTreeStreamDeadline();
      networkDiscoveryEntities := map[];
    }
  }
}
