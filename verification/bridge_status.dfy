/**
 * The retained online/offline status src/mqttManager.js keeps on the broker: what it remembers having
 * published, what the broker's will and restarts do behind its back, and when the two agree.
 */
module BridgeStatus {
  import opened Options

  const STATUS_TOPIC := "hello/cgateweb"
  const ONLINE := "Online"
  const OFFLINE := "Offline"

  function StatusFor(ready: bool): string {
    if ready then ONLINE else OFFLINE
  }

  /** `last` is the payload published last, `shown` the one the broker retains. */
  datatype Link = Link(connected: bool, ready: bool, last: Option<string>, shown: Option<string>)

  const START := Link(false, false, None, None)

  datatype Event =
    | Connects
    | Closes
    | Errors
    | SetsReady(ready: bool)
    | Disconnects
    | WillFires
    | BrokerForgets

  /** Nothing is sent while disconnected, or when it is what was sent last. */
  function PublishStatus(s: Link, payload: string): Link {
    if !s.connected || s.last == Some(payload) then s else s.(last := Some(payload), shown := Some(payload))
  }

  function Step(s: Link, e: Event): Link {
    match e
    case Connects => PublishStatus(s.(connected := true), StatusFor(s.ready))
    case Closes => s.(connected := false, ready := false)
    case Errors => s.(connected := false)
    case SetsReady(ready) => PublishStatus(s.(ready := ready), StatusFor(ready))
    case Disconnects => PublishStatus(s.(ready := false), OFFLINE).(connected := false)
    case WillFires => s.(shown := Some(OFFLINE))
    case BrokerForgets => s.(shown := None)
  }

  function Run(s: Link, es: seq<Event>): Link
    decreases |es|
  {
    if es == [] then s else Run(Step(s, es[0]), es[1..])
  }

  // The link told by its history.

  /** The last of the events that decide it says that the connection is up. */
  predicate IsUp(es: seq<Event>)
    decreases |es|
  {
    es != [] &&
    match es[|es| - 1]
    case Connects => true
    case Closes => false
    case Errors => false
    case Disconnects => false
    case _ => IsUp(es[..|es| - 1])
  }

  /** Readiness is what was set last, unless the connection has closed or been ended since. */
  predicate IsReady(es: seq<Event>)
    decreases |es|
  {
    es != [] &&
    match es[|es| - 1]
    case SetsReady(ready) => ready
    case Closes => false
    case Disconnects => false
    case _ => IsReady(es[..|es| - 1])
  }

  lemma {:induction false} RunLast(s: Link, es: seq<Event>)
    requires es != []
    ensures Run(s, es) == Step(Run(s, es[..|es| - 1]), es[|es| - 1])
    decreases |es|
  {
    hide Step;
    var front := es[..|es| - 1];
    if |es| == 1 {
      assert es[1..] == [] && front == [];
    } else {
      RunLast(Step(s, es[0]), es[1..]);
      assert es[1..][..|es| - 2] == front[1..];
    }
  }

  /** Over every history: connected and ready are what the events last said of them. */
  lemma {:induction false} LinkIsHistory(es: seq<Event>)
    ensures Run(START, es).connected == IsUp(es) && Run(START, es).ready == IsReady(es)
    decreases |es|
  {
    if es != [] {
      RunLast(START, es);
      LinkIsHistory(es[..|es| - 1]);
      hide Run;
    }
  }

  /** What goes out, and when: the word for the state, on coming up or when it is set, unless it was the last word. */
  lemma StatusWords(s: Link)
    ensures var word := if s.ready then "Online" else "Offline";
            Step(s, Connects) == s.(connected := true, last := Some(word),
                                    shown := if s.last == Some(word) then s.shown else Some(word))
    ensures forall ready :: s.connected ==>
              var word := if ready then "Online" else "Offline";
              Step(s, SetsReady(ready)) == s.(ready := ready, last := Some(word),
                                              shown := if s.last == Some(word) then s.shown else Some(word))
    ensures STATUS_TOPIC == "hello/cgateweb"
  {
  }

  /** The bridge counts as ready only while MQTT is connected (src/bridgeReadiness.js). */
  predicate EventOk(s: Link, e: Event) {
    e.SetsReady? && e.ready ==> s.connected
  }

  /**
   * While connected the last status published is the current one, and while connected or ready the
   * broker shows it; a remembered Offline is on the broker in any case.
   */
  predicate Inv(s: Link) {
    && (s.connected ==> s.last == Some(StatusFor(s.ready)))
    && (s.ready ==> s.last == Some(ONLINE))
    && (s.connected || s.ready || s.last == Some(OFFLINE) ==> s.shown == s.last)
  }

  /** What others may do to the retained status without the bridge noticing too late. */
  predicate Harmless(s: Link, e: Event) {
    match e
    case WillFires => !s.ready
    case BrokerForgets => !s.connected && !s.ready && s.last != Some(OFFLINE)
    case _ => true
  }

  /** One event keeps the agreement exactly when it is harmless. */
  lemma StepKeepsIff(s: Link, e: Event)
    requires Inv(s) && EventOk(s, e)
    ensures Inv(Step(s, e)) <==> Harmless(s, e)
  {
  }

  /** What a subscriber sees: whenever connected, the broker shows the bridge's readiness. */
  predicate Truth(s: Link) {
    s.connected ==> s.shown == Some(StatusFor(s.ready))
  }

  /** Harmless means exactly that the truth is shown after the event, and would be after a reconnect. */
  lemma HarmlessIffTrue(s: Link, e: Event)
    requires Inv(s) && EventOk(s, e)
    ensures Harmless(s, e) <==> Truth(Step(s, e)) && Truth(Step(Step(s, e), Connects))
  {
  }

  predicate RunPossible(s: Link, es: seq<Event>)
    decreases |es|
  {
    es == [] || (EventOk(s, es[0]) && RunPossible(Step(s, es[0]), es[1..]))
  }

  predicate RunHarmless(s: Link, es: seq<Event>)
    decreases |es|
  {
    es == [] || (Harmless(s, es[0]) && RunHarmless(Step(s, es[0]), es[1..]))
  }

  /** The truth is shown after a run, and would be after a reconnect. */
  predicate Lasting(s: Link, es: seq<Event>) {
    Truth(Run(s, es)) && Truth(Step(Run(s, es), Connects))
  }

  /**
   * Over whole runs: every moment of it shows the truth, and would after a reconnect, exactly if each
   * event is harmless.
   */
  lemma {:induction false} TruthIffHarmless(s: Link, es: seq<Event>)
    requires Inv(s) && RunPossible(s, es)
    ensures RunHarmless(s, es) <==> forall k :: 0 <= k <= |es| ==> Lasting(s, es[..k])
    decreases |es|
  {
    if es == [] {
      assert Lasting(s, es[..0]);
    } else {
      var s1, rest := Step(s, es[0]), es[1..];
      HarmlessIffTrue(s, es[0]);
      StepKeepsIff(s, es[0]);
      assert Lasting(s, es[..0]);
      forall k | 0 < k <= |es| ensures Lasting(s, es[..k]) <==> Lasting(s1, rest[..k - 1]) {
        assert es[..k][1..] == rest[..k - 1];
      }
      hide Step, Harmless;
      if Harmless(s, es[0]) {
        TruthIffHarmless(s1, rest);
        hide Lasting;
        assert forall k :: 0 <= k <= |rest| ==> (Lasting(s1, rest[..k]) <==> Lasting(s, es[..k + 1])) by {
          assert forall k :: 0 <= k <= |rest| ==> rest[..k] == rest[..(k + 1) - 1];
        }
        if RunHarmless(s, es) {
          forall k | 0 <= k <= |es| ensures Lasting(s, es[..k]) {
            assert k > 0 ==> Lasting(s1, rest[..k - 1]);
          }
        }
      } else {
        assert rest[..0] == [] && Run(s1, rest[..0]) == s1;
        assert !Lasting(s1, rest[..0]);
        assert !Lasting(s, es[..1]);
      }
    }
  }

  predicate RunOk(s: Link, es: seq<Event>) {
    RunPossible(s, es) && RunHarmless(s, es)
  }

  /** Over every run of connections, losses and readiness changes: whenever connected, the broker shows the truth. */
  lemma {:induction false} StatusIsTrue(s: Link, es: seq<Event>)
    requires Inv(s) && RunOk(s, es)
    ensures Inv(Run(s, es)) && Truth(Run(s, es))
    decreases |es|
  {
    if es != [] {
      StepKeepsIff(s, es[0]);
      StatusIsTrue(Step(s, es[0]), es[1..]);
    }
  }

  /** Says what the bridge already believes to have said. */
  predicate Repeats(s: Link, e: Event) {
    e.Connects? || (e.SetsReady? && e.ready == s.ready) || e.Errors?
  }

  /**
   * The will of a dead connection that the broker notices late, after the bridge is back and ready,
   * takes the bridge offline for good: reconnecting and reporting ready again send nothing.
   */
  lemma LateWillStays(s: Link, es: seq<Event>)
    requires s.ready && s.last == Some(ONLINE) && forall i :: 0 <= i < |es| ==> Repeats(s, es[i])
    ensures Run(Step(s, WillFires), es).shown == Some(OFFLINE) && Run(Step(s, WillFires), es).ready
  {
    OfflineStays(Step(s, WillFires), es);
  }

  lemma {:induction false} OfflineStays(s: Link, es: seq<Event>)
    requires s.ready && s.last == Some(ONLINE) && forall i :: 0 <= i < |es| ==> Repeats(s, es[i])
    ensures Run(s, es).shown == s.shown && Run(s, es).ready
    decreases |es|
  {
    if es != [] {
      assert Repeats(s, es[0]);
      OfflineStays(Step(s, es[0]), es[1..]);
    }
  }
}
