/**
 * How many TREEXML commands one request can cause: a potential that pays for every automatic send,
 * and the bound it gives over all interleavings. TreeWorstCase shows the bound is exact.
 */
module TreeBound {
  import opened Options
  import opened TreeProtocol
  import opened TreeInvariant
  import opened TreeGuarantees

  function ResyncsUsed(v: View): nat {
    if v.resync.Some? then v.resync.value.attempts else 0
  }

  /** What each re-fetch still in the budget can cost: one fetch and all its retries. `unknown` is never parsed. */
  function LaterFetches(c: Config, n: NetworkId, v: View): int {
    if n == Unknown then 0 else (c.maxResyncs - ResyncsUsed(v)) * (c.maxRetries + 1)
  }

  /** The automatic sends a network can still cause without anyone asking for it again. */
  function Potential(c: Config, n: NetworkId, v: View): int {
    (if v.InFlight() || v.retry || v.resyncTimer then LaterFetches(c, n, v) else 0)
    + (if v.InFlight() then c.maxRetries - v.attempts.GetOr(0)
       else if v.retry then 1 + c.maxRetries - v.attempts.GetOr(0)
       else 0)
    + (if v.resyncTimer then 1 + c.maxRetries else 0)
  }

  lemma ProductStep(x: int, y: nat)
    ensures (x - 1) * y == x * y - y
  {
  }

  lemma ProductNat(x: nat, y: nat)
    ensures x * y >= 0
  {
  }

  lemma PotentialIsNat(c: Config, n: NetworkId, v: View)
    requires v.Inv(c, n)
    ensures Potential(c, n, v) >= 0
    ensures LaterFetches(c, n, v) >= 0
  {
    ProductNat(c.maxResyncs - ResyncsUsed(v), c.maxRetries + 1);
  }

  /** Every move that is not an outside request or a stray start pays for its send out of the potential. */
  lemma MovePays(c: Config, n: NetworkId, v: View, move: Move)
    requires v.Inv(c, n) && CanMove(v, n, move) && !move.Asked? && !move.Strayed? && (n == Unknown ==> !v.parsing)
    ensures var v' := Apply(c, n, v, move); v'.sends + Potential(c, n, v') <= v.sends + Potential(c, n, v)
  {
    PotentialIsNat(c, n, v);
    if move.TreeAccepted? {
      ProductStep(c.maxResyncs - ResyncsUsed(v), c.maxRetries + 1);
    }
  }

  /** A response nobody asked for opens one budget of retries for `unknown`, and sends nothing yet. */
  lemma StrayCosts(c: Config, v: View)
    requires v.Inv(c, Unknown) && CanMove(v, Unknown, Strayed)
    ensures var v' := Apply(c, Unknown, v, Strayed);
            v'.sends == v.sends && Potential(c, Unknown, v') <= Potential(c, Unknown, v) + c.maxRetries
  {
  }

  function SendsOf(s: State, n: NetworkId): nat {
    multiset(s.sent)[n]
  }

  /** An outside trigger for this network: `trigger`, a network-created or sync event, a manual gettree. */
  predicate Asks(e: Event, n: NetworkId) {
    (e.Request? || e.NetworkCreated? || e.SyncComplete?) && e.network == n
  }

  predicate Unasked(es: seq<Event>, n: NetworkId) {
    forall i :: 0 <= i < |es| ==> !Asks(es[i], n)
  }

  /** A stream nobody is waiting for begins: no request is queued and no session open. */
  predicate StrayStart(s: State, e: Event) {
    (e.TreeStart? || e.TreeData?) && s.pending == [] && s.active.None?
  }

  function StrayStarts(c: Config, s: State, es: seq<Event>): nat
    requires CanRun(c, s, es)
    decreases |es|
  {
    if es == [] then 0
    else (if StrayStart(s, es[0]) then 1 else 0) + StrayStarts(c, Step(c, s, es[0]), es[1..])
  }

  /** What stray starts can add: a budget of retries each, and only for `unknown`. */
  function StrayCost(c: Config, s: State, es: seq<Event>, n: NetworkId): nat
    requires CanRun(c, s, es)
  {
    if n == Unknown then StrayStarts(c, s, es) * c.maxRetries else 0
  }

  lemma StepPays(c: Config, s: State, e: Event, n: NetworkId)
    requires LocalInv(c, s, n) && Enabled(s, e) && Spares(e, n) && !Asks(e, n)
    ensures var s' := Step(c, s, e);
            SendsOf(s', n) + Potential(c, n, ViewOf(s', n)) <=
            SendsOf(s, n) + Potential(c, n, ViewOf(s, n)) + if n == Unknown && StrayStart(s, e) then c.maxRetries else 0
  {
    hide Step, Apply;
    var v, move := ViewOf(s, n), MoveOf(c, s, e, n);
    SparingStepProjects(c, s, e, n);
    if move.Strayed? {
      StrayCosts(c, v);
    } else {
      MovePays(c, n, v, move);
    }
  }

  /**
   * Over any run in which nobody asks for network n, whatever the other networks, C-Gate and the
   * timers do, and whichever other networks are removed, the commands sent for n never exceed its
   * potential at the start; for `unknown`, plus one budget of retries for each stray start.
   */
  lemma {:induction false} SendsBounded(c: Config, s: State, es: seq<Event>, n: NetworkId)
    requires LocalInv(c, s, n) && CanRun(c, s, es) && Sparing(es, n) && Unasked(es, n)
    ensures SendsOf(Run(c, s, es), n) <= SendsOf(s, n) + Potential(c, n, ViewOf(s, n)) + StrayCost(c, s, es, n)
    decreases |es|
  {
    hide Step, Potential, StrayStart, Loose, View.Inv, Asks, ViewOf, SendsOf;
    if es == [] {
      PotentialIsNat(c, n, ViewOf(s, n));
    } else {
      StepPays(c, s, es[0], n);
      SparingStepKeeps(c, s, es[0], n);
      var s1, rest := Step(c, s, es[0]), es[1..];
      SendsBounded(c, s1, rest, n);
      ProductStep(StrayStarts(c, s1, rest) + 1, c.maxRetries);
    }
  }

  /** The headline bound: one request for an idle network costs at most this many commands. */
  function RequestBudget(c: Config, n: NetworkId): nat {
    (c.maxRetries + 1) * (if n == Unknown then 1 else c.maxResyncs + 1)
  }

  ghost predicate AtRest(s: State, n: NetworkId) {
    var v := ViewOf(s, n);
    !v.InFlight() && !v.retry && !v.resyncTimer
  }

  lemma OneRequestIsBounded(c: Config, s: State, es: seq<Event>, n: NetworkId)
    requires LocalInv(c, s, n) && AtRest(s, n)
    requires CanRun(c, s, [Request(n)] + es) && Sparing(es, n) && Unasked(es, n)
    ensures var all := [Request(n)] + es;
            SendsOf(Run(c, s, all), n) <= SendsOf(s, n) + RequestBudget(c, n) + StrayCost(c, s, all, n)
  {
    var s1 := Step(c, s, Request(n));
    assert ([Request(n)] + es)[1..] == es;
    SparingStepProjects(c, s, Request(n), n);
    SparingStepKeeps(c, s, Request(n), n);
    SendsBounded(c, s1, es, n);
    RequestPotential(c, n, ViewOf(s, n));
  }

  /** Nobody asked and nothing strayed in: a network at rest costs nothing at all. */
  lemma UnaskedIsSilent(c: Config, s: State, es: seq<Event>, n: NetworkId)
    requires LocalInv(c, s, n) && AtRest(s, n) && CanRun(c, s, es) && Sparing(es, n) && Unasked(es, n)
    requires n != Unknown || StrayStarts(c, s, es) == 0
    ensures SendsOf(Run(c, s, es), n) == SendsOf(s, n)
  {
    hide Run, CanRun, LocalInv, Sparing, Unasked, StrayStarts, SendsOf, ViewOf;
    SendsBounded(c, s, es, n);
    SendsGrow(c, s, es, n);
  }

  lemma StepSends(c: Config, s: State, e: Event, n: NetworkId)
    requires LocalInv(c, s, n) && Enabled(s, e) && Spares(e, n)
    ensures SendsOf(Step(c, s, e), n) >= SendsOf(s, n)
  {
    hide Step, Apply;
    SparingStepProjects(c, s, e, n);
    MoveSends(c, n, ViewOf(s, n), MoveOf(c, s, e, n));
  }

  lemma ViewSends(c: Config, v: View, unsynced: bool, signature: string)
    ensures v.Queue().sends >= v.sends && v.Dequeue().sends == v.sends
    ensures v.Fail(c).sends == v.sends && v.Accept(c, unsynced, signature).sends == v.sends
  {
  }

  lemma MoveSends(c: Config, n: NetworkId, v: View, move: Move)
    ensures Apply(c, n, v, move).sends >= v.sends
  {
    hide View.Queue, View.Dequeue, View.Fail, View.Accept;
    match move
    case Asked(renew) => ViewSends(c, if renew then v.(resync := None, resyncTimer := false) else v, false, "");
    case RetryFired => ViewSends(c, v.(retry := false), false, "");
    case ResyncFired => ViewSends(c, v.(resyncTimer := false), false, "");
    case Rejected => ViewSends(c, v.(watchdog := false), false, "");
    case Started => ViewSends(c, v, false, "");
    case StreamFailed => ViewSends(c, v.(streaming := false), false, "");
    case TreeRefused => ViewSends(c, v.(jobs := []), false, "");
    case TreeAccepted(unsynced, signature) => ViewSends(c, v.(jobs := []), unsynced, signature);
    case _ =>
  }

  lemma {:induction false} SendsGrow(c: Config, s: State, es: seq<Event>, n: NetworkId)
    requires LocalInv(c, s, n) && CanRun(c, s, es) && Sparing(es, n)
    ensures SendsOf(Run(c, s, es), n) >= SendsOf(s, n)
    decreases |es|
  {
    if es != [] {
      hide Step;
      StepSends(c, s, es[0], n);
      SparingStepKeeps(c, s, es[0], n);
      hide LocalInv, SendsOf;
      SendsGrow(c, Step(c, s, es[0]), es[1..], n);
    }
  }

  lemma RequestPotential(c: Config, n: NetworkId, v: View)
    requires v.Inv(c, n) && !v.InFlight() && !v.retry && !v.resyncTimer
    ensures v.Queue().sends + Potential(c, n, v.Queue()) <= v.sends + RequestBudget(c, n)
  {
    var left, width := c.maxResyncs - ResyncsUsed(v), c.maxRetries + 1;
    ProductMonotone(left, c.maxResyncs, width);
    ProductNat(c.maxResyncs, width);
    assert n != Unknown ==> RequestBudget(c, n) == c.maxResyncs * width + width;
  }

  lemma ProductMonotone(x: nat, y: nat, z: nat)
    requires x <= y
    ensures x * z <= y * z
  {
  }
}
