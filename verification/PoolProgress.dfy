/**
 The library's own steps (everything but new calls, the start of a shutdown and
 spurious wake-ups) use up a measure, so they always come to rest; and at rest nothing
 is left undone but what the queue lost.
 */
module PoolProgress {
  import opened Common
  import opened QueueModel
  import opened PoolMachine
  import opened PoolInvariant
  import opened StepFrames
  import opened PoolSafety
  import PoolRefinement

  // ------------------------------------------------------------------------
  // The measure

  ghost function ClientRank(pc: ClientPc): nat {
    match pc
    case AtEnqueueLock => 21
    case InEnqueue => 20      // pays for the item (12) and the signal (2)
    case AtEnqueueUnlock => 5
    case AtLinkLock => 4
    case InLink => 3          // pays for one more callback
    case AtLinkUnlock => 1
    case Returned => 0
  }

  ghost function TicketRank(k: Ticket): nat {
    ClientRank(k.client)
    + (if k.place == Queued then 12 else 0)
    + (if k.headRead == None then |k.chain| else 0)
  }

  ghost function WorkerRank(pc: WorkerPc): nat {
    match pc
    case AtPopLock => 5
    case InPop(_) => 4
    case Blocked => 3
    case Woken(_) => 5
    case AtPopUnlock(_) => 15
    case AtRun(_) => 14
    case AtFutureLock(_, _) => 13
    case InSetValue(_, _) => 12
    case InSetFulfilled(_) => 11
    case InSetResolved(_) => 10
    case InBroadcast(_) => 9
    case AtFutureUnlock(_) => 8
    case AtHeadRead(_) => 7
    case InWalk(_, k) => 6 + k
    case CancelWoken => 2
    case CancelUnlock => 1
    case Dead => 0
  }

  ghost function CallRank(resolved: bool, pc: CallPc): nat {
    match pc
    case AtWaitLock => 8
    case InWait => if resolved then 3 else 6
    case Asleep => 5
    case Roused => if resolved then 4 else 7
    case AtWaitUnlock => 2
    case AtRead => 1
    case Waited => 0
    case Got(_) => 0
    case AtAddLock => 4
    case InAdd => 3        // pays for one more callback
    case AtAddUnlock => 1
    case Added => 0
  }

  ghost function IsResolved(s: Pool, t: nat): bool {
    t < |s.tickets| && s.tickets[t].resolved
  }

  ghost function DestroyerRank(s: Pool): nat {
    var left := |Reach(s.queue)|;
    match s.destroyer
    case NotStarted => 0
    case AtCancel(k) => 2 * k + 2 + left
    case AtJoin(k) => 2 * k + 1 + left
    case Draining(k) => if k <= left then 1 + left - k else 1
    case Destroyed => 0
  }

  ghost function TicketRanks(s: Pool): seq<nat> {
    seq(|s.tickets|, t requires 0 <= t < |s.tickets| => TicketRank(s.tickets[t]))
  }

  ghost function WorkerRanks(s: Pool): seq<nat> {
    seq(|s.workers|, w requires 0 <= w < |s.workers| => WorkerRank(s.workers[w]))
  }

  ghost function CallRanks(s: Pool): seq<nat> {
    seq(|s.calls|, r requires 0 <= r < |s.calls| => CallRank(IsResolved(s, s.calls[r].t), s.calls[r].pc))
  }

  /** How much the library still has to do. */
  ghost function Measure(s: Pool): nat {
    Sum(TicketRanks(s)) + Sum(WorkerRanks(s)) + Sum(CallRanks(s)) + DestroyerRank(s)
  }

  // ------------------------------------------------------------------------
  // How one change moves one sum

  ghost function TicketRankAt(s: Pool, t: nat): nat {
    if t < |s.tickets| then TicketRank(s.tickets[t]) else 0
  }

  ghost function WorkerRankAt(s: Pool, w: nat): nat {
    if w < |s.workers| then WorkerRank(s.workers[w]) else 0
  }

  lemma TicketMoves(s: Pool, s': Pool, t: nat)
    requires |s'.tickets| == |s.tickets|
    requires forall u :: 0 <= u < |s.tickets| && u != t ==> s'.tickets[u] == s.tickets[u]
    ensures Sum(TicketRanks(s')) == Sum(TicketRanks(s)) - TicketRankAt(s, t) + TicketRankAt(s', t)
  {
    if t < |s.tickets| {
      SumUpdate(TicketRanks(s), t, TicketRank(s'.tickets[t]));
      assert TicketRanks(s') == TicketRanks(s)[t := TicketRank(s'.tickets[t])];
    } else {
      assert TicketRanks(s') == TicketRanks(s);
    }
  }

  lemma WorkerMoves(s: Pool, s': Pool, w: nat)
    requires |s'.workers| == |s.workers|
    requires forall v :: 0 <= v < |s.workers| && v != w ==> s'.workers[v] == s.workers[v]
    ensures Sum(WorkerRanks(s')) == Sum(WorkerRanks(s)) - WorkerRankAt(s, w) + WorkerRankAt(s', w)
  {
    if w < |s.workers| {
      SumUpdate(WorkerRanks(s), w, WorkerRank(s'.workers[w]));
      assert WorkerRanks(s') == WorkerRanks(s)[w := WorkerRank(s'.workers[w])];
    } else {
      assert WorkerRanks(s') == WorkerRanks(s);
    }
  }

  /** Resolving futures and rousing those who sleep on resolved ones brings calls forward. */
  ghost predicate CallsMovedOn(s: Pool, s': Pool) {
    && |s'.calls| == |s.calls|
    && (forall t: nat :: IsResolved(s, t) ==> IsResolved(s', t))
    && (forall r :: 0 <= r < |s.calls| ==>
          || s'.calls[r] == s.calls[r]
          || (s.calls[r].pc == Asleep && s'.calls[r] == s.calls[r].(pc := Roused) && IsResolved(s', s.calls[r].t)))
  }

  lemma CallsMoveOn(s: Pool, s': Pool)
    requires CallsMovedOn(s, s')
    ensures Sum(CallRanks(s')) <= Sum(CallRanks(s))
  {
    SumAtMost(CallRanks(s'), CallRanks(s), 0);
  }

  lemma CallMoves(s: Pool, s': Pool, r: nat)
    requires r < |s.calls| && |s'.calls| == |s.calls|
    requires forall q :: 0 <= q < |s.calls| && q != r ==> s'.calls[q] == s.calls[q]
    requires forall t: nat :: IsResolved(s', t) <==> IsResolved(s, t)
    ensures Sum(CallRanks(s')) == Sum(CallRanks(s))
      - CallRank(IsResolved(s, s.calls[r].t), s.calls[r].pc) + CallRank(IsResolved(s, s'.calls[r].t), s'.calls[r].pc)
  {
    var rank := CallRank(IsResolved(s, s'.calls[r].t), s'.calls[r].pc);
    SumUpdate(CallRanks(s), r, rank);
    assert CallRanks(s') == CallRanks(s)[r := rank];
  }

  // ------------------------------------------------------------------------
  // Every internal step uses up some of the measure

  /** At most ticket t and worker w change, and together they come closer to rest. */
  ghost predicate Local(s: Pool, s': Pool, t: nat, w: nat) {
    && |s'.tickets| == |s.tickets| && |s'.workers| == |s.workers|
    && (forall u :: 0 <= u < |s.tickets| && u != t ==> s'.tickets[u] == s.tickets[u])
    && (forall v :: 0 <= v < |s.workers| && v != w ==> s'.workers[v] == s.workers[v])
    && TicketRankAt(s', t) + WorkerRankAt(s', w) < TicketRankAt(s, t) + WorkerRankAt(s, w)
    && CallsMovedOn(s, s') && DestroyerRank(s') <= DestroyerRank(s)
  }

  lemma LocalProgress(s: Pool, s': Pool, t: nat, w: nat)
    requires Local(s, s', t, w)
    ensures Measure(s') < Measure(s)
  {
    TicketMoves(s, s', t);
    WorkerMoves(s, s', w);
    CallsMoveOn(s, s');
  }

  lemma EnqueueLocal(s: Pool, t: nat, wake: Option<nat>, s': Pool)
    requires QueueInv(s) && DestroyInv(s) && ClientReady(s, t, wake) && s.tickets[t].client == InEnqueue
    requires s' == ClientNext(s, t, wake)
    ensures Local(s, s', t, if wake.Some? then wake.value else |s.workers|)
  {}

  lemma ClientLocal(s: Pool, t: nat, wake: Option<nat>, s': Pool)
    requires ClientReady(s, t, wake) && s.tickets[t].client != InEnqueue && s' == ClientNext(s, t, wake)
    ensures Local(s, s', t, |s.workers|)
  {}

  lemma PopLocal(s: Pool, w: nat, s': Pool)
    requires QueueInv(s) && DestroyInv(s) && PopsOr(s, s', w)
    ensures Local(s, s', if Carries(s'.workers[w]).Some? then Carries(s'.workers[w]).value else |s.tickets|, w)
  {
    assert s.workers[w] != Dead && w < JoinedFrom(s);
    if !MovesInPop(s, s', w) {
      assert PlaceIs(s, Reach(s.queue)[0], Queued);
    }
  }

  lemma WorkLocal(s: Pool, w: nat, s': Pool, t: nat)
    requires CarryInv(s) && TicketInv(s) && WorkerReady(s, w) && s' == WorkerNext(s, w) && Works(s, s', w, t)
    ensures Local(s, s', t, w)
  {
    assert PlaceIs(s, t, Held(w)) && TicketOk(s, t);
  }

  lemma CancelProgress(s: Pool, w: nat, heir: Option<nat>, s': Pool)
    requires CancelReady(s, w, heir) && s' == CancelNext(s, w, heir)
    ensures Measure(s') < Measure(s)
  {
    var mid := s.(workers := Signal(s.workers, heir));
    WorkerMoves(s, mid, if heir.Some? then heir.value else |s.workers|);
    WorkerMoves(mid, s', w);
    assert TicketRanks(s') == TicketRanks(s) && CallRanks(s') == CallRanks(s);
  }

  /** A call uses up its own rank, which covers the callback it may link. */
  lemma CallLocal(s: Pool, r: nat, s': Pool)
    requires Inv(s) && CallReady(s, r) && s' == CallNext(s, r)
    ensures var t := s.calls[r].t;
      && s'.calls[r].t == t
      && TicketRankAt(s', t) + CallRank(IsResolved(s, t), s'.calls[r].pc)
       < TicketRankAt(s, t) + CallRank(IsResolved(s, t), s.calls[r].pc)
  {}

  lemma CallProgress(s: Pool, r: nat, s': Pool)
    requires Inv(s) && CallReady(s, r) && s' == CallNext(s, r)
    ensures Measure(s') < Measure(s)
  {
    CallTouches(s, r, s');
    CallLocal(s, r, s');
    TicketMoves(s, s', s.calls[r].t);
    CallMoves(s, s', r);
  }

  lemma DestroyProgress(s: Pool, s': Pool)
    requires DestroyInv(s) && DestroyReady(s) && s' == DestroyNext(s)
    ensures Measure(s') < Measure(s)
  {
    DestroyMovesOn(s, s');
    TicketMoves(s, s', |s.tickets|);
    WorkerMoves(s, s', |s.workers|);
    CallsMoveOn(s, s');
  }

  lemma DestroyMovesOn(s: Pool, s': Pool)
    requires DestroyInv(s) && DestroyReady(s) && s' == DestroyNext(s)
    ensures DestroyerRank(s') < DestroyerRank(s)
    ensures s'.tickets == s.tickets && s'.workers == s.workers && s'.calls == s.calls
  {}

  lemma StepProgress(s: Pool, e: Step, s': Pool)
    requires Inv(s) && Internal(e) && Enabled(s, e) && s' == After(s, e)
    ensures Measure(s') < Measure(s)
  {
    match e
    case ClientGo(t, wake) =>
      if s.tickets[t].client == InEnqueue {
        EnqueueLocal(s, t, wake, s');
        LocalProgress(s, s', t, if wake.Some? then wake.value else |s.workers|);
      } else {
        ClientLocal(s, t, wake, s');
        LocalProgress(s, s', t, |s.workers|);
      }
    case WorkerGo(w) =>
      if InQueuePop(s.workers[w]) {
        PopTouches(s, w, s');
        PopLocal(s, w, s');
        LocalProgress(s, s', if Carries(s'.workers[w]).Some? then Carries(s'.workers[w]).value else |s.tickets|, w);
      } else {
        var t := Carries(s.workers[w]).value;
        WorkTouches(s, w, s');
        WorkLocal(s, w, s', t);
        LocalProgress(s, s', t, w);
      }
    case CallGo(r) => CallProgress(s, r, s');
    case Cancel(w, heir) => CancelProgress(s, w, heir, s');
    case DestroyGo => DestroyProgress(s, s');
  }

  lemma StepGoesOn(s: Pool, e: Step, s': Pool)
    requires Inv(s) && Internal(e) && Enabled(s, e) && s' == After(s, e)
    ensures Inv(s') && Measure(s') < Measure(s)
  {
    StepKeepsInv(s, e, s');
    StepProgress(s, e, s');
  }

  lemma {:induction false} RunProgress(s: Pool, es: seq<Step>)
    requires Inv(s) && Feasible(s, es) && forall i :: 0 <= i < |es| ==> Internal(es[i])
    ensures |es| + Measure(Run(s, es)) <= Measure(s)
    decreases |es|
  {
    if es != [] {
      StepGoesOn(s, es[0], After(s, es[0]));
      RunProgress(After(s, es[0]), es[1..]);
    }
  }

  // ------------------------------------------------------------------------
  // At rest

  ghost predicate AtRest(s: Pool) {
    forall e :: Internal(e) ==> !Enabled(s, e)
  }

  lemma SomeoneToWake(s: Pool) returns (wake: Option<nat>)
    ensures CanSignal(s, wake)
  {
    if w: nat :| w < |s.workers| && s.workers[w] == Blocked {
      wake := Some(w);
    } else {
      wake := None;
    }
  }

  /** A worker is stopped only by sleep, by death, or by a mutex that another thread holds. */
  lemma WorkerCanGo(s: Pool, w: nat)
    requires Inv(s) && w < |s.workers| && s.workers[w] != Blocked && s.workers[w] != Dead
    requires s.workers[w].AtPopLock? || s.workers[w].Woken? || s.workers[w].CancelWoken? ==> s.mutex == None
    requires forall t :: 0 <= t < |s.tickets| && s.workers[w].AtFutureLock? && s.workers[w].t == t ==>
      s.tickets[t].mutex == None
    ensures WorkerReady(s, w)
  {
    var held := Carries(s.workers[w]);
    if held.Some? {
      assert PlaceIs(s, held.value, Held(w)) && TicketOk(s, held.value);
    }
    if s.workers[w].InPop? && Reach(s.queue) != [] {
      assert PlaceIs(s, Reach(s.queue)[0], Queued);
    }
  }

  /** Whoever holds a mutex can itself take its next step: no critical section waits for anything. */
  lemma HolderCanGo(s: Pool, a: Agent)
    requires Inv(s) && Holding(s, a).Some?
    ensures match a
            case Client(t) => exists wake :: Enabled(s, ClientGo(t, wake))
            case Worker(w) => Enabled(s, WorkerGo(w))
            case Caller(r) => Enabled(s, CallGo(r))
  {
    match a
    case Client(t) =>
      var wake := SomeoneToWake(s);
      assert Enabled(s, ClientGo(t, wake));
    case Worker(w) =>
      WorkerCanGo(s, w);
      assert Enabled(s, WorkerGo(w));
    case Caller(r) =>
      assert CallOk(s, s.calls[r]);
      assert Enabled(s, CallGo(r));
  }

  /** Hence no deadlock: at rest no mutex is held. */
  lemma NothingHeldAtRest(s: Pool)
    requires Inv(s) && AtRest(s)
    ensures s.mutex == None && forall t :: 0 <= t < |s.tickets| ==> s.tickets[t].mutex == None
  {
    forall m ensures Owner(s, m) == None {
      if Owner(s, m).Some? {
        HolderCanGo(s, Owner(s, m).value);
      }
    }
    assert Owner(s, QueueMutex) == s.mutex;
    assert forall t :: 0 <= t < |s.tickets| ==> Owner(s, FutureMutex(t)) == s.tickets[t].mutex;
  }

  lemma WorkersAtRest(s: Pool)
    requires Inv(s) && AtRest(s)
    ensures forall w :: 0 <= w < |s.workers| ==> s.workers[w] == Blocked || s.workers[w] == Dead
  {
    NothingHeldAtRest(s);
    forall w | 0 <= w < |s.workers| ensures s.workers[w] == Blocked || s.workers[w] == Dead {
      if s.workers[w] != Blocked && s.workers[w] != Dead {
        WorkerCanGo(s, w);
        assert Enabled(s, WorkerGo(w));
      }
    }
  }

  lemma {:induction false} NoneSignalled(workers: seq<WorkerPc>)
    requires forall w :: 0 <= w < |workers| ==> workers[w] == Blocked
    ensures Signalled(workers) == 0
  {
    if workers != [] {
      NoneSignalled(workers[..|workers| - 1]);
    }
  }

  lemma ClientsAtRest(s: Pool, t: nat)
    requires Inv(s) && AtRest(s) && t < |s.tickets|
    ensures s.tickets[t].client == Returned
  {
    NothingHeldAtRest(s);
    var wake := SomeoneToWake(s);
    assert !Enabled(s, ClientGo(t, wake));
  }

  /** The call is over, with the outcome that its kind of call has on this future. */
  ghost predicate HasReturned(c: Call, k: Ticket) {
    match c.request
    case Wait => c.pc == Waited && k.resolved
    case Get => c.pc == Got(Result(k)) && k.resolved
    case Add(_) => c.pc == Added
  }

  lemma CallsAtRest(s: Pool, r: nat)
    requires Inv(s) && AtRest(s) && r < |s.calls|
    ensures s.calls[r].t < |s.tickets|
    ensures s.calls[r].pc == Asleep ==> !s.calls[r].request.Add? && !s.tickets[s.calls[r].t].resolved
    ensures s.calls[r].pc != Asleep ==> HasReturned(s.calls[r], s.tickets[s.calls[r].t])
  {
    NothingHeldAtRest(s);
    WorkersAtRest(s);
    assert CallOk(s, s.calls[r]);
    assert TicketOk(s, s.calls[r].t);
    assert !Enabled(s, CallGo(r));
  }

  /** future_add_callback returns always, future_wait and future_get exactly if the queue has not lost the ticket. */
  ghost predicate AnsweredAtRest(s: Pool, c: Call)
    requires c.t < |s.tickets|
  {
    if c.request.Add? || c.t !in Missing(s) then HasReturned(c, s.tickets[c.t]) else c.pc == Asleep
  }

  /**
   A pool that has come to rest while it serves has served everything: its queue is
   empty, every worker sleeps, every ticket the queue did not lose is resolved, and
   every call on such a ticket has returned.
   */
  lemma ServedAtRest(s: Pool)
    requires IsReachable(s) && AtRest(s) && s.destroyer == NotStarted
    ensures Reach(s.queue) == [] && forall w :: 0 <= w < |s.workers| ==> s.workers[w] == Blocked
    ensures forall t :: 0 <= t < |s.tickets| ==> (s.tickets[t].resolved <==> t !in Missing(s))
    ensures forall r :: 0 <= r < |s.calls| ==>
      s.calls[r].t < |s.tickets| && AnsweredAtRest(s, s.calls[r])
    ensures s.variant == Repaired ==> forall t :: 0 <= t < |s.tickets| ==> s.tickets[t].resolved
  {
    ReachableInv(s);
    WorkersAtRest(s);
    assert s.workers[0] == Blocked && SomeBlocked(s);
    NoneSignalled(s.workers);
    forall t | 0 <= t < |s.tickets| ensures s.tickets[t].resolved <==> t !in Missing(s) {
      ClientsAtRest(s, t);
      assert PlaceIs(s, t, s.tickets[t].place) && TicketOk(s, t);
    }
    forall r | 0 <= r < |s.calls|
      ensures s.calls[r].t < |s.tickets| && AnsweredAtRest(s, s.calls[r])
    {
      CallsAtRest(s, r);
    }
  }

  /** A shutdown that has come to rest is complete. */
  lemma ShutDownAtRest(s: Pool)
    requires IsReachable(s) && AtRest(s) && s.destroyer != NotStarted
    ensures s.destroyer == Destroyed
  {
    ReachableInv(s);
    WorkersAtRest(s);
    assert !Enabled(s, DestroyGo);
    assert s.destroyer.AtJoin? ==> !Enabled(s, Cancel(s.destroyer.k - 1, None));
  }

  /** However the library's threads interleave, they take at most Measure(s) steps before they rest. */
  lemma EveryRunIsFinite(s: Pool, es: seq<Step>)
    requires IsReachable(s) && Feasible(s, es) && forall i :: 0 <= i < |es| ==> Internal(es[i])
    ensures |es| <= Measure(s)
  {
    ReachableInv(s);
    RunProgress(s, es);
  }

  ghost predicate RestsAfter(s: Pool, es: seq<Step>) {
    Feasible(s, es) && (forall i :: 0 <= i < |es| ==> Internal(es[i])) && AtRest(Run(s, es))
  }

  lemma RestsOneLater(s: Pool, e: Step, rest: seq<Step>)
    requires Internal(e) && Enabled(s, e) && RestsAfter(After(s, e), rest)
    ensures RestsAfter(s, [e] + rest)
  {}

  lemma RestsLater(s: Pool, e: Step)
    requires Internal(e) && Enabled(s, e) && exists rest: seq<Step> :: RestsAfter(After(s, e), rest)
    ensures exists es: seq<Step> :: RestsAfter(s, es)
  {
    var rest: seq<Step> :| RestsAfter(After(s, e), rest);
    RestsOneLater(s, e, rest);
  }

  /** ... and from every state of a run they can get there. */
  lemma {:induction false} SomeRunRests(s: Pool)
    requires Inv(s)
    ensures exists es: seq<Step> :: RestsAfter(s, es)
    decreases Measure(s)
  {
    if e :| Internal(e) && Enabled(s, e) {
      var s' := After(s, e);
      StepGoesOn(s, e, s');
      SomeRunRests(s');
      RestsLater(s, e);
    } else {
      assert RestsAfter(s, []);
    }
  }

  // ------------------------------------------------------------------------
  // Which submissions are answered

  /**
   Whether a future is ever resolved is settled by one test at its enqueue: in every
   continuation that comes to rest while the pool serves, it is resolved exactly if the
   queue was not Detached then.
   */
  lemma ResolvedExactlyWhenInTime(s: Pool, t: nat, wake: Option<nat>, es: seq<Step>)
    requires IsReachable(s) && ClientReady(s, t, wake) && s.tickets[t].client == InEnqueue
    requires Feasible(ClientNext(s, t, wake), es)
    requires AtRest(Run(ClientNext(s, t, wake), es)) && Run(ClientNext(s, t, wake), es).destroyer == NotStarted
    ensures var z := Run(ClientNext(s, t, wake), es);
      t < |z.tickets| && (z.tickets[t].resolved <==> !s.queue.Detached?)
  {
    PoolRefinement.EnqueueDecides(s, t, wake, es);
    ReachableStep(s, ClientGo(t, wake));
    ReachableOn(ClientNext(s, t, wake), es);
    ServedAtRest(Run(ClientNext(s, t, wake), es));
  }
}
