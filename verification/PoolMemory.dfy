/** Which steps, and which runs of the pool, touch freed memory. */
module PoolMemory {
  import opened Common
  import opened QueueModel
  import opened PoolMachine
  import opened PoolInvariant
  import opened PoolSafety

  // ------------------------------------------------------------------------
  // One step

  /** The queue node `tail` points to, which an enqueue links behind. */
  ghost function TailNode(q: QueueState<nat>): set<Obj> {
    var nodes := if q.Detached? then Stray(q) else Reach(q);
    if nodes == [] then {} else {ItemNode(nodes[|nodes| - 1])}
  }

  /** The nodes a pop reads: the head and its successor. */
  ghost function HeadNodes(q: QueueState<nat>): set<Obj> {
    var nodes := Reach(q);
    (if |nodes| > 0 then {ItemNode(nodes[0])} else {}) + (if |nodes| > 1 then {ItemNode(nodes[1])} else {})
  }

  /** The nodes that one turn of the loop of queue_destroy reads or frees. */
  ghost function DrainUses(order: DrainOrder, s: Pool, k: nat): set<Obj> {
    var nodes := Reach(s.queue);
    (if order == FreeThenRead && 0 < k <= |nodes| then {ItemNode(nodes[k - 1])} else {})
    + (if k < |nodes| then {ItemNode(nodes[k])} else {})
  }

  /** The allocated objects that the step reads, writes or frees. */
  ghost function Uses(order: DrainOrder, s: Pool, e: Step): set<Obj>
    requires Enabled(s, e)
  {
    match e
    case ClientGo(t, _) =>
      (match s.tickets[t].client
       case AtEnqueueLock => {WorkQueue, ItemNode(t)}
       case InEnqueue => {WorkQueue, ItemNode(t)} + TailNode(s.queue)
       case AtEnqueueUnlock => {WorkQueue}
       case _ => {})
    case WorkerGo(w) =>
      (match s.workers[w]
       case AtRun(t) => {ItemNode(t), Closure(t)}
       case AtFutureLock(t, _) => {Closure(t), Promise(t)}
       case InPop(_) => {WorkQueue} + HeadNodes(s.queue)
       case InWalk(t, k) =>
         if k == 0 then {Closure(t)}
         else if s.tickets[t].chain[k - 1] == Cleanup then {Promise(t)}
         else {}
       case pc => if InQueuePop(pc) then {WorkQueue} else {})
    case Cancel(_, _) => {WorkQueue}
    case DestroyGo =>
      (match s.destroyer
       case AtCancel(k) => if k > 0 then {Executor(k - 1)} else {}
       case AtJoin(k) => {Executor(k - 1)}
       case Draining(k) => {WorkQueue} + DrainUses(order, s, k)
       case _ => {})
    case _ => {}
  }

  /** The step reads, writes or frees something that has been freed. */
  ghost predicate TouchesFreed(order: DrainOrder, s: Pool, e: Step)
    requires Enabled(s, e)
  {
    exists o :: o in Uses(order, s, e) && s.frees[o] > 0
  }

  /** The one step that may: after its first turn, the loop as written reads the node it has just freed. */
  ghost predicate ReadsTheNodeFreed(order: DrainOrder, s: Pool, e: Step) {
    order == FreeThenRead && e.DestroyGo? && s.destroyer.Draining? && s.destroyer.k > 0
  }

  lemma TailIsLive(s: Pool)
    requires QueueInv(s) && s.destroyer == NotStarted
    ensures forall o :: o in TailNode(s.queue) ==> !IsFreed(s, o)
  {
    var nodes := if s.queue.Detached? then Stray(s.queue) else Reach(s.queue);
    if nodes != [] {
      var u := nodes[|nodes| - 1];
      assert u in Reach(s.queue) || u in Missing(s);
      assert PlaceIs(s, u, Queued) || PlaceIs(s, u, Lost);
    }
  }

  lemma ClientUsesLive(order: DrainOrder, s: Pool, t: nat, wake: Option<nat>)
    requires QueueInv(s) && DestroyInv(s) && ClientReady(s, t, wake)
    ensures forall o :: o in Uses(order, s, ClientGo(t, wake)) ==> !IsFreed(s, o)
  {
    if !PastEnqueue(s.tickets[t].client) {
      assert s.destroyer == NotStarted;
      assert s.tickets[t].client in {AtEnqueueLock, InEnqueue} ==> PlaceIs(s, t, Unqueued);
      TailIsLive(s);
    }
  }

  lemma PopUsesLive(order: DrainOrder, s: Pool, w: nat)
    requires Inv(s) && WorkerReady(s, w) && InQueuePop(s.workers[w])
    ensures forall o :: o in Uses(order, s, WorkerGo(w)) ==> !IsFreed(s, o)
  {
    assert s.workers[w] != Dead && w < JoinedFrom(s);
    var q := Reach(s.queue);
    forall i | 0 <= i < |q| ensures !IsFreed(s, ItemNode(q[i])) {
      assert PlaceIs(s, q[i], Queued);
    }
  }

  lemma WorkUsesLive(order: DrainOrder, s: Pool, w: nat)
    requires Inv(s) && WorkerReady(s, w) && !InQueuePop(s.workers[w])
    ensures forall o :: o in Uses(order, s, WorkerGo(w)) ==> !IsFreed(s, o)
  {
    var t := Carries(s.workers[w]).value;
    assert PlaceIs(s, t, Held(w)) && TicketOk(s, t);
    if s.workers[w].InWalk? {
      DownMembers(s.tickets[t].headRead.value, s.workers[w].k, 0);
    }
  }

  lemma DestroyUsesLive(order: DrainOrder, s: Pool)
    requires Inv(s) && DestroyReady(s)
    ensures forall o :: o in Uses(order, s, DestroyGo) ==>
      (IsFreed(s, o) <==> ReadsTheNodeFreed(order, s, DestroyGo) && o == ItemNode(Reach(s.queue)[s.destroyer.k - 1]))
  {
    if s.destroyer.Draining? {
      var k, nodes := s.destroyer.k, Reach(s.queue);
      assert forall i :: 0 <= i < |nodes| ==> PlaceIs(s, nodes[i], Queued);
      assert k > 0 ==> nodes[..k][k - 1] == nodes[k - 1];
    }
  }

  /** A step uses a freed object only if it is that one, and then only that node. */
  lemma UsesLive(order: DrainOrder, s: Pool, e: Step)
    requires Inv(s) && Enabled(s, e)
    ensures forall o :: o in Uses(order, s, e) ==>
      (IsFreed(s, o) <==> ReadsTheNodeFreed(order, s, e) && o == ItemNode(Reach(s.queue)[s.destroyer.k - 1]))
  {
    match e
    case ClientGo(t, wake) => ClientUsesLive(order, s, t, wake);
    case WorkerGo(w) =>
      if InQueuePop(s.workers[w]) {
        PopUsesLive(order, s, w);
      } else {
        WorkUsesLive(order, s, w);
      }
    case Cancel(w, _) => assert s.workers[w] != Dead && w < JoinedFrom(s);
    case DestroyGo => DestroyUsesLive(order, s);
    case _ =>
  }

  lemma FreesOnlyWhatItUses(order: DrainOrder, s: Pool, e: Step)
    requires Enabled(s, e)
    ensures forall o :: After(s, e).frees[o] > s.frees[o] ==> o in Uses(order, s, e)
  {}

  lemma TouchesFreedExactly(order: DrainOrder, s: Pool, e: Step)
    requires Inv(s) && Enabled(s, e)
    ensures TouchesFreed(order, s, e) <==> ReadsTheNodeFreed(order, s, e)
  {
    UsesLive(order, s, e);
    if ReadsTheNodeFreed(order, s, e) {
      var o := ItemNode(Reach(s.queue)[s.destroyer.k - 1]);
      assert o in Uses(order, s, e) && s.frees[o] == 1;
    }
  }

  /**
   A step of any thread touches freed memory if and only if it is the loop of
   queue_destroy, as written, on any turn but its first.  No step frees what it has not
   itself in use, or what is freed already.
   */
  lemma MemorySafe(order: DrainOrder, s: Pool, e: Step)
    requires IsReachable(s) && Enabled(s, e)
    ensures TouchesFreed(order, s, e) <==> ReadsTheNodeFreed(order, s, e)
    ensures forall o :: After(s, e).frees[o] > s.frees[o] ==> o in Uses(order, s, e) && s.frees[o] == 0
    ensures forall o :: After(s, e).frees[o] <= 1
  {
    ReachableInv(s);
    StepKeepsInv(s, e, After(s, e));
    TouchesFreedExactly(order, s, e);
    FreesOnlyWhatItUses(order, s, e);
  }

  // ------------------------------------------------------------------------
  // Whole runs

  /** No step of the run touches freed memory. */
  ghost predicate IsClean(order: DrainOrder, s: Pool, es: seq<Step>)
    requires Feasible(s, es)
    decreases |es|
  {
    es == [] || (!TouchesFreed(order, s, es[0]) && IsClean(order, After(s, es[0]), es[1..]))
  }

  /** queue_destroy has been called. */
  ghost predicate InDrain(s: Pool) {
    s.destroyer.Draining? || s.destroyer == Destroyed
  }

  /** From then on nobody puts anything into the queue or takes anything out. */
  lemma DrainFreezesQueue(s: Pool, e: Step, s': Pool)
    requires Inv(s) && InDrain(s) && Enabled(s, e) && s' == After(s, e)
    ensures s'.queue == s.queue && InDrain(s') && (s.destroyer == Destroyed ==> s'.destroyer == Destroyed)
  {}

  lemma {:induction false} QueueFrozen(s: Pool, es: seq<Step>)
    requires Inv(s) && InDrain(s) && Feasible(s, es)
    ensures Run(s, es).queue == s.queue
    decreases |es|
  {
    if es != [] {
      var s' := After(s, es[0]);
      StepKeepsInv(s, es[0], s');
      DrainFreezesQueue(s, es[0], s');
      QueueFrozen(s', es[1..]);
    }
  }

  lemma {:induction false} DestroyedIsClean(order: DrainOrder, s: Pool, es: seq<Step>)
    requires Inv(s) && s.destroyer == Destroyed && Feasible(s, es)
    ensures IsClean(order, s, es)
    decreases |es|
  {
    if es != [] {
      var s' := After(s, es[0]);
      TouchesFreedExactly(order, s, es[0]);
      StepKeepsInv(s, es[0], s');
      DrainFreezesQueue(s, es[0], s');
      DestroyedIsClean(order, s', es[1..]);
    }
  }

  lemma {:induction false} CleanExactly(order: DrainOrder, s: Pool, es: seq<Step>)
    requires Inv(s) && s.destroyer != Destroyed && Feasible(s, es) && Run(s, es).destroyer == Destroyed
    ensures IsClean(order, s, es) <==> order == ReadThenFree || Reach(Run(s, es).queue) == []
    decreases |es|
  {
    var e, s' := es[0], After(s, es[0]);
    TouchesFreedExactly(order, s, e);
    StepKeepsInv(s, e, s');
    if InDrain(s) {
      QueueFrozen(s, es);
    }
    if s'.destroyer == Destroyed {
      DestroyedIsClean(order, s', es[1..]);
      assert s.destroyer == Draining(|Reach(s.queue)|);
    } else {
      CleanExactly(order, s', es[1..]);
    }
  }

  /**
   A run that ends with the pool destroyed touches freed memory if and only if
   queue_destroy is as written and finds something in the queue.
   */
  lemma DestructionIsCleanExactly(order: DrainOrder, n: nat, variant: Variant, es: seq<Step>)
    requires 0 < n && Feasible(Initial(n, variant), es) && Run(Initial(n, variant), es).destroyer == Destroyed
    ensures IsClean(order, Initial(n, variant), es)
      <==> order == ReadThenFree || Reach(Run(Initial(n, variant), es).queue) == []
  {
    InitialInv(n, variant);
    CleanExactly(order, Initial(n, variant), es);
  }

  /** Seen from the start of queue_destroy: it touches freed memory exactly if it is as written and has work to do. */
  lemma DrainIsCleanExactly(order: DrainOrder, s: Pool, es: seq<Step>)
    requires IsReachable(s) && s.destroyer == Draining(0) && Feasible(s, es) && Run(s, es).destroyer == Destroyed
    ensures IsClean(order, s, es) <==> order == ReadThenFree || Reach(s.queue) == []
    ensures Run(s, es).queue == s.queue
  {
    ReachableInv(s);
    QueueFrozen(s, es);
    CleanExactly(order, s, es);
  }
}
