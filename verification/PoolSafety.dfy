/** What holds in every reachable state of the pool, and at every step out of one. */
module PoolSafety {
  import opened Common
  import opened QueueModel
  import opened PoolMachine
  import opened PoolInvariant
  import opened StepFrames
  import ClosureSteps
  import LockSteps
  import CallSteps
  import WakeSteps
  import ShutdownSteps

  // ------------------------------------------------------------------------
  // Reachable states

  /** Some run from future_pool_new(n) ends in s; future_pool_new asserts n > 0. */
  ghost predicate IsReachable(s: Pool) {
    exists n: nat, variant: Variant, es: seq<Step> ::
      0 < n && Feasible(Initial(n, variant), es) && s == Run(Initial(n, variant), es)
  }

  lemma InitialInv(n: nat, variant: Variant)
    ensures Inv(Initial(n, variant))
  {}

  lemma ClientKeepsInv(s: Pool, t: nat, wake: Option<nat>, s': Pool)
    requires Inv(s) && ClientReady(s, t, wake) && s' == ClientNext(s, t, wake)
    ensures Inv(s')
  {
    LockSteps.ClientKeepsLocks(s, t, wake, s');
    ClosureSteps.ClientKeepsQueue(s, t, wake, s');
    ClosureSteps.ClientKeepsCarry(s, t, wake, s');
    ClosureSteps.ClientKeepsTickets(s, t, wake, s');
    CallSteps.ClientKeepsCalls(s, t, wake, s');
    WakeSteps.ClientKeepsWakeUps(s, t, wake, s');
    ShutdownSteps.ClientKeepsOrder(s, t, wake, s');
    ShutdownSteps.ClientKeepsFrees(s, t, wake, s');
  }

  lemma PopKeepsInv(s: Pool, w: nat, s': Pool)
    requires Inv(s) && WorkerReady(s, w) && InQueuePop(s.workers[w]) && s' == PopNext(s, w)
    ensures Inv(s')
  {
    PopTouches(s, w, s');
    LockSteps.PopKeepsLocks(s, w, s');
    ClosureSteps.PopKeepsQueue(s, w, s');
    ClosureSteps.PopKeepsCarry(s, w, s');
    ClosureSteps.PopKeepsTickets(s, w, s');
    CallSteps.PopKeepsCalls(s, w, s');
    WakeSteps.PopKeepsWakeUps(s, w, s');
    ShutdownSteps.PopKeepsOrder(s, w, s');
    ShutdownSteps.PopKeepsFrees(s, w, s');
  }

  lemma WorkKeepsInv(s: Pool, w: nat, s': Pool, t: nat)
    requires Inv(s) && WorkerReady(s, w) && !InQueuePop(s.workers[w]) && s' == WorkerNext(s, w)
    requires Carries(s.workers[w]) == Some(t)
    ensures Inv(s')
  {
    WorkTouches(s, w, s');
    assert PlaceIs(s, t, Held(w)) && TicketOk(s, t);
    LockSteps.WorkKeepsLocks(s, w, s', t);
    ClosureSteps.WorkKeepsQueue(s, w, s', t);
    ClosureSteps.WorkKeepsCarry(s, w, s', t);
    ClosureSteps.WorkKeepsStage(s, w, s', t);
    ClosureSteps.WorkKeepsTickets(s, w, s', t);
    CallSteps.WorkKeepsCalls(s, w, s', t);
    WakeSteps.WorkKeepsWakeUps(s, w, s', t);
    ShutdownSteps.WorkKeepsOrder(s, w, s', t);
    ShutdownSteps.WorkKeepsFrees(s, w, s', t);
  }

  lemma CallKeepsInv(s: Pool, r: nat, s': Pool)
    requires Inv(s) && CallReady(s, r) && s' == CallNext(s, r)
    ensures Inv(s')
  {
    var t := s.calls[r].t;
    CallTouches(s, r, s');
    LockSteps.CallKeepsLocks(s, r, s');
    ClosureSteps.SamePlacesKeepQueue(s, s');
    ClosureSteps.CallKeepsCarry(s, r, s', t);
    ClosureSteps.CallKeepsTickets(s, r, s', t);
    CallSteps.CallKeepsCalls(s, r, s', t);
    WakeSteps.BlockedBefore(s, s');
    ShutdownSteps.CallKeepsOrder(s, r, s', t);
    ShutdownSteps.CallKeepsFrees(s, r, s', t);
  }

  lemma WorldKeepsInv(s: Pool, e: Step, s': Pool)
    requires Inv(s) && Enabled(s, e) && Worldly(e) && s' == After(s, e)
    ensures Inv(s')
  {
    WorldIsQuiet(s, e, s');
    LockSteps.WorldKeepsLocks(s, s');
    ClosureSteps.WorldKeepsQueue(s, s');
    ClosureSteps.WorldKeepsCarry(s, s');
    ClosureSteps.WorldKeepsTickets(s, s');
    CallSteps.WorldKeepsCalls(s, s');
    WakeSteps.WorldKeepsWakeUps(s, e, s');
    ShutdownSteps.WorldKeepsOrder(s, e, s');
    ShutdownSteps.WorldKeepsFrees(s, e, s');
  }

  /** Whatever any thread does next, everything the invariant says still holds. */
  lemma StepKeepsInv(s: Pool, e: Step, s': Pool)
    requires Inv(s) && Enabled(s, e) && s' == After(s, e)
    ensures Inv(s')
  {
    match e
    case ClientGo(t, wake) => ClientKeepsInv(s, t, wake, s');
    case WorkerGo(w) =>
      if InQueuePop(s.workers[w]) {
        PopKeepsInv(s, w, s');
      } else {
        WorkKeepsInv(s, w, s', Carries(s.workers[w]).value);
      }
    case CallGo(r) => CallKeepsInv(s, r, s');
    case _ => WorldKeepsInv(s, e, s');
  }

  lemma StepKeepsCrew(s: Pool, e: Step)
    requires Enabled(s, e)
    ensures |After(s, e).workers| == |s.workers| && After(s, e).variant == s.variant
  {}

  lemma {:induction false} RunKeepsInv(s: Pool, es: seq<Step>)
    requires Inv(s) && Feasible(s, es)
    ensures Inv(Run(s, es)) && |Run(s, es).workers| == |s.workers|
    decreases |es|
  {
    if es != [] {
      StepKeepsInv(s, es[0], After(s, es[0]));
      StepKeepsCrew(s, es[0]);
      RunKeepsInv(After(s, es[0]), es[1..]);
    }
  }

  lemma ReachableInv(s: Pool)
    requires IsReachable(s)
    ensures Inv(s) && 0 < |s.workers|
  {
    var n: nat, variant: Variant, es: seq<Step> :|
      0 < n && Feasible(Initial(n, variant), es) && s == Run(Initial(n, variant), es);
    InitialInv(n, variant);
    RunKeepsInv(Initial(n, variant), es);
  }

  lemma FirstStep(s: Pool, e: Step, rest: seq<Step>)
    requires Enabled(s, e) && Feasible(After(s, e), rest)
    ensures Feasible(s, [e] + rest) && Run(s, [e] + rest) == Run(After(s, e), rest)
  {}

  lemma {:induction false} RunOn(s: Pool, es: seq<Step>, fs: seq<Step>)
    requires Feasible(s, es) && Feasible(Run(s, es), fs)
    ensures Feasible(s, es + fs) && Run(s, es + fs) == Run(Run(s, es), fs)
    decreases |es|
  {
    if es == [] {
      assert es + fs == fs;
    } else {
      assert (es + fs)[0] == es[0] && (es + fs)[1..] == es[1..] + fs;
      RunOn(After(s, es[0]), es[1..], fs);
    }
  }

  lemma ReachableOn(s: Pool, fs: seq<Step>)
    requires IsReachable(s) && Feasible(s, fs)
    ensures IsReachable(Run(s, fs))
  {
    var n: nat, variant: Variant, es: seq<Step> :|
      0 < n && Feasible(Initial(n, variant), es) && s == Run(Initial(n, variant), es);
    RunOn(Initial(n, variant), es, fs);
    assert Feasible(Initial(n, variant), es + fs) && Run(s, fs) == Run(Initial(n, variant), es + fs);
  }

  lemma ReachableStep(s: Pool, e: Step)
    requires IsReachable(s) && Enabled(s, e)
    ensures IsReachable(After(s, e))
  {
    FirstStep(s, e, []);
    ReachableOn(s, [e] + []);
  }

  // ------------------------------------------------------------------------
  // Mutexes

  ghost predicate Away(pc: WorkerPc) {
    pc.AtRun? || pc.InWalk? || pc == Blocked || pc.Woken? || pc == CancelWoken || pc == Dead
  }

  lemma AwayHoldsNothing(s: Pool)
    requires LockInv(s)
    ensures forall w, m :: 0 <= w < |s.workers| && Away(s.workers[w]) ==> Owner(s, m) != Some(Worker(w))
    ensures forall r, m :: 0 <= r < |s.calls| && (s.calls[r].pc == Asleep || s.calls[r].pc == Roused) ==>
      Owner(s, m) != Some(Caller(r))
  {}

  lemma QueueMutexFreeAtDrain(s: Pool)
    requires LockInv(s) && DestroyInv(s) && JoinedFrom(s) == 0 && s.destroyer != NotStarted
    ensures s.mutex == None
  {
    assert Owner(s, QueueMutex) == s.mutex;
    assert s.mutex.Some? ==> Holding(s, s.mutex.value) == Some(QueueMutex);
  }

  /**
   No mutex has two holders, no thread has two mutexes, and none is held across a wait, a
   fn or a callback; from where queue_destroy calls pthread_mutex_destroy on, the queue's
   is free.
   */
  lemma LockDiscipline(s: Pool)
    requires IsReachable(s)
    ensures forall a, b, m :: Holding(s, a) == Some(m) && Holding(s, b) == Some(m) ==> a == b
    ensures forall a, m, m' :: Owner(s, m) == Some(a) && Owner(s, m') == Some(a) ==> m == m'
    ensures forall w, m :: 0 <= w < |s.workers| && Away(s.workers[w]) ==> Owner(s, m) != Some(Worker(w))
    ensures forall r, m :: 0 <= r < |s.calls| && (s.calls[r].pc == Asleep || s.calls[r].pc == Roused) ==>
      Owner(s, m) != Some(Caller(r))
    ensures s.destroyer.Draining? || s.destroyer == Destroyed ==> s.mutex == None
  {
    ReachableInv(s);
    AwayHoldsNothing(s);
    if s.destroyer.Draining? || s.destroyer == Destroyed {
      QueueMutexFreeAtDrain(s);
    }
  }

  // ------------------------------------------------------------------------
  // Conservation of closures

  ghost function CarriedBy(workers: seq<WorkerPc>, t: nat): nat {
    if workers == [] then 0
    else CarriedBy(workers[..|workers| - 1], t) + (if Carries(workers[|workers| - 1]) == Some(t) then 1 else 0)
  }

  lemma {:induction false} DistinctCount(s: seq<nat>, t: nat)
    requires Distinct(s)
    ensures multiset(s)[t] == if t in s then 1 else 0
  {
    if s != [] {
      var n := |s| - 1;
      DistinctCount(s[..n], t);
      assert s == s[..n] + [s[n]];
    }
  }

  lemma {:induction false} CarriedOnce(workers: seq<WorkerPc>, t: nat, w: nat)
    requires forall v :: 0 <= v < |workers| ==> (Carries(workers[v]) == Some(t) <==> v == w)
    ensures CarriedBy(workers, t) == if w < |workers| then 1 else 0
  {
    if workers != [] {
      CarriedOnce(workers[..|workers| - 1], t, w);
    }
  }

  /** Everywhere a closure can be: reachable, hanging off tail, leaked by the queue, held, or freed. */
  ghost function Copies(s: Pool, t: nat): nat {
    multiset(Reach(s.queue))[t] + multiset(Stray(s.queue))[t] + multiset(s.dropped)[t]
    + CarriedBy(s.workers, t) + s.frees[Closure(t)]
  }

  /** From the moment its client has enqueued it, a closure is in exactly one place. */
  lemma ClosuresConserved(s: Pool, t: nat)
    requires IsReachable(s) && t < |s.tickets|
    ensures Copies(s, t) == if s.tickets[t].client in {AtEnqueueLock, InEnqueue} then 0 else 1
  {
    ReachableInv(s);
    DistinctCount(Reach(s.queue), t);
    DistinctCount(Missing(s), t);
    assert multiset(Missing(s))[t] == multiset(s.dropped)[t] + multiset(Stray(s.queue))[t];
    var place := s.tickets[t].place;
    assert PlaceIs(s, t, place);
    assert forall v :: 0 <= v < |s.workers| && Carries(s.workers[v]) == Some(t) ==> PlaceIs(s, t, Held(v));
    CarriedOnce(s.workers, t, if place.Held? then place.w else |s.workers|);
    assert s.frees[Closure(t)] == if IsFreed(s, Closure(t)) then 1 else 0;
  }

  /** Without src/queue.c:139-140 no closure ever goes missing. */
  lemma RepairedLosesNothing(s: Pool)
    requires IsReachable(s) && s.variant == Repaired
    ensures Missing(s) == []
  {
    ReachableInv(s);
  }

  // ------------------------------------------------------------------------
  // Wake-ups

  /**
   While a worker sleeps, every reachable item has a worker on its way to it that a
   signal woke; workers that woke for no reason do not count.
   */
  lemma NoLostWorkerWakeUps(s: Pool, w: nat)
    requires IsReachable(s) && w < |s.workers| && s.workers[w] == Blocked
    ensures |Reach(s.queue)| <= Signalled(s.workers)
  {
    ReachableInv(s);
    assert SomeBlocked(s);
  }

  /** Once a future is resolved and its mutex is free, nobody is asleep on it. */
  lemma NoLostWaiterWakeUps(s: Pool, t: nat, r: nat)
    requires IsReachable(s) && t < |s.tickets| && s.tickets[t].resolved && s.tickets[t].mutex == None
    requires r < |s.calls|
    ensures s.calls[r].t == t ==> s.calls[r].pc != Asleep
  {
    ReachableInv(s);
    var place := s.tickets[t].place;
    assert Owner(s, FutureMutex(t)) == None;
    assert Broadcasting(s, t) ==> Holding(s, Worker(place.w)) == Some(FutureMutex(t));
    assert CallOk(s, s.calls[r]);
  }

  /** A worker that wakes for no reason may do so, finds the queue empty, and is asleep again as if nothing had been. */
  lemma SpuriousWakeUpOfWorker(s: Pool, w: nat)
    requires w < |s.workers| && s.workers[w] == Blocked && s.mutex == None && Reach(s.queue) == []
    ensures Feasible(s, [WakeWorker(w), WorkerGo(w), WorkerGo(w)])
    ensures Run(s, [WakeWorker(w), WorkerGo(w), WorkerGo(w)]) == s
  {
    var a := After(s, WakeWorker(w));
    var b := WorkerNext(a, w);
    assert WorkerNext(b, w) == s;
    FirstStep(b, WorkerGo(w), []);
    FirstStep(a, WorkerGo(w), [WorkerGo(w)]);
    FirstStep(s, WakeWorker(w), [WorkerGo(w), WorkerGo(w)]);
  }

  /** So is a waiter on a future that is not resolved. */
  lemma SpuriousWakeUpOfCaller(s: Pool, r: nat)
    requires r < |s.calls| && s.calls[r].pc == Asleep && s.calls[r].t < |s.tickets|
    requires !s.tickets[s.calls[r].t].resolved && s.tickets[s.calls[r].t].mutex == None
    ensures Feasible(s, [WakeCall(r), CallGo(r), CallGo(r)])
    ensures Run(s, [WakeCall(r), CallGo(r), CallGo(r)]) == s
  {
    var a := After(s, WakeCall(r));
    var b := CallNext(a, r);
    assert CallNext(b, r) == s;
    FirstStep(b, CallGo(r), []);
    FirstStep(a, CallGo(r), [CallGo(r)]);
    FirstStep(s, WakeCall(r), [CallGo(r), CallGo(r)]);
  }

  // ------------------------------------------------------------------------
  // Answers

  /** future_get gives the result of the ticket's own fn on its own args, and its asserts hold. */
  lemma AnswersAreRight(s: Pool, r: nat)
    requires IsReachable(s) && r < |s.calls|
    ensures s.calls[r].t < |s.tickets|
    ensures s.calls[r].pc.Got? ==> s.calls[r].pc.v == Result(s.tickets[s.calls[r].t])
    ensures s.calls[r].pc.AtRead? ==> s.tickets[s.calls[r].t].resolved && s.tickets[s.calls[r].t].fulfilled
  {
    ReachableInv(s);
    assert CallOk(s, s.calls[r]);
    assert TicketOk(s, s.calls[r].t);
  }

  /**
   The unlocked reads of src/future.c:219-230: whoever sees is_resolved also sees
   is_fulfilled and the value, and no future is resolved twice.
   */
  lemma ResolvedOnceWithResult(s: Pool, t: nat)
    requires IsReachable(s) && t < |s.tickets|
    ensures var k := s.tickets[t];
      && (k.resolved ==> k.fulfilled && k.value == Result(k))
      && k.resolutions == (if k.resolved then 1 else 0)
  {
    ReachableInv(s);
    assert TicketOk(s, t);
  }

  // ------------------------------------------------------------------------
  // Callbacks and promises

  /**
   When the worker is done with a ticket, exactly the callbacks linked before its read
   of the chain head have run, once each, newest first.
   */
  lemma CallbacksExactlyOnce(s: Pool, t: nat)
    requires IsReachable(s) && t < |s.tickets| && s.frees[Closure(t)] > 0
    ensures var k := s.tickets[t];
      && k.headRead.Some? && |k.ran| == k.headRead.value <= |k.chain|
      && forall i :: 0 <= i < |k.ran| ==> k.ran[i] == |k.ran| - 1 - i
  {
    ReachableInv(s);
    assert IsFreed(s, Closure(t));
    assert TicketOk(s, t);
    DownIs(s.tickets[t].headRead.value, 0);
  }

  /** Callbacks run in the worker's walk and nowhere else. */
  lemma OnlyTheWalkRuns(s: Pool, e: Step, t: nat)
    requires Enabled(s, e) && t < |s.tickets|
    ensures t < |After(s, e).tickets|
    ensures After(s, e).tickets[t].ran != s.tickets[t].ran ==>
      && e.WorkerGo? && s.workers[e.w].InWalk? && s.workers[e.w].t == t && s.workers[e.w].k > 0
      && After(s, e).tickets[t].ran == s.tickets[t].ran + [s.workers[e.w].k - 1]
  {
    match e
    case CallGo(r) => CallTouches(s, r, After(s, e));
    case ClientGo(u, wake) => assert ClientNext(s, u, wake).tickets[u].ran == s.tickets[u].ran;
    case WorkerGo(w) =>
    case _ => WorldIsQuiet(s, e, After(s, e));
  }

  lemma WalkIsOnCourse(s: Pool, w: nat)
    requires CarryInv(s) && TicketInv(s) && w < |s.workers| && s.workers[w].InWalk? && s.workers[w].k > 0
    ensures var t, j := s.workers[w].t, s.workers[w].k - 1;
      && t < |s.tickets| && s.tickets[t].resolved && s.tickets[t].fulfilled && s.tickets[t].headRead.Some?
      && j !in s.tickets[t].ran && j < s.tickets[t].headRead.value <= |s.tickets[t].chain|
  {
    var t, k := s.workers[w].t, s.workers[w].k;
    assert PlaceIs(s, t, Held(w)) && TicketOk(s, t);
    DownMembers(s.tickets[t].headRead.value, k, k - 1);
  }

  /** A callback that runs now is the next of the walk, runs for the first time, and sees a resolved future. */
  lemma CallbackSeesResolved(s: Pool, e: Step, s': Pool, t: nat)
    requires IsReachable(s) && Enabled(s, e) && s' == After(s, e)
    requires t < |s.tickets| && t < |s'.tickets| && s'.tickets[t].ran != s.tickets[t].ran
    ensures var k, k' := s.tickets[t], s'.tickets[t];
      && k.resolved && k.fulfilled && k.headRead.Some?
      && |k'.ran| > 0 && var j := k'.ran[|k'.ran| - 1];
         k'.ran == k.ran + [j] && j !in k.ran && j < k.headRead.value <= |k.chain|
  {
    ReachableInv(s);
    OnlyTheWalkRuns(s, e, t);
    WalkIsOnCourse(s, e.w);
  }

  /**
   A promise is freed at most once; when the worker is done it has been freed exactly
   if the cleanup callback (node 0) was linked before the walk's head read.
   */
  lemma PromiseLifetime(s: Pool, t: nat)
    requires IsReachable(s) && t < |s.tickets|
    ensures s.frees[Promise(t)] <= 1
    ensures s.frees[Closure(t)] > 0 ==>
      s.tickets[t].headRead.Some? && (s.frees[Promise(t)] == 1 <==> s.tickets[t].headRead.value > 0)
  {
    ReachableInv(s);
    assert s.frees[Promise(t)] == if IsFreed(s, Promise(t)) then 1 else 0;
    assert s.frees[Closure(t)] == if IsFreed(s, Closure(t)) then 1 else 0;
    if s.frees[Closure(t)] > 0 {
      assert TicketOk(s, t);
      DownMembers(s.tickets[t].headRead.value, 0, 0);
    }
  }

  // ------------------------------------------------------------------------
  // Shutdown

  /**
   Once queue_destroy has freed the queue, every worker has been cancelled, joined and
   freed, and the futures that will never resolve are exactly those whose closures were
   still in the queue or had been lost by it.
   */
  lemma AfterShutdown(s: Pool)
    requires IsReachable(s) && s.frees[WorkQueue] > 0
    ensures forall w :: 0 <= w < |s.workers| ==> s.workers[w] == Dead && s.frees[Executor(w)] == 1
    ensures forall t :: 0 <= t < |s.tickets| ==>
      (s.tickets[t].resolved <==> t !in Reach(s.queue) && t !in Missing(s))
    ensures forall t :: t in Reach(s.queue) ==> s.frees[ItemNode(t)] == 1
    ensures forall t :: t in Missing(s) ==> s.frees[ItemNode(t)] == 0
  {
    ReachableInv(s);
    assert IsFreed(s, WorkQueue);
    forall w | 0 <= w < |s.workers| ensures s.frees[Executor(w)] == 1 {
      assert IsFreed(s, Executor(w));
    }
    forall t | 0 <= t < |s.tickets|
      ensures s.tickets[t].resolved <==> t !in Reach(s.queue) && t !in Missing(s)
    {
      assert TicketOk(s, t) && PlaceIs(s, t, s.tickets[t].place);
    }
    assert Reach(s.queue)[..|Reach(s.queue)|] == Reach(s.queue);
    forall t | t in Reach(s.queue) ensures s.frees[ItemNode(t)] == 1 {
      assert PlaceIs(s, t, Queued) && IsFreed(s, ItemNode(t));
    }
    forall t | t in Missing(s) ensures s.frees[ItemNode(t)] == 0 {
      assert PlaceIs(s, t, Lost) && !IsFreed(s, ItemNode(t));
    }
  }

  /**
   A worker acts on a cancellation only once every later executor has been freed, its own
   executor is freed only after it has ended, and the queue after all of them.
   */
  lemma ShutdownInOrder(s: Pool, w: nat)
    requires IsReachable(s) && w < |s.workers|
    ensures s.frees[Executor(w)] > 0 ==> s.workers[w] == Dead
    ensures Cancelled(s.workers[w]) ==>
      s.destroyer != NotStarted && forall v :: w < v < |s.workers| ==> s.frees[Executor(v)] == 1
    ensures s.frees[WorkQueue] > 0 ==> s.frees[Executor(w)] == 1
  {
    ReachableInv(s);
    forall v | w < v < |s.workers| && Cancelled(s.workers[w]) ensures s.frees[Executor(v)] == 1 {
      assert CancelRequested(s, w) && IsFreed(s, Executor(v));
    }
    assert s.frees[Executor(w)] == if IsFreed(s, Executor(w)) then 1 else 0;
    assert s.frees[WorkQueue] == if IsFreed(s, WorkQueue) then 1 else 0;
  }
}
