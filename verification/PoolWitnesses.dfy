/** Four runs that end badly, step by step. */
module PoolWitnesses {
  import opened Common
  import opened QueueModel
  import opened PoolMachine
  import opened PoolInvariant
  import opened PoolSafety
  import opened PoolMemory

  /** A client submits and gets through queue_enqueue while no worker is asleep. */
  lemma SubmitAlone(s: Pool, fn: Value -> Value, args: Value) returns (s': Pool)
    requires IsReachable(s) && s.mutex == None && s.destroyer == NotStarted && CanSignal(s, None)
    ensures IsReachable(s') && s'.mutex == None && s'.destroyer == NotStarted
    ensures s'.variant == s.variant && s'.workers == s.workers && s'.queue == Enqueue(s.queue, |s.tickets|)
    ensures |s'.tickets| == |s.tickets| + 1
    ensures var k := s'.tickets[|s.tickets|]; k.mutex == None && k.client == AtLinkLock
  {
    var t := |s.tickets|;
    var a := After(s, Submit(fn, args));
    ReachableStep(s, Submit(fn, args));
    var b := ClientNext(a, t, None);
    ReachableStep(a, ClientGo(t, None));
    var c := ClientNext(b, t, None);
    ReachableStep(b, ClientGo(t, None));
    s' := ClientNext(c, t, None);
    ReachableStep(c, ClientGo(t, None));
  }

  /** The only worker takes one of two items and is off to run it. */
  lemma PopAlone(s: Pool) returns (s': Pool)
    requires IsReachable(s) && s.mutex == None && s.destroyer == NotStarted && s.variant == AsWritten
    requires s.workers == [AtPopLock] && s.queue == Attached([0, 1]) && |s.tickets| == 2
    ensures IsReachable(s') && s'.mutex == None && s'.destroyer == NotStarted
    ensures s'.queue == Detached(1, []) && s'.workers == [AtRun(0)] && |s'.tickets| == 2
  {
    var a := WorkerNext(s, 0);
    ReachableStep(s, WorkerGo(0));
    var b := WorkerNext(a, 0);
    ReachableStep(a, WorkerGo(0));
    s' := WorkerNext(b, 0);
    ReachableStep(b, WorkerGo(0));
  }

  /** One worker, three submissions: the third comes while the worker has left one item, and is lost. */
  lemma AClosureIsLost(fn: Value -> Value, args: Value)
    ensures exists s: Pool :: IsReachable(s) && |s.tickets| == 3 && 2 in Missing(s)
  {
    var s := Initial(1, AsWritten);
    assert s.workers == [AtPopLock];
    assert Feasible(s, []) && s == Run(s, []);
    s := SubmitAlone(s, fn, args);
    s := SubmitAlone(s, fn, args);
    assert s.queue == Attached([0, 1]);
    s := PopAlone(s);
    s := SubmitAlone(s, fn, args);
    assert s.queue == Detached(1, [] + [2]);
    assert 2 in Stray(s.queue);
  }

  // ------------------------------------------------------------------------
  // A promise that leaks

  /** The only worker takes the only item ... */
  lemma Take(s: Pool) returns (s': Pool)
    requires IsReachable(s) && s.mutex == None && s.workers == [AtPopLock] && s.queue == Attached([0])
    requires |s.tickets| == 1 && s.tickets[0].mutex == None && s.tickets[0].chain == []
    ensures IsReachable(s') && s'.workers == [AtPopUnlock(0)]
    ensures |s'.tickets| == 1 && s'.tickets[0].mutex == None && s'.tickets[0].chain == []
  {
    var a := WorkerNext(s, 0);
    ReachableStep(s, WorkerGo(0));
    s' := WorkerNext(a, 0);
    ReachableStep(a, WorkerGo(0));
  }

  /** ... and runs its fn. */
  lemma RunFn(s: Pool) returns (s': Pool)
    requires IsReachable(s) && s.workers == [AtPopUnlock(0)]
    requires |s.tickets| == 1 && s.tickets[0].mutex == None && s.tickets[0].chain == []
    ensures IsReachable(s') && |s'.workers| == 1 && s'.workers[0].AtFutureLock? && s'.workers[0].t == 0
    ensures |s'.tickets| == 1 && s'.tickets[0].mutex == None && s'.tickets[0].chain == []
  {
    var a := WorkerNext(s, 0);
    ReachableStep(s, WorkerGo(0));
    s' := WorkerNext(a, 0);
    ReachableStep(a, WorkerGo(0));
  }

  /** It takes the future's mutex, stores the value ... */
  lemma Store(s: Pool) returns (s': Pool)
    requires IsReachable(s) && |s.workers| == 1 && s.workers[0].AtFutureLock? && s.workers[0].t == 0
    requires |s.tickets| == 1 && s.tickets[0].mutex == None && s.tickets[0].chain == []
    ensures IsReachable(s') && s'.workers == [InSetFulfilled(0)] && |s'.tickets| == 1 && s'.tickets[0].chain == []
  {
    var a := WorkerNext(s, 0);
    ReachableStep(s, WorkerGo(0));
    s' := WorkerNext(a, 0);
    ReachableStep(a, WorkerGo(0));
  }

  /** ... sets the flags ... */
  lemma Flag(s: Pool) returns (s': Pool)
    requires IsReachable(s) && s.workers == [InSetFulfilled(0)] && |s.tickets| == 1 && s.tickets[0].chain == []
    ensures IsReachable(s') && s'.workers == [InBroadcast(0)] && |s'.tickets| == 1 && s'.tickets[0].chain == []
  {
    var a := WorkerNext(s, 0);
    ReachableStep(s, WorkerGo(0));
    s' := WorkerNext(a, 0);
    ReachableStep(a, WorkerGo(0));
  }

  /** ... lets go of the future ... */
  lemma LetGo(s: Pool) returns (s': Pool)
    requires IsReachable(s) && s.workers == [InBroadcast(0)] && |s.tickets| == 1 && s.tickets[0].chain == []
    ensures IsReachable(s') && s'.workers == [AtHeadRead(0)] && |s'.tickets| == 1 && s'.tickets[0].chain == []
  {
    var a := WorkerNext(s, 0);
    ReachableStep(s, WorkerGo(0));
    s' := WorkerNext(a, 0);
    ReachableStep(a, WorkerGo(0));
  }

  /** ... and, the cleanup not being linked yet, walks an empty list and is done. */
  lemma WalkNothing(s: Pool) returns (s': Pool)
    requires IsReachable(s) && s.workers == [AtHeadRead(0)] && |s.tickets| == 1 && s.tickets[0].chain == []
    ensures IsReachable(s') && |s'.tickets| == 1 && s'.tickets[0].headRead == Some(0)
    ensures s'.tickets[0].place == Finished
  {
    var a := WorkerNext(s, 0);
    ReachableStep(s, WorkerGo(0));
    s' := WorkerNext(a, 0);
    ReachableStep(a, WorkerGo(0));
  }

  /** One worker and one submission suffice to leak a promise. */
  lemma APromiseLeaks(fn: Value -> Value, args: Value)
    ensures exists s: Pool :: IsReachable(s) && s.frees[Closure(0)] == 1 && s.frees[Promise(0)] == 0
  {
    var s := Initial(1, AsWritten);
    assert s.workers == [AtPopLock];
    assert Feasible(s, []) && s == Run(s, []);
    s := SubmitAlone(s, fn, args);
    assert s.queue == Attached([0]);
    ReachableInv(s);
    assert TicketOk(s, 0);
    s := Take(s);
    s := RunFn(s);
    s := Store(s);
    s := Flag(s);
    s := LetGo(s);
    s := WalkNothing(s);
    ReachableInv(s);
    assert IsFreed(s, Closure(0));
    PromiseLifetime(s, 0);
  }

  // ------------------------------------------------------------------------
  // A shutdown that abandons a closure

  /** The only worker finds the queue empty and falls asleep. */
  lemma FallAsleep(s: Pool) returns (s': Pool)
    requires IsReachable(s) && s == Initial(1, AsWritten)
    ensures IsReachable(s') && s' == s.(workers := [Blocked])
  {
    var a := WorkerNext(s, 0);
    ReachableStep(s, WorkerGo(0));
    s' := WorkerNext(a, 0);
    ReachableStep(a, WorkerGo(0));
  }

  /** A client's enqueue wakes it. */
  lemma SubmitAndWake(s: Pool, fn: Value -> Value, args: Value) returns (s': Pool)
    requires IsReachable(s) && s == Initial(1, AsWritten).(workers := [Blocked])
    ensures IsReachable(s') && s'.workers == [Woken(true)] && s'.queue == Attached([0]) && s'.mutex == None
    ensures |s'.tickets| == 1 && s'.tickets[0].client == AtLinkLock && s'.destroyer == NotStarted
  {
    var a := After(s, Submit(fn, args));
    ReachableStep(s, Submit(fn, args));
    var b := ClientNext(a, 0, None);
    ReachableStep(a, ClientGo(0, None));
    var c := ClientNext(b, 0, Some(0));
    ReachableStep(b, ClientGo(0, Some(0)));
    s' := ClientNext(c, 0, None);
    ReachableStep(c, ClientGo(0, None));
  }

  /** The destroyer cancels it before it has looked. */
  lemma CancelInTime(s: Pool) returns (s': Pool)
    requires IsReachable(s) && s.workers == [Woken(true)] && s.queue == Attached([0]) && s.mutex == None
    requires |s.tickets| == 1 && s.tickets[0].client == AtLinkLock && s.destroyer == NotStarted
    ensures IsReachable(s') && s'.workers == [CancelWoken] && s'.queue == Attached([0]) && s'.mutex == None
    ensures s'.destroyer == AtJoin(1)
  {
    var a := After(s, BeginDestroy);
    ReachableStep(s, BeginDestroy);
    var b := DestroyNext(a);
    ReachableStep(a, DestroyGo);
    s' := CancelNext(b, 0, None);
    ReachableStep(b, Cancel(0, None));
  }

  lemma EndAndJoin(s: Pool) returns (s': Pool)
    requires IsReachable(s) && s.workers == [CancelWoken] && s.queue == Attached([0]) && s.mutex == None
    requires s.destroyer == AtJoin(1)
    ensures IsReachable(s') && s'.queue == Attached([0]) && s'.destroyer == AtCancel(0)
  {
    var a := WorkerNext(s, 0);
    ReachableStep(s, WorkerGo(0));
    var b := WorkerNext(a, 0);
    ReachableStep(a, WorkerGo(0));
    s' := DestroyNext(b);
    ReachableStep(b, DestroyGo);
  }

  /** queue_destroy frees the node that holds the item ... */
  lemma FreeTheNode(s: Pool) returns (s': Pool)
    requires IsReachable(s) && s.queue == Attached([0]) && s.destroyer == AtCancel(0)
    ensures IsReachable(s') && s'.queue == Attached([0]) && s'.destroyer == Draining(1)
  {
    var a := DestroyNext(s);
    ReachableStep(s, DestroyGo);
    s' := DestroyNext(a);
    ReachableStep(a, DestroyGo);
  }

  /** The run up to there. */
  lemma AbandonedItem(fn: Value -> Value, args: Value) returns (s: Pool)
    ensures IsReachable(s) && s.queue == Attached([0]) && s.destroyer == Draining(1)
  {
    s := Initial(1, AsWritten);
    assert Feasible(s, []) && s == Run(s, []);
    s := FallAsleep(s);
    s := SubmitAndWake(s, fn, args);
    s := CancelInTime(s);
    s := EndAndJoin(s);
    s := FreeTheNode(s);
  }

  /** One worker and one submission suffice for a shutdown that abandons the closure. */
  lemma AShutdownAbandons(fn: Value -> Value, args: Value)
    ensures exists s: Pool :: IsReachable(s) && s.destroyer == Destroyed && Reach(s.queue) == [0]
  {
    var s := AbandonedItem(fn, args);
    ReachableStep(s, DestroyGo);
    assert DestroyNext(s).destroyer == Destroyed;
  }

  /** ... and the very next step reads `next` out of the node that is now free. */
  lemma AShutdownReadsFreedMemory(fn: Value -> Value, args: Value)
    ensures exists s: Pool ::
      && IsReachable(s) && Enabled(s, DestroyGo)
      && ItemNode(0) in Uses(FreeThenRead, s, DestroyGo) && s.frees[ItemNode(0)] == 1
  {
    var s := AbandonedItem(fn, args);
    ReachableInv(s);
    UsesLive(FreeThenRead, s, DestroyGo);
    assert ItemNode(0) in Uses(FreeThenRead, s, DestroyGo);
  }
}
