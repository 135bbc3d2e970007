/** Which shutdowns serve the queue before they free it: exactly when, seen from the run and from the caller. */
module PoolShutdown {
  import opened Common
  import opened QueueModel
  import opened PoolMachine
  import opened PoolInvariant
  import opened StepFrames
  import opened PoolSafety
  import opened PoolMemory
  import PoolProgress

  ghost predicate Live(s: Pool, w: nat) {
    w < |s.workers| && !Cancelled(s.workers[w])
  }

  /** Worker w is not the last one that could still empty the queue, or there is nothing to empty. */
  ghost predicate CanBeSpared(s: Pool, w: nat) {
    Reach(s.queue) == [] || exists v :: v != w && Live(s, v)
  }

  ghost predicate SparesWhomItCancels(s: Pool, e: Step) {
    e.Cancel? ==> CanBeSpared(s, e.w)
  }

  /** No worker acts on its cancellation while it alone is left to serve a queue that is not empty. */
  ghost predicate NeverDeserts(s: Pool, es: seq<Step>)
    requires Feasible(s, es)
    decreases |es|
  {
    es == [] || (SparesWhomItCancels(s, es[0]) && NeverDeserts(After(s, es[0]), es[1..]))
  }

  // ------------------------------------------------------------------------
  // As long as there is something to pop there is someone to pop it

  ghost predicate Manned(s: Pool) {
    Reach(s.queue) != [] ==> exists w :: Live(s, w)
  }

  lemma ClientKeepsManned(s: Pool, t: nat, wake: Option<nat>, s': Pool)
    requires DestroyInv(s) && Manned(s) && 0 < |s.workers| && ClientReady(s, t, wake) && s' == ClientNext(s, t, wake)
    ensures Manned(s')
  {
    if s.tickets[t].client == InEnqueue {
      assert !PastEnqueue(s.tickets[t].client) && s.destroyer == NotStarted;
      assert !Cancelled(s.workers[0]);
      assert Live(s', 0);
    } else if w :| Live(s, w) {
      assert Live(s', w);
    }
  }

  /** The queue has not grown and whoever was live still is. */
  lemma StillManned(s: Pool, s': Pool)
    requires Manned(s) && |s'.workers| == |s.workers|
    requires Reach(s'.queue) != [] ==> Reach(s.queue) != []
    requires forall w :: 0 <= w < |s.workers| && !Cancelled(s.workers[w]) ==> !Cancelled(s'.workers[w])
    ensures Manned(s')
  {
    if w :| Live(s, w) {
      assert Live(s', w);
    }
  }

  lemma WorldKeepsManned(s: Pool, e: Step, s': Pool)
    requires Manned(s) && Enabled(s, e) && Worldly(e) && SparesWhomItCancels(s, e) && s' == After(s, e)
    ensures Manned(s')
  {
    if !e.Cancel? {
      StillManned(s, s');
    } else if v :| v != e.w && Live(s, v) {
      assert Live(s', v);
    }
  }

  lemma WorkerKeepsManned(s: Pool, w: nat, s': Pool)
    requires Manned(s) && WorkerReady(s, w) && s' == WorkerNext(s, w)
    ensures Manned(s')
  {
    if InQueuePop(s.workers[w]) {
      PopTouches(s, w, s');
    } else {
      WorkTouches(s, w, s');
    }
    StillManned(s, s');
  }

  lemma StepKeepsManned(s: Pool, e: Step, s': Pool)
    requires Inv(s) && Manned(s) && 0 < |s.workers| && Enabled(s, e) && SparesWhomItCancels(s, e) && s' == After(s, e)
    ensures Manned(s')
  {
    match e
    case ClientGo(t, wake) => ClientKeepsManned(s, t, wake, s');
    case WorkerGo(w) => WorkerKeepsManned(s, w, s');
    case CallGo(r) =>
      CallTouches(s, r, s');
      StillManned(s, s');
    case _ => WorldKeepsManned(s, e, s');
  }

  // ------------------------------------------------------------------------
  // Once the last worker has deserted the queue, its items stay there

  ghost predicate Deserted(s: Pool) {
    && s.destroyer != NotStarted && Reach(s.queue) != []
    && forall w :: 0 <= w < |s.workers| ==> Cancelled(s.workers[w])
  }

  lemma WorkerKeepsDeserted(s: Pool, w: nat, s': Pool)
    requires Deserted(s) && WorkerReady(s, w) && s' == WorkerNext(s, w)
    ensures Deserted(s')
  {}

  lemma ClientKeepsDeserted(s: Pool, t: nat, wake: Option<nat>, s': Pool)
    requires DestroyInv(s) && Deserted(s) && ClientReady(s, t, wake) && s' == ClientNext(s, t, wake)
    ensures Deserted(s')
  {}

  lemma WorldKeepsDeserted(s: Pool, e: Step, s': Pool)
    requires Deserted(s) && Enabled(s, e) && Worldly(e) && s' == After(s, e)
    ensures Deserted(s')
  {}

  lemma StepKeepsDeserted(s: Pool, e: Step, s': Pool)
    requires Inv(s) && Deserted(s) && Enabled(s, e) && s' == After(s, e)
    ensures Deserted(s')
  {
    match e
    case WorkerGo(w) => WorkerKeepsDeserted(s, w, s');
    case CallGo(r) => CallTouches(s, r, s');
    case ClientGo(t, wake) => ClientKeepsDeserted(s, t, wake, s');
    case _ => WorldKeepsDeserted(s, e, s');
  }

  lemma {:induction false} RunKeepsDeserted(s: Pool, es: seq<Step>)
    requires Inv(s) && Deserted(s) && Feasible(s, es)
    ensures Deserted(Run(s, es))
    decreases |es|
  {
    if es != [] {
      var s' := After(s, es[0]);
      StepKeepsInv(s, es[0], s');
      StepKeepsDeserted(s, es[0], s');
      RunKeepsDeserted(s', es[1..]);
    }
  }

  lemma LastOneDeserts(s: Pool, w: nat, heir: Option<nat>)
    requires CancelReady(s, w, heir) && !CanBeSpared(s, w)
    ensures Deserted(CancelNext(s, w, heir))
  {
    assert forall v :: 0 <= v < |s.workers| && v != w ==> !Live(s, v) && Cancelled(s.workers[v]);
    assert heir == None;
  }

  lemma {:induction false} ServesExactly(s: Pool, es: seq<Step>)
    requires Inv(s) && Manned(s) && 0 < |s.workers| && Feasible(s, es) && Run(s, es).destroyer == Destroyed
    ensures Reach(Run(s, es).queue) == [] <==> NeverDeserts(s, es)
    decreases |es|
  {
    if es == [] {
      assert forall w :: 0 <= w < |s.workers| ==> s.workers[w] == Dead;
    } else {
      var e, s' := es[0], After(s, es[0]);
      StepKeepsInv(s, e, s');
      StepKeepsCrew(s, e);
      if SparesWhomItCancels(s, e) {
        StepKeepsManned(s, e, s');
        ServesExactly(s', es[1..]);
      } else {
        LastOneDeserts(s, e.w, e.heir);
        RunKeepsDeserted(s', es[1..]);
      }
    }
  }

  /**
   For every run that ends with the pool destroyed, one condition on its cancellations
   says all of this: nothing was left in the queue; the futures that stay unresolved are
   exactly those the queue had lost; and, queue_destroy being as written, no step touched
   freed memory.
   */
  lemma ShutdownServesTheQueue(n: nat, variant: Variant, es: seq<Step>)
    requires 0 < n && Feasible(Initial(n, variant), es) && Run(Initial(n, variant), es).destroyer == Destroyed
    ensures var s, z := Initial(n, variant), Run(Initial(n, variant), es);
      && (NeverDeserts(s, es) <==> Reach(z.queue) == [])
      && (NeverDeserts(s, es) <==>
            forall t :: 0 <= t < |z.tickets| ==> (z.tickets[t].resolved <==> t !in Missing(z)))
      && (NeverDeserts(s, es) <==> IsClean(FreeThenRead, s, es))
  {
    var s := Initial(n, variant);
    var z := Run(s, es);
    InitialInv(n, variant);
    ServesExactly(s, es);
    DestructionIsCleanExactly(FreeThenRead, n, variant, es);
    assert IsReachable(z);
    WhatIsLeftIsUnanswered(z);
  }

  lemma WhatIsLeftIsUnanswered(z: Pool)
    requires IsReachable(z) && z.destroyer == Destroyed
    ensures Reach(z.queue) == []
      <==> forall t :: 0 <= t < |z.tickets| ==> (z.tickets[t].resolved <==> t !in Missing(z))
  {
    ReachableInv(z);
    assert IsFreed(z, WorkQueue) && z.frees[WorkQueue] == 1;
    AfterShutdown(z);
    if Reach(z.queue) != [] {
      var t := Reach(z.queue)[0];
      assert t in Reach(z.queue) && PlaceIs(z, t, Queued);
    }
  }

  // ------------------------------------------------------------------------
  // What the caller can know beforehand

  /** It will look at the queue again before it can act on a cancellation. */
  ghost predicate Busy(pc: WorkerPc) {
    pc != Blocked && !pc.Woken? && !Cancelled(pc)
  }

  ghost predicate Attended(s: Pool) {
    Reach(s.queue) == [] || exists w :: 0 <= w < |s.workers| && Busy(s.workers[w])
  }

  lemma StillAttended(s: Pool, s': Pool)
    requires Attended(s) && |s'.workers| == |s.workers| && (Reach(s.queue) == [] ==> Reach(s'.queue) == [])
    requires forall w :: 0 <= w < |s.workers| && Busy(s.workers[w]) ==> Busy(s'.workers[w]) || Reach(s'.queue) == []
    ensures Attended(s')
  {}

  lemma WorkerKeepsAttended(s: Pool, w: nat, s': Pool)
    requires Attended(s) && WorkerReady(s, w) && s' == WorkerNext(s, w)
    ensures Attended(s') && s'.destroyer == s.destroyer
  {
    if InQueuePop(s.workers[w]) {
      PopTouches(s, w, s');
    } else {
      WorkTouches(s, w, s');
    }
    StillAttended(s, s');
  }

  lemma ClientKeepsAttended(s: Pool, t: nat, wake: Option<nat>, s': Pool)
    requires DestroyInv(s) && s.destroyer != NotStarted && Attended(s)
    requires ClientReady(s, t, wake) && s' == ClientNext(s, t, wake)
    ensures Attended(s') && s'.destroyer == s.destroyer
  {}

  lemma StepKeepsAttended(s: Pool, e: Step, s': Pool)
    requires Inv(s) && s.destroyer != NotStarted && Attended(s) && Enabled(s, e) && s' == After(s, e)
    ensures s'.destroyer != NotStarted && Attended(s')
  {
    match e
    case WorkerGo(w) => WorkerKeepsAttended(s, w, s');
    case ClientGo(t, wake) => ClientKeepsAttended(s, t, wake, s');
    case CallGo(r) =>
      CallTouches(s, r, s');
      StillAttended(s, s');
    case _ =>
      WorldIsQuiet(s, e, s');
      StillAttended(s, s');
  }

  lemma {:induction false} RunKeepsAttended(s: Pool, es: seq<Step>)
    requires Inv(s) && s.destroyer != NotStarted && Attended(s) && Feasible(s, es)
    ensures Inv(Run(s, es)) && Attended(Run(s, es))
    decreases |es|
  {
    if es != [] {
      var s' := After(s, es[0]);
      StepKeepsInv(s, es[0], s');
      StepKeepsAttended(s, es[0], s');
      RunKeepsAttended(s', es[1..]);
    }
  }

  /** When nobody is busy, only a cancelled worker on its way out can hold the queue's mutex. */
  lemma OnlyLeaversHold(s: Pool)
    requires Inv(s) && s.destroyer != NotStarted && !Attended(s) && s.mutex.Some?
    ensures s.mutex.value.Worker? && s.mutex.value.w < |s.workers| && s.workers[s.mutex.value.w] == CancelUnlock
  {
    assert Owner(s, QueueMutex) == s.mutex;
    assert Holding(s, s.mutex.value) == Some(QueueMutex);
  }

  /** How worker w goes on to give up without looking at the queue again ... */
  lemma GivingUp(s: Pool, w: nat) returns (e: Step)
    requires Inv(s) && CancelRequested(s, w) && !Attended(s) && w < |s.workers| && s.workers[w] != Dead
    ensures (e.WorkerGo? && e.w < |s.workers| && Cancelled(s.workers[e.w])) || e.Cancel?
    ensures Enabled(s, e)
  {
    assert !Busy(s.workers[w]);
    if s.workers[w] == Blocked {
      e := Cancel(w, None);
    } else if s.workers[w].Woken? {
      var heir := None;
      if s.workers[w].signalled {
        heir := PoolProgress.SomeoneToWake(s);
      }
      e := Cancel(w, heir);
    } else if s.workers[w] == CancelUnlock || s.mutex == None {
      e := WorkerGo(w);
    } else {
      OnlyLeaversHold(s);
      e := WorkerGo(s.mutex.value.w);
    }
  }

  lemma StaysUnattended(s: Pool, e: Step, s': Pool)
    requires s.destroyer != NotStarted && !Attended(s) && Enabled(s, e) && s' == After(s, e)
    requires (e.WorkerGo? && e.w < |s.workers| && Cancelled(s.workers[e.w])) || e.Cancel? || e.DestroyGo?
    ensures s'.destroyer != NotStarted && !Attended(s')
  {
    assert forall v :: 0 <= v < |s.workers| ==> !Busy(s.workers[v]);
    if e.WorkerGo? {
      PopTouches(s, e.w, s');
    } else {
      WorldIsQuiet(s, e, s');
    }
  }

  /** ... and how the shutdown goes on in which they all do. */
  lemma GivingUpGoesOn(s: Pool) returns (e: Step)
    requires Inv(s) && s.destroyer != NotStarted && s.destroyer != Destroyed && !Attended(s)
    ensures Internal(e) && Enabled(s, e)
    ensures After(s, e).destroyer != NotStarted && !Attended(After(s, e))
  {
    if s.destroyer.AtJoin? && s.workers[s.destroyer.k - 1] != Dead {
      e := GivingUp(s, s.destroyer.k - 1);
    } else {
      e := DestroyGo;
    }
    StaysUnattended(s, e, After(s, e));
  }

  ghost predicate Finishes(s: Pool, es: seq<Step>) {
    Feasible(s, es) && Run(s, es).destroyer == Destroyed
  }

  ghost predicate Abandons(s: Pool, es: seq<Step>) {
    Finishes(s, es) && !Attended(Run(s, es))
  }

  lemma AbandonsOneLater(s: Pool, e: Step, rest: seq<Step>)
    requires Enabled(s, e) && Abandons(After(s, e), rest)
    ensures Abandons(s, [e] + rest)
  {}

  /** If nobody is busy the workers may all give up, one after the other, and leave the queue as it is. */
  lemma {:induction false} SomeRunAbandons(s: Pool)
    requires Inv(s) && s.destroyer != NotStarted && !Attended(s)
    ensures exists es: seq<Step> :: Abandons(s, es)
    decreases PoolProgress.Measure(s)
  {
    if s.destroyer == Destroyed {
      assert Abandons(s, []);
    } else {
      var e := GivingUpGoesOn(s);
      var s' := After(s, e);
      PoolProgress.StepGoesOn(s, e, s');
      SomeRunAbandons(s');
      var rest: seq<Step> :| Abandons(s', rest);
      AbandonsOneLater(s, e, rest);
    }
  }

  /** However the destruction that begins now goes, it leaves nothing in the queue. */
  ghost predicate AlwaysServes(s: Pool)
    requires Enabled(s, BeginDestroy)
  {
    forall es: seq<Step> :: Finishes(After(s, BeginDestroy), es) ==> Reach(Run(After(s, BeginDestroy), es).queue) == []
  }

  /** However the destruction that begins now goes, no step of it touches freed memory. */
  ghost predicate AlwaysClean(s: Pool)
    requires Enabled(s, BeginDestroy)
  {
    forall es: seq<Step> :: Finishes(After(s, BeginDestroy), es) ==> IsClean(FreeThenRead, After(s, BeginDestroy), es)
  }

  lemma CleanIfServed(s: Pool, es: seq<Step>)
    requires Inv(s) && s.destroyer != Destroyed && Finishes(s, es)
    ensures IsClean(FreeThenRead, s, es) <==> Reach(Run(s, es).queue) == []
  {
    CleanExactly(FreeThenRead, s, es);
  }

  /**
   Whether future_pool_destroy may abandon work, and touch freed memory, is settled when it
   is called: it cannot if and only if there is nothing to pop, or some worker is neither
   asleep nor woken but still without the mutex.
   */
  lemma TheCallDecides(s: Pool)
    requires IsReachable(s) && Enabled(s, BeginDestroy)
    ensures AlwaysServes(s) <==> Attended(s)
    ensures AlwaysClean(s) <==> Attended(s)
  {
    ReachableInv(s);
    var s' := After(s, BeginDestroy);
    StepKeepsInv(s, BeginDestroy, s');
    if Attended(s) {
      forall es: seq<Step> | Finishes(s', es)
        ensures Reach(Run(s', es).queue) == [] && IsClean(FreeThenRead, s', es)
      {
        RunKeepsAttended(s', es);
        AttendedToTheEnd(Run(s', es));
        CleanIfServed(s', es);
      }
    } else {
      SomeRunAbandons(s');
      var es: seq<Step> :| Abandons(s', es);
      CleanIfServed(s', es);
      assert Reach(Run(s', es).queue) != [];
    }
  }

  lemma AttendedToTheEnd(z: Pool)
    requires Inv(z) && z.destroyer == Destroyed && Attended(z)
    ensures Reach(z.queue) == []
  {}

  lemma QueuedIsUnanswered(s: Pool)
    requires QueueInv(s) && TicketInv(s) && Reach(s.queue) != []
    ensures var t := Reach(s.queue)[0];
      t < |s.tickets| && !s.tickets[t].resolved && t !in Missing(s)
  {
    var t := Reach(s.queue)[0];
    assert t in Reach(s.queue) && PlaceIs(s, t, Queued) && TicketOk(s, t);
    assert t in Missing(s) <==> PlaceIs(s, t, Lost);
  }

  /**
   What a caller can check: when every future the pool gave out is resolved, but for those
   the queue has lost, destruction abandons nothing and is memory-safe.
   */
  lemma WaitBeforeDestroying(s: Pool)
    requires IsReachable(s) && Enabled(s, BeginDestroy)
    requires forall t :: 0 <= t < |s.tickets| && !s.tickets[t].resolved ==> t in Missing(s)
    ensures Reach(s.queue) == [] && AlwaysServes(s) && AlwaysClean(s)
  {
    ReachableInv(s);
    if Reach(s.queue) != [] {
      QueuedIsUnanswered(s);
    }
    TheCallDecides(s);
  }
}
