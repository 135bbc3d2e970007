/** Every step keeps enough woken workers for the items in the queue. */
module WakeSteps {
  import opened Common
  import opened QueueModel
  import opened PoolMachine
  import opened PoolInvariant
  import opened StepFrames

  ghost function Owed(pc: WorkerPc): nat {
    if OwedLook(pc) then 1 else 0
  }

  lemma {:induction false} SignalledUpdate(workers: seq<WorkerPc>, w: nat, pc: WorkerPc)
    requires w < |workers|
    ensures Signalled(workers[w := pc]) == Signalled(workers) - Owed(workers[w]) + Owed(pc)
  {
    var n := |workers| - 1;
    if w == n {
      assert workers[w := pc][..n] == workers[..n];
    } else {
      SignalledUpdate(workers[..n], w, pc);
      assert workers[w := pc][..n] == workers[..n][w := pc];
    }
  }

  /** Nobody fell asleep. */
  lemma BlockedBefore(s: Pool, s': Pool)
    requires |s'.workers| == |s.workers|
    requires forall w :: 0 <= w < |s.workers| && s'.workers[w] == Blocked ==> s.workers[w] == Blocked
    ensures SomeBlocked(s') ==> SomeBlocked(s)
  {}

  lemma ClientKeepsWakeUps(s: Pool, t: nat, wake: Option<nat>, s': Pool)
    requires WakeInv(s) && ClientReady(s, t, wake) && s' == ClientNext(s, t, wake)
    ensures WakeInv(s')
  {
    if s.tickets[t].client == InEnqueue && wake.Some? {
      SignalledUpdate(s.workers, wake.value, Woken(true));
      assert SomeBlocked(s);
    } else {
      BlockedBefore(s, s');
    }
  }

  lemma PopKeepsWakeUps(s: Pool, w: nat, s': Pool)
    requires WakeInv(s) && PopsOr(s, s', w)
    ensures WakeInv(s')
  {
    SignalledUpdate(s.workers, w, s'.workers[w]);
    if s'.workers[w] != Blocked {
      BlockedBefore(s, s');
    }
  }

  lemma WorkKeepsWakeUps(s: Pool, w: nat, s': Pool, t: nat)
    requires WakeInv(s) && Works(s, s', w, t)
    ensures WakeInv(s')
  {
    SignalledUpdate(s.workers, w, s'.workers[w]);
    BlockedBefore(s, s');
  }

  lemma CancelKeepsWakeUps(s: Pool, w: nat, heir: Option<nat>, s': Pool)
    requires WakeInv(s) && CancelReady(s, w, heir) && s' == CancelNext(s, w, heir)
    ensures WakeInv(s')
  {
    if heir.Some? {
      SignalledUpdate(s.workers, heir.value, Woken(true));
    }
    SignalledUpdate(Signal(s.workers, heir), w, CancelWoken);
    BlockedBefore(s, s');
  }

  lemma WorldKeepsWakeUps(s: Pool, e: Step, s': Pool)
    requires WakeInv(s) && Enabled(s, e) && Worldly(e) && s' == After(s, e)
    ensures WakeInv(s')
  {
    match e
    case Cancel(w, heir) => CancelKeepsWakeUps(s, w, heir, s');
    case WakeWorker(w) =>
      SignalledUpdate(s.workers, w, Woken(false));
      assert SomeBlocked(s);
    case _ => BlockedBefore(s, s');
  }
}
