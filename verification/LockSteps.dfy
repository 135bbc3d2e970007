/** Every step keeps mutexes and program counters in agreement. */
module LockSteps {
  import opened Common
  import opened QueueModel
  import opened PoolMachine
  import opened PoolInvariant
  import opened StepFrames

  /** From s to s', agent a goes from holding `from` to holding `to`, and nothing else is taken or released. */
  ghost predicate Handover(s: Pool, s': Pool, a: Agent, from: Option<Mutex>, to: Option<Mutex>) {
    && Holding(s, a) == from && Holding(s', a) == to
    && (forall b :: b != a ==> Holding(s', b) == Holding(s, b))
    && (from == to || from == None || to == None)
    && (forall m :: Some(m) != from && Some(m) != to ==> Owner(s', m) == Owner(s, m))
    && (from == to && to.Some? ==> Owner(s', to.value) == Owner(s, to.value))
    && (from == None && to.Some? ==> Owner(s, to.value) == None && Owner(s', to.value) == Some(a))
    && (to == None && from.Some? ==> Owner(s', from.value) == None)
  }

  lemma HandoverKeepsLocks(s: Pool, s': Pool, a: Agent, from: Option<Mutex>, to: Option<Mutex>)
    requires LockInv(s) && Handover(s, s', a, from, to)
    ensures LockInv(s')
  {}

  /** A client takes or releases at most one mutex at a time. */
  lemma ClientMutexes(s: Pool, t: nat, wake: Option<nat>, s': Pool)
    requires ClientReady(s, t, wake) && s' == ClientNext(s, t, wake)
    ensures |s'.tickets| == |s.tickets| && |s'.workers| == |s.workers| && s'.calls == s.calls
    ensures forall u :: 0 <= u < |s.tickets| && u != t ==> s'.tickets[u] == s.tickets[u]
    ensures forall w :: 0 <= w < |s.workers| ==> WorkerHolds(s'.workers[w]) == WorkerHolds(s.workers[w])
    ensures var k, k' := s.tickets[t], s'.tickets[t];
      match k.client
      case AtEnqueueLock => s.mutex == None && s'.mutex == Some(Client(t)) && k'.mutex == k.mutex
      case AtEnqueueUnlock => s'.mutex == None && k'.mutex == k.mutex
      case AtLinkLock => k.mutex == None && k'.mutex == Some(Client(t)) && s'.mutex == s.mutex
      case AtLinkUnlock => k'.mutex == None && s'.mutex == s.mutex
      case _ => s'.mutex == s.mutex && k'.mutex == k.mutex
    ensures var pc, pc' := s.tickets[t].client, s'.tickets[t].client;
      && (pc == AtEnqueueLock ==> pc' == InEnqueue) && (pc == InEnqueue ==> pc' == AtEnqueueUnlock)
      && (pc == AtEnqueueUnlock ==> pc' == AtLinkLock) && (pc == AtLinkLock ==> pc' == InLink)
      && (pc == InLink ==> pc' == AtLinkUnlock) && (pc == AtLinkUnlock ==> pc' == Returned)
  {}

  lemma ClientHandover(s: Pool, t: nat, wake: Option<nat>, s': Pool)
    requires LockInv(s) && ClientReady(s, t, wake) && s' == ClientNext(s, t, wake)
    ensures Handover(s, s', Client(t), ClientHolds(t, s.tickets[t].client), ClientHolds(t, s'.tickets[t].client))
  {
    ClientMutexes(s, t, wake, s');
  }

  lemma PopHandover(s: Pool, w: nat, s': Pool)
    requires LockInv(s) && WorkerReady(s, w) && InQueuePop(s.workers[w]) && s' == PopNext(s, w)
    ensures Handover(s, s', Worker(w), WorkerHolds(s.workers[w]), WorkerHolds(s'.workers[w]))
  {}

  /** Of the mutexes, a worker with ticket t takes or releases that of t's future only. */
  lemma WorkMutex(s: Pool, w: nat, s': Pool, t: nat)
    requires WorkerReady(s, w) && s' == WorkerNext(s, w) && Works(s, s', w, t)
    ensures var k, k' := s.tickets[t], s'.tickets[t];
      if s.workers[w].AtFutureLock? then
        k.mutex == None && k'.mutex == Some(Worker(w))
        && WorkerHolds(s.workers[w]) == None && WorkerHolds(s'.workers[w]) == Some(FutureMutex(t))
      else if s.workers[w].AtFutureUnlock? then
        k'.mutex == None && WorkerHolds(s.workers[w]) == Some(FutureMutex(t)) && WorkerHolds(s'.workers[w]) == None
      else k'.mutex == k.mutex && WorkerHolds(s'.workers[w]) == WorkerHolds(s.workers[w])
  {}

  lemma WorkHandover(s: Pool, w: nat, s': Pool, t: nat)
    requires LockInv(s) && WorkerReady(s, w) && s' == WorkerNext(s, w) && Works(s, s', w, t)
    ensures Handover(s, s', Worker(w), WorkerHolds(s.workers[w]), WorkerHolds(s'.workers[w]))
  {
    WorkMutex(s, w, s', t);
  }

  lemma CallHandover(s: Pool, r: nat, s': Pool)
    requires LockInv(s) && CallReady(s, r) && s' == CallNext(s, r)
    ensures Handover(s, s', Caller(r), CallHolds(s.calls[r]), CallHolds(s'.calls[r]))
  {}

  lemma QuietHandover(s: Pool, s': Pool)
    requires LockInv(s) && Quiet(s, s')
    ensures Handover(s, s', Client(|s.tickets|), None, None)
  {}

  lemma ClientKeepsLocks(s: Pool, t: nat, wake: Option<nat>, s': Pool)
    requires LockInv(s) && ClientReady(s, t, wake) && s' == ClientNext(s, t, wake)
    ensures LockInv(s')
  {
    ClientHandover(s, t, wake, s');
    HandoverKeepsLocks(s, s', Client(t), ClientHolds(t, s.tickets[t].client), ClientHolds(t, s'.tickets[t].client));
  }

  lemma PopKeepsLocks(s: Pool, w: nat, s': Pool)
    requires LockInv(s) && WorkerReady(s, w) && InQueuePop(s.workers[w]) && s' == PopNext(s, w)
    ensures LockInv(s')
  {
    PopHandover(s, w, s');
    HandoverKeepsLocks(s, s', Worker(w), WorkerHolds(s.workers[w]), WorkerHolds(s'.workers[w]));
  }

  lemma WorkKeepsLocks(s: Pool, w: nat, s': Pool, t: nat)
    requires LockInv(s) && WorkerReady(s, w) && s' == WorkerNext(s, w) && Works(s, s', w, t)
    ensures LockInv(s')
  {
    WorkHandover(s, w, s', t);
    HandoverKeepsLocks(s, s', Worker(w), WorkerHolds(s.workers[w]), WorkerHolds(s'.workers[w]));
  }

  lemma CallKeepsLocks(s: Pool, r: nat, s': Pool)
    requires LockInv(s) && CallReady(s, r) && s' == CallNext(s, r)
    ensures LockInv(s')
  {
    CallHandover(s, r, s');
    HandoverKeepsLocks(s, s', Caller(r), CallHolds(s.calls[r]), CallHolds(s'.calls[r]));
  }

  lemma WorldKeepsLocks(s: Pool, s': Pool)
    requires LockInv(s) && Quiet(s, s')
    ensures LockInv(s')
  {
    QuietHandover(s, s');
    HandoverKeepsLocks(s, s', Client(|s.tickets|), None, None);
  }
}
