/** What every reachable state of PoolMachine satisfies, one concern at a time. */
module PoolInvariant {
  import opened Common
  import opened QueueModel
  import opened PoolMachine

  // ------------------------------------------------------------------------
  // Mutexes

  ghost function Owner(s: Pool, m: Mutex): Option<Agent> {
    match m
    case QueueMutex => s.mutex
    case FutureMutex(t) => if t < |s.tickets| then s.tickets[t].mutex else None
  }

  ghost function ClientHolds(t: nat, pc: ClientPc): Option<Mutex> {
    match pc
    case InEnqueue => Some(QueueMutex)
    case AtEnqueueUnlock => Some(QueueMutex)
    case InLink => Some(FutureMutex(t))
    case AtLinkUnlock => Some(FutureMutex(t))
    case _ => None
  }

  ghost function WorkerHolds(pc: WorkerPc): Option<Mutex> {
    match pc
    case InPop(_) => Some(QueueMutex)
    case AtPopUnlock(_) => Some(QueueMutex)
    case CancelUnlock => Some(QueueMutex)
    case InSetValue(t, _) => Some(FutureMutex(t))
    case InSetFulfilled(t) => Some(FutureMutex(t))
    case InSetResolved(t) => Some(FutureMutex(t))
    case InBroadcast(t) => Some(FutureMutex(t))
    case AtFutureUnlock(t) => Some(FutureMutex(t))
    case _ => None
  }

  ghost function CallHolds(c: Call): Option<Mutex> {
    match c.pc
    case InWait => Some(FutureMutex(c.t))
    case AtWaitUnlock => Some(FutureMutex(c.t))
    case InAdd => Some(FutureMutex(c.t))
    case AtAddUnlock => Some(FutureMutex(c.t))
    case _ => None
  }

  /** The mutex whose critical section the agent's program counter is in. */
  ghost function Holding(s: Pool, a: Agent): Option<Mutex> {
    match a
    case Client(t) => if t < |s.tickets| then ClientHolds(t, s.tickets[t].client) else None
    case Worker(w) => if w < |s.workers| then WorkerHolds(s.workers[w]) else None
    case Caller(r) => if r < |s.calls| then CallHolds(s.calls[r]) else None
  }

  ghost predicate LockInv(s: Pool) {
    && (forall a :: Holding(s, a).Some? ==> Owner(s, Holding(s, a).value) == Some(a))
    && (forall m :: Owner(s, m).Some? ==> Holding(s, Owner(s, m).value) == Some(m))
  }

  // ------------------------------------------------------------------------
  // Closures

  ghost predicate Distinct(s: seq<nat>) {
    forall i, j :: 0 <= i < j < |s| ==> s[i] != s[j]
  }

  ghost predicate PlaceIs(s: Pool, t: nat, place: Place) {
    t < |s.tickets| && s.tickets[t].place == place
  }

  ghost function Missing(s: Pool): seq<nat> {
    s.dropped + Stray(s.queue)
  }

  ghost predicate QueueInv(s: Pool) {
    && Distinct(Reach(s.queue)) && Distinct(Missing(s))
    && (forall t: nat :: t in Reach(s.queue) <==> PlaceIs(s, t, Queued))
    && (forall t: nat :: t in Missing(s) <==> PlaceIs(s, t, Lost))
    && (forall t: nat :: PlaceIs(s, t, Unqueued)
          <==> t < |s.tickets| && s.tickets[t].client in {AtEnqueueLock, InEnqueue})
    && (s.variant == Repaired ==> s.queue.Attached? && s.dropped == [])
  }

  ghost predicate CarryInv(s: Pool) {
    && (forall w :: 0 <= w < |s.workers| && Carries(s.workers[w]).Some? ==>
          PlaceIs(s, Carries(s.workers[w]).value, Held(w)))
    && (forall t :: 0 <= t < |s.tickets| && s.tickets[t].place.Held? ==>
          var w := s.tickets[t].place.w;
          w < |s.workers| && Carries(s.workers[w]) == Some(t))
  }

  // ------------------------------------------------------------------------
  // Futures

  ghost predicate Pending(k: Ticket) {
    k.value == NULL && !k.fulfilled && !k.resolved && k.resolutions == 0 && k.headRead == None && k.ran == []
  }

  ghost function Result(k: Ticket): Value {
    k.fn(k.args)
  }

  ghost predicate Resolved(k: Ticket) {
    k.value == Result(k) && k.fulfilled && k.resolved && k.resolutions == 1
  }

  ghost predicate WalkedTo(k: Ticket, low: nat) {
    && k.headRead.Some? && low <= k.headRead.value <= |k.chain|
    && k.ran == Down(k.headRead.value, low)
  }

  ghost predicate StageOk(k: Ticket, pc: WorkerPc) {
    match pc
    case AtPopUnlock(_) => Pending(k)
    case AtRun(_) => Pending(k)
    case AtFutureLock(_, v) => Pending(k) && v == Result(k)
    case InSetValue(_, v) => Pending(k) && v == Result(k)
    case InSetFulfilled(_) => k.value == Result(k) && Pending(k.(value := NULL))
    case InSetResolved(_) => k.value == Result(k) && k.fulfilled && Pending(k.(value := NULL, fulfilled := false))
    case InBroadcast(_) => Resolved(k) && k.headRead == None && k.ran == []
    case AtFutureUnlock(_) => Resolved(k) && k.headRead == None && k.ran == []
    case AtHeadRead(_) => Resolved(k) && k.headRead == None && k.ran == []
    case InWalk(_, low) => Resolved(k) && WalkedTo(k, low)
    case _ => false
  }

  ghost predicate ChainOk(k: Ticket) {
    && (k.chain == [] <==> k.client in {AtEnqueueLock, InEnqueue, AtEnqueueUnlock, AtLinkLock, InLink})
    && (forall i :: 0 <= i < |k.chain| ==> (k.chain[i] == Cleanup <==> i == 0))
  }

  ghost predicate TicketOk(s: Pool, t: nat)
    requires t < |s.tickets|
  {
    var k := s.tickets[t];
    && ChainOk(k)
    && match k.place
       case Held(w) => w < |s.workers| && StageOk(k, s.workers[w])
       case Finished => Resolved(k) && WalkedTo(k, 0)
       case _ => Pending(k)
  }

  ghost predicate TicketInv(s: Pool) {
    forall t :: 0 <= t < |s.tickets| ==> TicketOk(s, t)
  }

  // ------------------------------------------------------------------------
  // Calls on futures

  ghost predicate Broadcasting(s: Pool, t: nat)
    requires t < |s.tickets|
  {
    var place := s.tickets[t].place;
    place.Held? && place.w < |s.workers| && s.workers[place.w] == InBroadcast(t)
  }

  /** Nobody asleep on t would sleep through its resolution: the broadcast is still to come. */
  ghost predicate MaySleep(s: Pool, t: nat)
    requires t < |s.tickets|
  {
    s.tickets[t].resolved ==> Broadcasting(s, t)
  }

  /** future_wait, future_get and future_add_callback each go their own way. */
  ghost predicate Fits(request: Request, pc: CallPc) {
    match pc
    case AtRead => request == Get
    case Got(_) => request == Get
    case Waited => request == Wait
    case AtAddLock => request.Add?
    case InAdd => request.Add?
    case AtAddUnlock => request.Add?
    case Added => request.Add?
    case _ => !request.Add?
  }

  ghost predicate CallOk(s: Pool, c: Call) {
    && c.t < |s.tickets| && s.tickets[c.t].client == Returned && Fits(c.request, c.pc)
    && match c.pc
       case Asleep => MaySleep(s, c.t)
       case AtWaitUnlock => s.tickets[c.t].resolved
       case Waited => s.tickets[c.t].resolved
       case AtRead => s.tickets[c.t].resolved
       case Got(v) => s.tickets[c.t].resolved && v == s.tickets[c.t].value
       case _ => true
  }

  ghost predicate CallInv(s: Pool) {
    forall r :: 0 <= r < |s.calls| ==> CallOk(s, s.calls[r])
  }

  // ------------------------------------------------------------------------
  // Wake-ups of workers

  ghost predicate OwedLook(pc: WorkerPc) {
    pc == Woken(true) || pc == InPop(true)
  }

  /** Workers that a signal woke and that have not looked at `head` since. */
  ghost function Signalled(workers: seq<WorkerPc>): nat {
    if workers == [] then 0
    else Signalled(workers[..|workers| - 1]) + if OwedLook(workers[|workers| - 1]) then 1 else 0
  }

  ghost predicate SomeBlocked(s: Pool) {
    exists w :: 0 <= w < |s.workers| && s.workers[w] == Blocked
  }

  ghost predicate WakeInv(s: Pool) {
    SomeBlocked(s) ==> |Reach(s.queue)| <= Signalled(s.workers)
  }

  // ------------------------------------------------------------------------
  // Shutdown and memory

  /** Executors from this one up have been joined and freed. */
  ghost function JoinedFrom(s: Pool): nat {
    match s.destroyer
    case NotStarted => |s.workers|
    case AtCancel(k) => k
    case AtJoin(k) => k
    case _ => 0
  }

  ghost predicate Cancelled(pc: WorkerPc) {
    pc == CancelWoken || pc == CancelUnlock || pc == Dead
  }

  ghost predicate DestroyInv(s: Pool) {
    && JoinedFrom(s) <= |s.workers|
    && (s.destroyer.AtJoin? ==> 0 < s.destroyer.k)
    && (s.destroyer.Draining? ==> s.destroyer.k <= |Reach(s.queue)|)
    && (forall w :: 0 <= w < |s.workers| && Cancelled(s.workers[w]) ==> CancelRequested(s, w))
    && (forall w :: JoinedFrom(s) <= w < |s.workers| ==> s.workers[w] == Dead)
    && (s.destroyer != NotStarted ==>
          forall t :: 0 <= t < |s.tickets| ==> PastEnqueue(s.tickets[t].client))
  }

  /** How many of the still queued nodes queue_destroy has freed. */
  ghost function Drained(s: Pool): nat {
    match s.destroyer
    case Draining(k) => if k <= |Reach(s.queue)| then k else 0
    case Destroyed => |Reach(s.queue)|
    case _ => 0
  }

  ghost predicate IsFreed(s: Pool, o: Obj) {
    match o
    case ItemNode(t) =>
      t < |s.tickets| && (
        match s.tickets[t].place
        case Held(w) => w < |s.workers| && s.workers[w] != AtPopUnlock(t) && s.workers[w] != AtRun(t)
        case Finished => true
        case Queued => t in Reach(s.queue)[..Drained(s)]
        case _ => false)
    case Closure(t) => PlaceIs(s, t, Finished)
    case Promise(t) => t < |s.tickets| && 0 in s.tickets[t].ran
    case Executor(w) => JoinedFrom(s) <= w < |s.workers|
    case WorkQueue => s.destroyer == Destroyed
  }

  ghost predicate FreeInv(s: Pool) {
    forall o :: s.frees[o] == if IsFreed(s, o) then 1 else 0
  }

  ghost predicate Inv(s: Pool) {
    && LockInv(s) && QueueInv(s) && CarryInv(s) && TicketInv(s)
    && CallInv(s) && WakeInv(s) && DestroyInv(s) && FreeInv(s)
  }
}
