/**
 The whole pool as a transition system: any number of clients inside
 future_pool_execute, any number of later calls of future_wait, future_get and
 future_add_callback, n worker threads, and the thread that destroys the pool.

 A step is what one thread does between two points where another can interfere:
 taking a mutex, one body of a critical section, one unlocked access.  Condition
 variables keep sets of blocked threads; a woken thread must win the mutex again and
 re-check, and may wake for no reason.  A ticket number stands for one call of
 future_pool_execute and for the promise, future, closure and queue node it makes.
 */
module PoolMachine {
  import opened Common
  import opened QueueModel

  datatype Agent = Client(t: nat) | Worker(w: nat) | Caller(r: nat)

  datatype Mutex = QueueMutex | FutureMutex(t: nat)

  datatype Callback = Cleanup | User(id: nat)

  /** Where a client is in future_pool_execute (src/future_pool.c:69-83). */
  datatype ClientPc =
    | AtEnqueueLock
    | InEnqueue
    | AtEnqueueUnlock
    | AtLinkLock
    | InLink
    | AtLinkUnlock
    | Returned

  /** Where a worker is in executor_thread (src/executor.c:50-56). */
  datatype WorkerPc =
    | AtPopLock
    | InPop(signalled: bool)             // holds the queue mutex, at `while (!self->head)`
    | Blocked
    | Woken(signalled: bool)             // by a signal, or spuriously
    | AtPopUnlock(t: nat)
    | AtRun(t: nat)
    | AtFutureLock(t: nat, v: Value)
    | InSetValue(t: nat, v: Value)
    | InSetFulfilled(t: nat)
    | InSetResolved(t: nat)
    | InBroadcast(t: nat)
    | AtFutureUnlock(t: nat)
    | AtHeadRead(t: nat)
    | InWalk(t: nat, k: nat)             // `callback` is node k - 1; null when k is 0
    | CancelWoken                        // cancelled in the wait, wants the mutex back
    | CancelUnlock                       // in thread_relinquish_lock
    | Dead

  /** What a user calls on a future. */
  datatype Request = Wait | Get | Add(id: nat)

  datatype CallPc =
    | AtWaitLock
    | InWait
    | Asleep
    | Roused
    | AtWaitUnlock
    | Waited
    | AtRead
    | Got(v: Value)
    | AtAddLock
    | InAdd
    | AtAddUnlock
    | Added

  datatype Call = Call(t: nat, request: Request, pc: CallPc)

  /**
   Where future_pool_destroy is: executors k - 1 down to 0 are still to be destroyed, or
   k nodes of the queue have been freed and `head = head->next` comes next.
   */
  datatype DestroyerPc = NotStarted | AtCancel(k: nat) | AtJoin(k: nat) | Draining(k: nat) | Destroyed

  /** History: what became of the closure of a ticket. */
  datatype Place = Unqueued | Queued | Lost | Held(w: nat) | Finished

  datatype Ticket = Ticket(
    fn: Value -> Value, args: Value, client: ClientPc,
    // future_t; `chain` is the callback list, oldest node first
    mutex: Option<Agent>, value: Value, fulfilled: bool, resolved: bool, chain: seq<Callback>,
    // history: the chain length at the walk's head read, the nodes run, the resolutions
    place: Place, headRead: Option<nat>, ran: seq<nat>, resolutions: nat)

  /** What malloc gives and free takes back. */
  datatype Obj = ItemNode(t: nat) | Closure(t: nat) | Promise(t: nat) | Executor(w: nat) | WorkQueue

  datatype Pool = Pool(
    variant: Variant,
    queue: QueueState<nat>, mutex: Option<Agent>,
    tickets: seq<Ticket>, workers: seq<WorkerPc>, calls: seq<Call>, destroyer: DestroyerPc,
    // history
    dropped: seq<nat>, frees: multiset<Obj>)

  datatype Step =
    | Submit(fn: Value -> Value, args: Value)
    | StartCall(t: nat, request: Request)
    | BeginDestroy
    | WakeWorker(w: nat)                       // spurious
    | WakeCall(r: nat)                         // spurious
    | ClientGo(t: nat, wake: Option<nat>)      // `wake`: the worker the signal picks
    | WorkerGo(w: nat)
    | CallGo(r: nat)
    | Cancel(w: nat, heir: Option<nat>)        // `heir`: who gets the signal w had consumed
    | DestroyGo

  ghost function Initial(n: nat, variant: Variant): Pool {
    Pool(variant, Attached([]), None, [], seq(n, _ => AtPopLock), [], NotStarted, [], multiset{})
  }

  // ------------------------------------------------------------------------
  // future_pool_execute

  ghost predicate PastEnqueue(pc: ClientPc) {
    pc != AtEnqueueLock && pc != InEnqueue && pc != AtEnqueueUnlock
  }

  /** pthread_cond_signal wakes one blocked worker, if there is one. */
  ghost predicate CanSignal(s: Pool, wake: Option<nat>) {
    match wake
    case Some(w) => w < |s.workers| && s.workers[w] == Blocked
    case None => forall w :: 0 <= w < |s.workers| ==> s.workers[w] != Blocked
  }

  ghost function Signal(workers: seq<WorkerPc>, wake: Option<nat>): seq<WorkerPc> {
    if wake.Some? && wake.value < |workers| then workers[wake.value := Woken(true)] else workers
  }

  ghost predicate ClientReady(s: Pool, t: nat, wake: Option<nat>) {
    && t < |s.tickets|
    && match s.tickets[t].client
       case AtEnqueueLock => s.mutex == None
       case InEnqueue => CanSignal(s, wake)
       case AtLinkLock => s.tickets[t].mutex == None
       case Returned => false
       case _ => true
  }

  ghost function ClientNext(s: Pool, t: nat, wake: Option<nat>): Pool
    requires ClientReady(s, t, wake)
  {
    var k := s.tickets[t];
    match k.client
    case AtEnqueueLock =>
      s.(mutex := Some(Client(t)), tickets := s.tickets[t := k.(client := InEnqueue)])
    case InEnqueue =>
      s.(queue := Enqueue(s.queue, t),
         tickets := s.tickets[t := k.(client := AtEnqueueUnlock,
                                      place := if s.queue.Detached? then Lost else Queued)],
         workers := Signal(s.workers, wake))
    case AtEnqueueUnlock =>
      s.(mutex := None, tickets := s.tickets[t := k.(client := AtLinkLock)])
    case AtLinkLock =>
      s.(tickets := s.tickets[t := k.(client := InLink, mutex := Some(Client(t)))])
    case InLink =>
      s.(tickets := s.tickets[t := k.(client := AtLinkUnlock, chain := k.chain + [Cleanup])])
    case _ =>
      s.(tickets := s.tickets[t := k.(client := Returned, mutex := None)])
  }

  // ------------------------------------------------------------------------
  // executor_thread

  /** The ticket whose closure the worker holds. */
  ghost function Carries(pc: WorkerPc): Option<nat> {
    match pc
    case AtPopUnlock(t) => Some(t)
    case AtRun(t) => Some(t)
    case AtFutureLock(t, _) => Some(t)
    case InSetValue(t, _) => Some(t)
    case InSetFulfilled(t) => Some(t)
    case InSetResolved(t) => Some(t)
    case InBroadcast(t) => Some(t)
    case AtFutureUnlock(t) => Some(t)
    case AtHeadRead(t) => Some(t)
    case InWalk(t, _) => Some(t)
    case _ => None
  }

  ghost predicate WorkerReady(s: Pool, w: nat) {
    && w < |s.workers|
    && (Carries(s.workers[w]).Some? ==> Carries(s.workers[w]).value < |s.tickets|)
    && match s.workers[w]
       case AtPopLock => s.mutex == None
       case Woken(_) => s.mutex == None
       case CancelWoken => s.mutex == None
       case InPop(_) => Reach(s.queue) == [] || Reach(s.queue)[0] < |s.tickets|
       case AtFutureLock(t, _) => s.tickets[t].mutex == None
       case InWalk(t, k) => k <= |s.tickets[t].chain|
       case Blocked => false
       case Dead => false
       case _ => true
  }

  ghost function Rouse(calls: seq<Call>, t: nat): seq<Call> {
    seq(|calls|, r requires 0 <= r < |calls| =>
      if calls[r].t == t && calls[r].pc == Asleep then calls[r].(pc := Roused) else calls[r])
  }

  ghost function WorkerAt(s: Pool, w: nat, pc: WorkerPc): Pool
    requires w < |s.workers|
  {
    s.(workers := s.workers[w := pc])
  }

  /** queue_pop. */
  ghost function PopNext(s: Pool, w: nat): Pool
    requires WorkerReady(s, w)
  {
    match s.workers[w]
    case AtPopLock => WorkerAt(s, w, InPop(false)).(mutex := Some(Worker(w)))
    case Woken(signalled) => WorkerAt(s, w, InPop(signalled)).(mutex := Some(Worker(w)))
    case InPop(_) =>
      if Reach(s.queue) == [] then WorkerAt(s, w, Blocked).(mutex := None)
      else
        var t := Reach(s.queue)[0];
        WorkerAt(s, w, AtPopUnlock(t)).(
          queue := Pop(s.variant, s.queue), dropped := s.dropped + Stray(s.queue),
          tickets := s.tickets[t := s.tickets[t].(place := Held(w))])
    case AtPopUnlock(t) => WorkerAt(s, w, AtRun(t)).(mutex := None)
    // cancelled in pthread_cond_wait: the cleanup handler runs with the mutex held
    case CancelWoken => WorkerAt(s, w, CancelUnlock).(mutex := Some(Worker(w)))
    case CancelUnlock => WorkerAt(s, w, Dead).(mutex := None)
    case _ => s
  }

  /** The rest of the loop body: what the worker does to the future of the ticket it carries. */
  ghost function FutureNext(s: Pool, w: nat): Ticket
    requires WorkerReady(s, w) && Carries(s.workers[w]).Some?
  {
    var k := s.tickets[Carries(s.workers[w]).value];
    match s.workers[w]
    case AtFutureLock(_, _) => k.(mutex := Some(Worker(w)))
    case InSetValue(_, v) => k.(value := v)
    case InSetFulfilled(_) => k.(fulfilled := true)
    case InSetResolved(_) => k.(resolved := true, resolutions := k.resolutions + 1)
    case AtFutureUnlock(_) => k.(mutex := None)
    case AtHeadRead(_) => k.(headRead := Some(|k.chain|))
    case InWalk(_, left) => if left == 0 then k.(place := Finished) else k.(ran := k.ran + [left - 1])
    case _ => k
  }

  /** ... where that leaves the worker ... */
  ghost function PcNext(s: Pool, w: nat): WorkerPc
    requires WorkerReady(s, w) && Carries(s.workers[w]).Some?
  {
    var k := s.tickets[Carries(s.workers[w]).value];
    match s.workers[w]
    case AtRun(t) => AtFutureLock(t, k.fn(k.args))
    case AtFutureLock(t, v) => InSetValue(t, v)
    case InSetValue(t, _) => InSetFulfilled(t)
    case InSetFulfilled(t) => InSetResolved(t)
    case InSetResolved(t) => InBroadcast(t)
    case InBroadcast(t) => AtFutureUnlock(t)
    case AtFutureUnlock(t) => AtHeadRead(t)
    case AtHeadRead(t) => InWalk(t, |k.chain|)
    case InWalk(t, left) => if left == 0 then AtPopLock else InWalk(t, left - 1)
    case pc => pc
  }

  /** ... and what it frees: the node, then in the walk the promise, then the closure. */
  ghost function FreedBy(s: Pool, w: nat): multiset<Obj>
    requires WorkerReady(s, w)
  {
    match s.workers[w]
    case AtRun(t) => multiset{ItemNode(t)}
    case InWalk(t, left) =>
      if left == 0 then multiset{Closure(t)}
      else if s.tickets[t].chain[left - 1] == Cleanup then multiset{Promise(t)}
      else multiset{}
    case _ => multiset{}
  }

  ghost predicate InQueuePop(pc: WorkerPc) {
    Carries(pc) == None || pc.AtPopUnlock?
  }

  ghost function WorkerNext(s: Pool, w: nat): Pool
    requires WorkerReady(s, w)
  {
    if InQueuePop(s.workers[w]) then PopNext(s, w)
    else
      var t := Carries(s.workers[w]).value;
      s.(workers := s.workers[w := PcNext(s, w)],
         tickets := s.tickets[t := FutureNext(s, w)],
         calls := if s.workers[w] == InBroadcast(t) then Rouse(s.calls, t) else s.calls,
         frees := s.frees + FreedBy(s, w))
  }

  /** future_pool_destroy has called pthread_cancel on worker w. */
  ghost predicate CancelRequested(s: Pool, w: nat) {
    match s.destroyer
    case NotStarted => false
    case AtCancel(k) => k <= w
    case AtJoin(k) => k <= w + 1
    case _ => true
  }

  /**
   The only cancellation point of the loop is the wait.  A worker already woken may
   still act on the request; if a signal woke it, that signal goes to another blocked
   worker, if there is one.
   */
  ghost predicate CancelReady(s: Pool, w: nat, heir: Option<nat>) {
    && w < |s.workers| && CancelRequested(s, w)
    && match s.workers[w]
       case Blocked => heir == None
       case Woken(signalled) => if signalled then CanSignal(s, heir) else heir == None
       case _ => false
  }

  ghost function CancelNext(s: Pool, w: nat, heir: Option<nat>): Pool
    requires CancelReady(s, w, heir)
  {
    s.(workers := Signal(s.workers, heir)[w := CancelWoken])
  }

  // ------------------------------------------------------------------------
  // future_wait, future_get, future_add_callback

  ghost predicate CallReady(s: Pool, r: nat) {
    && r < |s.calls| && s.calls[r].t < |s.tickets|
    && match s.calls[r].pc
       case AtWaitLock => s.tickets[s.calls[r].t].mutex == None
       case Roused => s.tickets[s.calls[r].t].mutex == None
       case AtAddLock => s.tickets[s.calls[r].t].mutex == None
       case InAdd => s.calls[r].request.Add?
       case Asleep => false
       case Waited => false
       case Got(_) => false
       case Added => false
       case _ => true
  }

  ghost function CallNext(s: Pool, r: nat): Pool
    requires CallReady(s, r)
  {
    var c := s.calls[r];
    var k := s.tickets[c.t];
    var (pc', k') :=
      match c.pc
      case AtWaitLock => (InWait, k.(mutex := Some(Caller(r))))
      case Roused => (InWait, k.(mutex := Some(Caller(r))))
      case InWait => if k.resolved then (AtWaitUnlock, k) else (Asleep, k.(mutex := None))
      case AtWaitUnlock => (if c.request == Get then AtRead else Waited, k.(mutex := None))
      case AtRead => (Got(k.value), k)
      case AtAddLock => (InAdd, k.(mutex := Some(Caller(r))))
      case InAdd => (AtAddUnlock, k.(chain := k.chain + [User(c.request.id)]))
      case _ => (Added, k.(mutex := None));
    s.(calls := s.calls[r := c.(pc := pc')], tickets := s.tickets[c.t := k'])
  }

  // ------------------------------------------------------------------------
  // future_pool_destroy

  ghost predicate DestroyReady(s: Pool) {
    match s.destroyer
    case NotStarted => false
    case AtJoin(k) => 0 < k <= |s.workers| && s.workers[k - 1] == Dead
    case Destroyed => false
    case _ => true
  }

  ghost function DestroyNext(s: Pool): Pool
    requires DestroyReady(s)
  {
    match s.destroyer
    case AtCancel(k) => s.(destroyer := if k == 0 then Draining(0) else AtJoin(k))
    case AtJoin(k) =>
      s.(destroyer := AtCancel(k - 1), frees := s.frees + multiset{Executor(k - 1)})
    case Draining(k) =>
      if k < |Reach(s.queue)| then
        s.(destroyer := Draining(k + 1), frees := s.frees + multiset{ItemNode(Reach(s.queue)[k])})
      else
        s.(destroyer := Destroyed, frees := s.frees + multiset{WorkQueue})
  }

  // ------------------------------------------------------------------------
  // Steps and runs

  /** The last five kinds of step are the library's own; the others are the world's. */
  ghost predicate Enabled(s: Pool, e: Step) {
    match e
    case Submit(_, _) => s.destroyer == NotStarted
    case StartCall(t, _) => t < |s.tickets| && s.tickets[t].client == Returned
    case BeginDestroy =>
      && s.destroyer == NotStarted
      && forall t :: 0 <= t < |s.tickets| ==> PastEnqueue(s.tickets[t].client)
    case WakeWorker(w) => w < |s.workers| && s.workers[w] == Blocked
    case WakeCall(r) => r < |s.calls| && s.calls[r].pc == Asleep
    case ClientGo(t, wake) => ClientReady(s, t, wake)
    case WorkerGo(w) => WorkerReady(s, w)
    case CallGo(r) => CallReady(s, r)
    case Cancel(w, heir) => CancelReady(s, w, heir)
    case DestroyGo => DestroyReady(s)
  }

  ghost predicate Internal(e: Step) {
    e.ClientGo? || e.WorkerGo? || e.CallGo? || e.Cancel? || e.DestroyGo?
  }

  ghost function NewTicket(fn: Value -> Value, args: Value): Ticket {
    Ticket(fn, args, AtEnqueueLock, None, NULL, false, false, [], Unqueued, None, [], 0)
  }

  ghost function After(s: Pool, e: Step): Pool
    requires Enabled(s, e)
  {
    match e
    case Submit(fn, args) => s.(tickets := s.tickets + [NewTicket(fn, args)])
    case StartCall(t, request) =>
      s.(calls := s.calls + [Call(t, request, if request.Add? then AtAddLock else AtWaitLock)])
    case BeginDestroy => s.(destroyer := AtCancel(|s.workers|))
    case WakeWorker(w) => WorkerAt(s, w, Woken(false))
    case WakeCall(r) => s.(calls := s.calls[r := s.calls[r].(pc := Roused)])
    case ClientGo(t, wake) => ClientNext(s, t, wake)
    case WorkerGo(w) => WorkerNext(s, w)
    case CallGo(r) => CallNext(s, r)
    case Cancel(w, heir) => CancelNext(s, w, heir)
    case DestroyGo => DestroyNext(s)
  }

  ghost predicate Feasible(s: Pool, es: seq<Step>)
    decreases |es|
  {
    es == [] || (Enabled(s, es[0]) && Feasible(After(s, es[0]), es[1..]))
  }

  ghost function Run(s: Pool, es: seq<Step>): Pool
    requires Feasible(s, es)
    decreases |es|
  {
    if es == [] then s else Run(After(s, es[0]), es[1..])
  }
}
