/**
 One future of the public promise API, shared by any number of threads that fulfil or
 reject it, wait for it, get its value or add callbacks to it, in any mix and as often as
 they like (src/future.c:134-216).  The steps are as fine as in PoolMachine, and sleepers
 may wake for no reason.  What a callback does to its own future is a call like any other.
 */
module FutureMachine {
  import opened Common
  import opened FutureModel

  datatype Agent = Resolver(i: nat) | Caller(j: nat)

  /** Where a thread is in future_set_value or future_set_rejected. */
  datatype ResolverPc =
    | AtLock
    | InWrite                  // of value, or of rejected_rc
    | InSetFulfilled
    | InSetResolved
    | InBroadcast
    | AtUnlock
    | AtHeadRead
    | InWalk(k: nat)           // `callback` is node k - 1; null when k is 0
    | Done

  /** History: the chain length at its head read, and the nodes it has run. */
  datatype Resolution = Resolution(op: Op, pc: ResolverPc, headRead: Option<nat>, ran: seq<nat>)

  datatype Request = Wait | Get | Add(hook: Hook)

  datatype CallPc =
    | AtWaitLock
    | InWait
    | Asleep
    | Roused
    | AtWaitUnlock
    | AtResolvedRead           // the two asserts of future_get, and its result
    | AtFulfilledRead
    | AtValueRead
    | AbortedUnresolved
    | AbortedUnfulfilled
    | Got(v: Value)
    | Waited
    | AtAddLock
    | InAdd
    | AtAddUnlock
    | Added

  datatype Call = Call(request: Request, pc: CallPc)

  /** `chain` is the callback list, oldest first; `log` lists the critical sections in their order. */
  datatype Shared = Shared(
    mutex: Option<Agent>,
    resolved: bool, fulfilled: bool, rejectedRc: int, value: Value, chain: seq<Hook>,
    resolutions: seq<Resolution>, calls: seq<Call>,
    log: seq<Op>)

  datatype Step =
    | StartResolution(op: Op)
    | StartCall(request: Request)
    | Wake(j: nat)             // spurious
    | ResolverGo(i: nat)
    | CallGo(j: nat)

  ghost function Initial(): Shared {
    Shared(None, false, false, 0, NULL, [], [], [], [])
  }

  ghost predicate ResolverReady(s: Shared, i: nat) {
    && i < |s.resolutions|
    && match s.resolutions[i].pc
       case AtLock => s.mutex == None
       case InWalk(k) => k <= |s.chain|
       case Done => false
       case _ => true
  }

  ghost function Rouse(calls: seq<Call>): seq<Call> {
    seq(|calls|, j requires 0 <= j < |calls| =>
      if calls[j].pc == Asleep then calls[j].(pc := Roused) else calls[j])
  }

  ghost function ResolverAt(s: Shared, i: nat, pc: ResolverPc): Shared
    requires i < |s.resolutions|
  {
    s.(resolutions := s.resolutions[i := s.resolutions[i].(pc := pc)])
  }

  /** The critical section ... */
  ghost function ResolveNext(s: Shared, i: nat): Shared
    requires ResolverReady(s, i)
  {
    var r := s.resolutions[i];
    match r.pc
    case AtLock => ResolverAt(s, i, InWrite).(mutex := Some(Resolver(i)))
    case InWrite =>
      var next := if r.op.DoFulfil? then InSetFulfilled else InSetResolved;
      var written := s.(
        resolutions := s.resolutions[i := r.(pc := next)], log := s.log + [r.op]);
      (match r.op
       case DoFulfil(v) => written.(value := v)
       case DoReject(rc) => written.(rejectedRc := rc)
       case DoLink(_) => written)
    case InSetFulfilled => ResolverAt(s, i, InSetResolved).(fulfilled := true)
    case InSetResolved => ResolverAt(s, i, InBroadcast).(resolved := true)
    case InBroadcast => ResolverAt(s, i, AtUnlock).(calls := Rouse(s.calls))
    case AtUnlock => ResolverAt(s, i, AtHeadRead).(mutex := None)
    case _ => s
  }

  /** ... and the walk. */
  ghost function WalkNext(s: Shared, i: nat): Resolution
    requires ResolverReady(s, i)
  {
    var r := s.resolutions[i];
    match r.pc
    case AtHeadRead => r.(pc := InWalk(|s.chain|), headRead := Some(|s.chain|))
    case InWalk(k) => if k == 0 then r.(pc := Done) else r.(pc := InWalk(k - 1), ran := r.ran + [k - 1])
    case _ => r
  }

  ghost predicate Walking(pc: ResolverPc) {
    pc == AtHeadRead || pc.InWalk?
  }

  ghost function ResolverNext(s: Shared, i: nat): Shared
    requires ResolverReady(s, i)
  {
    if Walking(s.resolutions[i].pc) then s.(resolutions := s.resolutions[i := WalkNext(s, i)]) else ResolveNext(s, i)
  }

  ghost predicate CallReady(s: Shared, j: nat) {
    && j < |s.calls|
    && match s.calls[j].pc
       case AtWaitLock => s.mutex == None
       case Roused => s.mutex == None
       case AtAddLock => s.mutex == None
       case InWait => true
       case AtWaitUnlock => true
       case AtResolvedRead => true
       case AtFulfilledRead => true
       case AtValueRead => true
       case InAdd => s.calls[j].request.Add?
       case AtAddUnlock => true
       case _ => false
  }

  ghost function CallAt(s: Shared, j: nat, pc: CallPc): Shared
    requires j < |s.calls|
  {
    s.(calls := s.calls[j := s.calls[j].(pc := pc)])
  }

  ghost function CallNext(s: Shared, j: nat): Shared
    requires CallReady(s, j)
  {
    match s.calls[j].pc
    case AtWaitLock => CallAt(s, j, InWait).(mutex := Some(Caller(j)))
    case Roused => CallAt(s, j, InWait).(mutex := Some(Caller(j)))
    case InWait => if s.resolved then CallAt(s, j, AtWaitUnlock) else CallAt(s, j, Asleep).(mutex := None)
    case AtWaitUnlock => CallAt(s, j, if s.calls[j].request == Get then AtResolvedRead else Waited).(mutex := None)
    case AtResolvedRead => CallAt(s, j, if s.resolved then AtFulfilledRead else AbortedUnresolved)
    case AtFulfilledRead => CallAt(s, j, if s.fulfilled then AtValueRead else AbortedUnfulfilled)
    case AtValueRead => CallAt(s, j, Got(s.value))
    case AtAddLock => CallAt(s, j, InAdd).(mutex := Some(Caller(j)))
    case InAdd =>
      var hook := s.calls[j].request.hook;
      CallAt(s, j, AtAddUnlock).(chain := s.chain + [hook], log := s.log + [DoLink(hook)])
    case AtAddUnlock => CallAt(s, j, Added).(mutex := None)
    case _ => s
  }

  ghost predicate Enabled(s: Shared, e: Step) {
    match e
    case StartResolution(op) => !op.DoLink?
    case StartCall(request) => request.Add? ==> request.hook.links == []
    case Wake(j) => j < |s.calls| && s.calls[j].pc == Asleep
    case ResolverGo(i) => ResolverReady(s, i)
    case CallGo(j) => CallReady(s, j)
  }

  ghost function After(s: Shared, e: Step): Shared
    requires Enabled(s, e)
  {
    match e
    case StartResolution(op) => s.(resolutions := s.resolutions + [Resolution(op, AtLock, None, [])])
    case StartCall(request) =>
      s.(calls := s.calls + [Call(request, if request.Add? then AtAddLock else AtWaitLock)])
    case Wake(j) => CallAt(s, j, Roused)
    case ResolverGo(i) => ResolverNext(s, i)
    case CallGo(j) => CallNext(s, j)
  }

  ghost predicate Feasible(s: Shared, es: seq<Step>)
    decreases |es|
  {
    es == [] || (Enabled(s, es[0]) && Feasible(After(s, es[0]), es[1..]))
  }

  ghost function Run(s: Shared, es: seq<Step>): Shared
    requires Feasible(s, es)
    decreases |es|
  {
    if es == [] then s else Run(After(s, es[0]), es[1..])
  }

  ghost predicate IsReachable(s: Shared) {
    exists es: seq<Step> :: Feasible(Initial(), es) && s == Run(Initial(), es)
  }
}
