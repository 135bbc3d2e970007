/** What holds in every reachable state of FutureMachine, however its threads interleave. */
module FutureSafety {
  import opened Common
  import opened FutureModel
  import opened FutureMachine

  // ------------------------------------------------------------------------
  // The invariant

  ghost predicate ResolverHolds(pc: ResolverPc) {
    pc == InWrite || pc == InSetFulfilled || pc == InSetResolved || pc == InBroadcast || pc == AtUnlock
  }

  ghost predicate CallHolds(pc: CallPc) {
    pc == InWait || pc == AtWaitUnlock || pc == InAdd || pc == AtAddUnlock
  }

  /** The agent's program counter is in a critical section. */
  ghost predicate Holds(s: Shared, a: Agent) {
    match a
    case Resolver(i) => i < |s.resolutions| && ResolverHolds(s.resolutions[i].pc)
    case Caller(j) => j < |s.calls| && CallHolds(s.calls[j].pc)
  }

  ghost predicate LockInv(s: Shared) {
    forall a :: Holds(s, a) <==> s.mutex == Some(a)
  }

  /** Where the resolver that has the mutex is, if one has. */
  ghost function HolderPc(s: Shared): Option<ResolverPc> {
    if s.mutex.Some? && s.mutex.value.Resolver? && s.mutex.value.i < |s.resolutions|
    then Some(s.resolutions[s.mutex.value.i].pc) else None
  }

  ghost predicate Linkless(chain: seq<Hook>) {
    forall i :: 0 <= i < |chain| ==> chain[i].links == []
  }

  /** The fields are what the critical sections so far make of them, but for the flags about to be set. */
  ghost predicate Agrees(s: Shared) {
    var f, pc := Play(s.log), HolderPc(s);
    && s.value == f.value && s.rejectedRc == f.rejectedRc && s.chain == f.chain && Linkless(s.chain)
    && (if pc == Some(InSetFulfilled) then f.fulfilled else s.fulfilled == f.fulfilled)
    && (if pc == Some(InSetFulfilled) || pc == Some(InSetResolved) then f.resolved else s.resolved == f.resolved)
    && (s.resolved && !s.fulfilled ==> LastRejected(s.log).Some?)
  }

  ghost predicate WalkedTo(s: Shared, r: Resolution, low: nat) {
    && s.resolved && r.headRead.Some? && r.headRead.value <= |s.chain| && low <= r.headRead.value
    && r.ran == Down(r.headRead.value, low)
  }

  ghost predicate ResolutionOk(s: Shared, r: Resolution) {
    && !r.op.DoLink?
    && (r.pc != AtLock && r.pc != InWrite && r.op.DoReject? ==> LastRejected(s.log).Some?)
    && (r.pc == InSetFulfilled ==> r.op.DoFulfil?)
    && (r.pc == InSetResolved && r.op.DoFulfil? ==> s.fulfilled)
    && match r.pc
       case InWalk(low) => WalkedTo(s, r, low)
       case Done => WalkedTo(s, r, 0)
       case InBroadcast => s.resolved && r.headRead == None && r.ran == []
       case AtUnlock => s.resolved && r.headRead == None && r.ran == []
       case AtHeadRead => s.resolved && r.headRead == None && r.ran == []
       case _ => r.headRead == None && r.ran == []
  }

  /** future_wait, future_get and future_add_callback each go their own way. */
  ghost predicate Fits(request: Request, pc: CallPc) {
    match pc
    case AtResolvedRead => request == Get
    case AtFulfilledRead => request == Get
    case AtValueRead => request == Get
    case AbortedUnfulfilled => request == Get
    case Got(_) => request == Get
    case Waited => request == Wait
    case AtAddLock => request.Add?
    case InAdd => request.Add?
    case AtAddUnlock => request.Add?
    case Added => request.Add?
    case _ => !request.Add?
  }

  ghost predicate CallOk(s: Shared, c: Call) {
    && Fits(c.request, c.pc) && (c.request.Add? ==> c.request.hook.links == [])
    && match c.pc
       case Asleep => s.resolved ==> HolderPc(s) == Some(InBroadcast)
       case AtWaitUnlock => s.resolved
       case AtResolvedRead => s.resolved
       case AtFulfilledRead => s.resolved
       case AtValueRead => s.resolved && s.fulfilled
       case AbortedUnresolved => false
       case AbortedUnfulfilled => s.resolved && LastRejected(s.log).Some?
       case Got(v) => s.resolved && s.fulfilled && DoFulfil(v) in s.log
       case Waited => s.resolved
       case _ => true
  }

  ghost predicate ResolutionInv(s: Shared) {
    forall i :: 0 <= i < |s.resolutions| ==> ResolutionOk(s, s.resolutions[i])
  }

  ghost predicate CallInv(s: Shared) {
    forall j :: 0 <= j < |s.calls| ==> CallOk(s, s.calls[j])
  }

  ghost predicate Inv(s: Shared) {
    LockInv(s) && Agrees(s) && ResolutionInv(s) && CallInv(s)
  }

  // ------------------------------------------------------------------------
  // What the log says after one more critical section

  lemma {:induction false} WalkLinksNothing(f: FutureState, k: nat)
    requires k <= |f.chain| && Linkless(f.chain)
    ensures Walk(f, k).chain == f.chain
    decreases k
  {
    if k > 0 {
      assert Execute(f, k - 1).chain == f.chain;
      WalkLinksNothing(Execute(f, k - 1), k - 1);
    }
  }

  lemma OneMore(log: seq<Op>, op: Op)
    requires Linkless(Play(log).chain)
    ensures var f, g := Play(log), Play(log + [op]);
      match op
      case DoFulfil(v) => g == f.(value := v, fulfilled := true, resolved := true, visits := g.visits)
      case DoReject(rc) => g == f.(rejectedRc := rc, resolved := true, visits := g.visits)
      case DoLink(hook) => g == f.(chain := f.chain + [hook])
    ensures LastRejected(log + [op]) == if op.DoReject? then Some(op.rc) else LastRejected(log)
  {
    var f := Play(log);
    assert (log + [op])[..|log|] == log;
    match op
    case DoFulfil(v) =>
      var start := f.(value := v, fulfilled := true, resolved := true);
      WalkVisitsEachOnce(start, |f.chain|);
      WalkLinksNothing(start, |f.chain|);
    case DoReject(rc) =>
      var start := f.(rejectedRc := rc, resolved := true);
      WalkVisitsEachOnce(start, |f.chain|);
      WalkLinksNothing(start, |f.chain|);
    case DoLink(_) =>
  }

  // ------------------------------------------------------------------------
  // Every step keeps it

  /** What no step takes back. */
  ghost predicate Grows(s: Shared, s': Shared) {
    && (s.resolved ==> s'.resolved) && (s.fulfilled ==> s'.fulfilled)
    && s.chain <= s'.chain && s.log <= s'.log
    && (LastRejected(s.log).Some? ==> LastRejected(s'.log).Some?)
  }

  lemma ResolveGrows(s: Shared, i: nat, s': Shared)
    requires Agrees(s) && ResolverReady(s, i) && !Walking(s.resolutions[i].pc) && s' == ResolveNext(s, i)
    ensures Grows(s, s')
  {}

  lemma ResolveKeepsLock(s: Shared, i: nat, s': Shared)
    requires LockInv(s) && ResolverReady(s, i) && !Walking(s.resolutions[i].pc) && s' == ResolveNext(s, i)
    ensures LockInv(s')
  {
    assert Holds(s, Resolver(i)) <==> s.mutex == Some(Resolver(i));
    forall a ensures Holds(s', a) <==> s'.mutex == Some(a) {
      assert Holds(s, a) <==> s.mutex == Some(a);
    }
  }

  lemma ResolveKeepsAgreement(s: Shared, i: nat, s': Shared)
    requires LockInv(s) && Agrees(s) && ResolutionInv(s)
    requires ResolverReady(s, i) && !Walking(s.resolutions[i].pc) && s' == ResolveNext(s, i)
    ensures Agrees(s')
  {
    assert ResolutionOk(s, s.resolutions[i]);
    assert Holds(s, Resolver(i)) ==> s.mutex == Some(Resolver(i));
    OneMore(s.log, s.resolutions[i].op);
  }

  lemma StillOk(s: Shared, s': Shared, r: Resolution)
    requires ResolutionOk(s, r) && Grows(s, s')
    ensures ResolutionOk(s', r)
  {}

  lemma ResolverStaysOk(s: Shared, i: nat, s': Shared)
    requires Agrees(s) && ResolverReady(s, i) && ResolutionOk(s, s.resolutions[i]) && Grows(s, s')
    requires !Walking(s.resolutions[i].pc) && s' == ResolveNext(s, i)
    ensures ResolutionOk(s', s'.resolutions[i])
  {}

  lemma ResolveKeepsResolutions(s: Shared, i: nat, s': Shared)
    requires Agrees(s) && ResolutionInv(s) && Grows(s, s')
    requires ResolverReady(s, i) && !Walking(s.resolutions[i].pc) && s' == ResolveNext(s, i)
    ensures ResolutionInv(s')
  {
    ResolverStaysOk(s, i, s');
    forall h | 0 <= h < |s'.resolutions| && h != i ensures ResolutionOk(s', s'.resolutions[h]) {
      StillOk(s, s', s.resolutions[h]);
    }
  }

  lemma ResolveKeepsCalls(s: Shared, i: nat, s': Shared)
    requires LockInv(s) && CallInv(s) && Grows(s, s')
    requires ResolverReady(s, i) && !Walking(s.resolutions[i].pc) && s' == ResolveNext(s, i)
    ensures CallInv(s')
  {
    assert Holds(s, Resolver(i)) ==> s.mutex == Some(Resolver(i));
  }

  lemma WalkKeepsInv(s: Shared, i: nat, s': Shared)
    requires Inv(s) && ResolverReady(s, i) && Walking(s.resolutions[i].pc)
    requires s' == s.(resolutions := s.resolutions[i := WalkNext(s, i)])
    ensures Inv(s')
  {
    assert ResolutionOk(s, s.resolutions[i]);
    assert ResolutionOk(s', s'.resolutions[i]);
    assert !Holds(s, Resolver(i));
    assert HolderPc(s') == HolderPc(s);
  }

  lemma CallGrows(s: Shared, j: nat, s': Shared)
    requires Agrees(s) && CallReady(s, j) && s' == CallNext(s, j)
    ensures Grows(s, s')
  {}

  lemma CallKeepsLock(s: Shared, j: nat, s': Shared)
    requires LockInv(s) && CallReady(s, j) && s' == CallNext(s, j)
    ensures LockInv(s') && HolderPc(s') == HolderPc(s)
  {
    assert Holds(s, Caller(j)) ==> s.mutex == Some(Caller(j));
  }

  lemma CallKeepsAgreement(s: Shared, j: nat, s': Shared)
    requires LockInv(s) && Agrees(s) && CallInv(s) && CallReady(s, j) && s' == CallNext(s, j)
    requires HolderPc(s') == HolderPc(s)
    ensures Agrees(s')
  {
    if s.calls[j].pc == InAdd {
      assert CallOk(s, s.calls[j]);
      assert Holds(s, Caller(j)) && s.mutex == Some(Caller(j));
      OneMore(s.log, DoLink(s.calls[j].request.hook));
    }
  }

  lemma CallStaysOk(s: Shared, j: nat, s': Shared)
    requires LockInv(s) && Agrees(s) && CallReady(s, j) && CallOk(s, s.calls[j]) && s' == CallNext(s, j)
    ensures CallOk(s', s'.calls[j])
  {
    if s.calls[j].pc == AtValueRead {
      ValueInLog(s);
    }
  }

  lemma CallKeepsCalls(s: Shared, j: nat, s': Shared)
    requires LockInv(s) && Agrees(s) && CallInv(s) && CallReady(s, j) && s' == CallNext(s, j)
    requires Grows(s, s') && HolderPc(s') == HolderPc(s)
    ensures CallInv(s')
  {
    CallStaysOk(s, j, s');
    forall h | 0 <= h < |s'.calls| && h != j ensures CallOk(s', s'.calls[h]) {
      assert CallOk(s, s.calls[h]) && s'.calls[h] == s.calls[h];
    }
  }

  lemma {:induction false} LastFulfilledInLog(log: seq<Op>)
    ensures LastFulfilled(log).Some? ==> DoFulfil(LastFulfilled(log).value) in log
  {
    if log != [] {
      LastFulfilledInLog(log[..|log| - 1]);
    }
  }

  /** Once is_fulfilled is set, `value` is the argument of the last fulfil to have written it. */
  lemma ValueInLog(s: Shared)
    requires Agrees(s) && s.fulfilled
    ensures LastFulfilled(s.log) == Some(s.value) && DoFulfil(s.value) in s.log
  {
    StateByHistory(s.log);
    LastFulfilledInLog(s.log);
  }

  lemma ResolverKeepsInv(s: Shared, i: nat, s': Shared)
    requires Inv(s) && ResolverReady(s, i) && s' == ResolverNext(s, i)
    ensures Inv(s') && Grows(s, s')
  {
    if Walking(s.resolutions[i].pc) {
      WalkKeepsInv(s, i, s');
    } else {
      ResolveGrows(s, i, s');
      ResolveKeepsLock(s, i, s');
      ResolveKeepsAgreement(s, i, s');
      ResolveKeepsResolutions(s, i, s');
      ResolveKeepsCalls(s, i, s');
    }
  }

  lemma CallKeepsInv(s: Shared, j: nat, s': Shared)
    requires Inv(s) && CallReady(s, j) && s' == CallNext(s, j)
    ensures Inv(s') && Grows(s, s')
  {
    CallGrows(s, j, s');
    CallKeepsLock(s, j, s');
    CallKeepsAgreement(s, j, s');
    CallKeepsCalls(s, j, s');
    forall h | 0 <= h < |s'.resolutions| ensures ResolutionOk(s', s'.resolutions[h]) {
      StillOk(s, s', s.resolutions[h]);
    }
  }

  /** A new thread is at the mutex, or a sleeper is roused; the future itself is left alone. */
  ghost predicate Worldly(s: Shared, s': Shared) {
    && s' == s.(resolutions := s'.resolutions, calls := s'.calls)
    && s.resolutions <= s'.resolutions && |s.calls| <= |s'.calls|
    && (forall i :: |s.resolutions| <= i < |s'.resolutions| ==>
          s'.resolutions[i].pc == AtLock && ResolutionOk(s, s'.resolutions[i]))
    && (forall j :: 0 <= j < |s.calls| ==>
          s'.calls[j] == s.calls[j] || (s.calls[j].pc == Asleep && s'.calls[j] == s.calls[j].(pc := Roused)))
    && (forall j :: |s.calls| <= j < |s'.calls| ==> !CallHolds(s'.calls[j].pc) && CallOk(s, s'.calls[j]))
  }

  lemma WorldlyKeepsInv(s: Shared, s': Shared)
    requires Inv(s) && Worldly(s, s')
    ensures Inv(s')
  {}

  /** Whatever any thread does next, all of it still holds. */
  lemma StepKeepsInv(s: Shared, e: Step, s': Shared)
    requires Inv(s) && Enabled(s, e) && s' == After(s, e)
    ensures Inv(s')
  {
    match e
    case ResolverGo(i) => ResolverKeepsInv(s, i, s');
    case CallGo(j) => CallKeepsInv(s, j, s');
    case _ => WorldlyKeepsInv(s, s');
  }

  lemma {:induction false} RunKeepsInv(s: Shared, es: seq<Step>)
    requires Inv(s) && Feasible(s, es)
    ensures Inv(Run(s, es))
    decreases |es|
  {
    if es != [] {
      StepKeepsInv(s, es[0], After(s, es[0]));
      RunKeepsInv(After(s, es[0]), es[1..]);
    }
  }

  lemma ReachableInv(s: Shared)
    requires IsReachable(s)
    ensures Inv(s)
  {
    var es: seq<Step> :| Feasible(Initial(), es) && s == Run(Initial(), es);
    RunKeepsInv(Initial(), es);
  }

  // ------------------------------------------------------------------------
  // The concurrent future refines the sequential one

  /**
   Whenever the mutex is free, the future is what the critical sections made so far, in
   their order, make of a future used by one thread.
   */
  lemma AgreesWithTheModel(s: Shared)
    requires IsReachable(s) && s.mutex == None
    ensures var f := Play(s.log);
      f == FutureState(s.resolved, s.fulfilled, s.rejectedRc, s.value, s.chain, f.visits)
  {
    ReachableInv(s);
  }

  /** At any time, value and code are those of the last fulfil and the last reject to have entered. */
  lemma LastWriterWins(s: Shared)
    requires IsReachable(s)
    ensures s.value == if LastFulfilled(s.log).Some? then LastFulfilled(s.log).value else NULL
    ensures s.rejectedRc == if LastRejected(s.log).Some? then LastRejected(s.log).value else 0
    ensures s.fulfilled ==> LastFulfilled(s.log).Some?
  {
    ReachableInv(s);
    StateByHistory(s.log);
  }

  /** The mutex has one holder at most, and none runs a callback or sleeps. */
  lemma OneHolder(s: Shared)
    requires IsReachable(s)
    ensures forall a, b :: Holds(s, a) && Holds(s, b) ==> a == b
    ensures forall i :: 0 <= i < |s.resolutions| && Walking(s.resolutions[i].pc) ==> s.mutex != Some(Resolver(i))
    ensures forall j :: 0 <= j < |s.calls| && (s.calls[j].pc == Asleep || s.calls[j].pc == Roused) ==>
      s.mutex != Some(Caller(j))
  {
    ReachableInv(s);
    assert forall i :: 0 <= i < |s.resolutions| && Walking(s.resolutions[i].pc) ==> !Holds(s, Resolver(i));
    assert forall j :: 0 <= j < |s.calls| && (s.calls[j].pc == Asleep || s.calls[j].pc == Roused) ==>
        !Holds(s, Caller(j));
  }

  // ------------------------------------------------------------------------
  // Waiting

  /** Once the future is resolved, fulfilled or rejected, and the mutex is free, nobody sleeps. */
  lemma NoLostWaiterWakeUps(s: Shared, j: nat)
    requires IsReachable(s) && s.resolved && s.mutex == None && j < |s.calls|
    ensures s.calls[j].pc != Asleep
  {
    ReachableInv(s);
    assert CallOk(s, s.calls[j]);
  }

  ghost predicate PastWait(pc: CallPc) {
    match pc
    case AtWaitUnlock => true
    case AtResolvedRead => true
    case AtFulfilledRead => true
    case AtValueRead => true
    case AbortedUnresolved => true
    case AbortedUnfulfilled => true
    case Got(_) => true
    case Waited => true
    case _ => false
  }

  /** Nobody gets past future_wait before the future is resolved, whatever wakes it. */
  lemma WaitersPassOnlyResolved(s: Shared, j: nat)
    requires IsReachable(s) && j < |s.calls| && PastWait(s.calls[j].pc)
    ensures s.resolved
  {
    ReachableInv(s);
    assert CallOk(s, s.calls[j]);
  }

  // ------------------------------------------------------------------------
  // future_get among fulfils and rejects

  /**
   Its first assert never fails.  Its second fails exactly if no fulfil has set
   is_fulfilled yet; with the mutex free, exactly if the model's future_get aborts.
   */
  lemma GetAbortsExactly(s: Shared, j: nat)
    requires IsReachable(s) && CallReady(s, j)
    ensures s.calls[j].pc == AtResolvedRead ==> CallNext(s, j).calls[j].pc == AtFulfilledRead
    ensures s.calls[j].pc == AtFulfilledRead ==>
      && CallNext(s, j).calls[j].pc == (if s.fulfilled then AtValueRead else AbortedUnfulfilled)
      && (s.mutex == None ==>
            (CallNext(s, j).calls[j].pc == AbortedUnfulfilled <==> FutureModel.Get(Play(s.log)) == Aborts))
  {
    ReachableInv(s);
    assert CallOk(s, s.calls[j]);
  }

  /** What it returns is what the model's future_get would at that moment, even amid another fulfil or reject. */
  lemma GetReturnsTheModels(s: Shared, j: nat)
    requires IsReachable(s) && CallReady(s, j) && s.calls[j].pc == AtValueRead
    ensures CallNext(s, j).calls[j].pc.Got? && FutureModel.Get(Play(s.log)) == Returns(CallNext(s, j).calls[j].pc.v)
  {
    ReachableInv(s);
    assert CallOk(s, s.calls[j]);
    StateByHistory(s.log);
  }

  lemma {:induction false} LastRejectedInLog(log: seq<Op>)
    ensures LastRejected(log).Some? ==> DoReject(LastRejected(log).value) in log
  {
    if log != [] {
      LastRejectedInLog(log[..|log| - 1]);
    }
  }

  // ------------------------------------------------------------------------
  // Callbacks

  /** A walk is only ever on a resolved future, so the assert of future_execute_callbacks holds. */
  lemma WalksSeeResolved(s: Shared, i: nat)
    requires IsReachable(s) && i < |s.resolutions| && Walking(s.resolutions[i].pc)
    ensures s.resolved
  {
    ReachableInv(s);
    assert ResolutionOk(s, s.resolutions[i]);
  }

  /**
   However many walks overlap, each resolution runs every callback linked before its own
   head read once, newest first, and no other.
   */
  lemma EachWalkRunsEachOnce(s: Shared, i: nat)
    requires IsReachable(s) && i < |s.resolutions| && s.resolutions[i].pc == Done
    ensures var r := s.resolutions[i];
      && r.headRead.Some? && r.headRead.value <= |s.chain|
      && |r.ran| == r.headRead.value
      && forall c :: 0 <= c < |r.ran| ==> r.ran[c] == |r.ran| - 1 - c
  {
    ReachableInv(s);
    assert ResolutionOk(s, s.resolutions[i]);
    DownIs(s.resolutions[i].headRead.value, 0);
  }

  /** How often callback c has run in all walks together. */
  ghost function Runs(resolutions: seq<Resolution>, c: nat): nat {
    if resolutions == [] then 0
    else Runs(resolutions[..|resolutions| - 1], c) + Times(resolutions[|resolutions| - 1].ran, c)
  }

  /** How many walks started after callback c was linked. */
  ghost function WalksOver(resolutions: seq<Resolution>, c: nat): nat {
    if resolutions == [] then 0
    else
      var n := |resolutions| - 1;
      WalksOver(resolutions[..n], c) + if WalksPast(resolutions[n], c) then 1 else 0
  }

  lemma {:induction false} DownCounts(top: nat, low: nat, c: nat)
    ensures Times(Down(top, low), c) == if low <= c < top then 1 else 0
    decreases top - low
  {
    if low < top {
      DownCounts(top, low + 1, c);
      assert Down(top, low)[..|Down(top, low)| - 1] == Down(top, low + 1);
    }
  }

  ghost predicate WalksPast(r: Resolution, c: nat) {
    r.headRead.Some? && c < r.headRead.value
  }

  lemma RanAtMostOnce(s: Shared, r: Resolution, c: nat)
    requires ResolutionOk(s, r)
    ensures Times(r.ran, c) <= if WalksPast(r, c) then 1 else 0
    ensures r.pc == Done ==> Times(r.ran, c) == if WalksPast(r, c) then 1 else 0
  {
    if r.headRead.Some? {
      DownCounts(r.headRead.value, if r.pc.InWalk? then r.pc.k else 0, c);
    }
  }

  lemma {:induction false} RunsAtMost(s: Shared, resolutions: seq<Resolution>, c: nat)
    requires forall i :: 0 <= i < |resolutions| ==> ResolutionOk(s, resolutions[i])
    ensures Runs(resolutions, c) <= WalksOver(resolutions, c)
  {
    if resolutions != [] {
      RunsAtMost(s, resolutions[..|resolutions| - 1], c);
      RanAtMostOnce(s, resolutions[|resolutions| - 1], c);
    }
  }

  lemma {:induction false} RunsExactly(s: Shared, resolutions: seq<Resolution>, c: nat)
    requires forall i :: 0 <= i < |resolutions| ==> ResolutionOk(s, resolutions[i]) && resolutions[i].pc == Done
    ensures Runs(resolutions, c) == WalksOver(resolutions, c)
  {
    if resolutions != [] {
      RunsExactly(s, resolutions[..|resolutions| - 1], c);
      RanAtMostOnce(s, resolutions[|resolutions| - 1], c);
    }
  }

  /** In all walks together no callback runs oftener than there are walks over it, in the end exactly as often. */
  lemma RunsOncePerWalk(s: Shared, c: nat)
    requires IsReachable(s)
    ensures Runs(s.resolutions, c) <= WalksOver(s.resolutions, c)
    ensures (forall i :: 0 <= i < |s.resolutions| ==> s.resolutions[i].pc == Done) ==>
      Runs(s.resolutions, c) == WalksOver(s.resolutions, c)
  {
    ReachableInv(s);
    RunsAtMost(s, s.resolutions, c);
    if forall i :: 0 <= i < |s.resolutions| ==> s.resolutions[i].pc == Done {
      RunsExactly(s, s.resolutions, c);
    }
  }
}
