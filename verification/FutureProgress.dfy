/** The threads on one future always come to rest, and at rest only waiters on a future nobody resolves are left. */
module FutureProgress {
  import opened Common
  import opened FutureModel
  import opened FutureMachine
  import opened FutureSafety

  ghost predicate Internal(e: Step) {
    e.ResolverGo? || e.CallGo?
  }

  // ------------------------------------------------------------------------
  // The measure

  ghost function ResolverRank(links: nat, pc: ResolverPc): nat {
    match pc
    case AtLock => 8 + links
    case InWrite => 7 + links
    case InSetFulfilled => 6 + links
    case InSetResolved => 5 + links
    case InBroadcast => 4 + links
    case AtUnlock => 3 + links
    case AtHeadRead => 2 + links
    case InWalk(k) => 1 + k
    case Done => 0
  }

  ghost function CallRank(resolved: bool, resolvers: nat, pc: CallPc): nat {
    match pc
    case AtWaitLock => 11
    case InWait => if resolved then 6 else 9
    case Asleep => 8
    case Roused => if resolved then 7 else 10
    case AtWaitUnlock => 5
    case AtResolvedRead => 3
    case AtFulfilledRead => 2
    case AtValueRead => 1
    case AtAddLock => resolvers + 3
    case InAdd => resolvers + 2      // pays for one more callback in every walk to come
    case AtAddUnlock => 1
    case _ => 0
  }

  ghost function ResolverRanks(s: Shared): seq<nat> {
    seq(|s.resolutions|, i requires 0 <= i < |s.resolutions| => ResolverRank(|s.chain|, s.resolutions[i].pc))
  }

  ghost function CallRanks(s: Shared): seq<nat> {
    seq(|s.calls|, j requires 0 <= j < |s.calls| => CallRank(s.resolved, |s.resolutions|, s.calls[j].pc))
  }

  ghost function Measure(s: Shared): nat {
    Sum(ResolverRanks(s)) + Sum(CallRanks(s))
  }

  /** Calls have stayed where they were or been roused on a resolved future. */
  ghost predicate CallsMovedOn(s: Shared, s': Shared) {
    && |s'.calls| == |s.calls| && |s'.resolutions| == |s.resolutions| && (s.resolved ==> s'.resolved)
    && forall j :: 0 <= j < |s.calls| ==>
         s'.calls[j] == s.calls[j] || (s.calls[j].pc == Asleep && s'.calls[j].pc == Roused && s'.resolved)
  }

  lemma CallsMoveOn(s: Shared, s': Shared)
    requires CallsMovedOn(s, s')
    ensures Sum(CallRanks(s')) <= Sum(CallRanks(s))
  {
    SumAtMost(CallRanks(s'), CallRanks(s), 0);
  }

  lemma ResolverMovesOn(s: Shared, i: nat, s': Shared)
    requires Inv(s) && ResolverReady(s, i) && s' == ResolverNext(s, i)
    ensures CallsMovedOn(s, s') && s'.chain == s.chain
    ensures s'.resolutions == s.resolutions[i := s'.resolutions[i]]
    ensures ResolverRank(|s.chain|, s'.resolutions[i].pc) < ResolverRank(|s.chain|, s.resolutions[i].pc)
  {
    assert ResolutionOk(s, s.resolutions[i]);
  }

  lemma ResolverProgress(s: Shared, i: nat, s': Shared)
    requires Inv(s) && ResolverReady(s, i) && s' == ResolverNext(s, i)
    ensures Measure(s') < Measure(s)
  {
    ResolverMovesOn(s, i, s');
    CallsMoveOn(s, s');
    var rank := ResolverRank(|s.chain|, s'.resolutions[i].pc);
    SumUpdate(ResolverRanks(s), i, rank);
    assert ResolverRanks(s') == ResolverRanks(s)[i := rank];
  }

  lemma CallMovesOn(s: Shared, j: nat, s': Shared)
    requires CallReady(s, j) && s' == CallNext(s, j)
    ensures s'.resolutions == s.resolutions && s'.resolved == s.resolved
    ensures s'.calls == s.calls[j := s'.calls[j]] && |s.chain| <= |s'.chain| <= |s.chain| + 1
    ensures var rank, rank' := CallRank(s.resolved, |s.resolutions|, s.calls[j].pc),
                               CallRank(s.resolved, |s.resolutions|, s'.calls[j].pc);
      rank' < rank && (|s'.chain| > |s.chain| ==> rank' + |s.resolutions| < rank)
  {}

  lemma CallProgress(s: Shared, j: nat, s': Shared)
    requires CallReady(s, j) && s' == CallNext(s, j)
    ensures Measure(s') < Measure(s)
  {
    CallMovesOn(s, j, s');
    SumAtMost(ResolverRanks(s'), ResolverRanks(s), |s'.chain| - |s.chain|);
    var rank := CallRank(s.resolved, |s.resolutions|, s'.calls[j].pc);
    SumUpdate(CallRanks(s), j, rank);
    assert CallRanks(s') == CallRanks(s)[j := rank];
  }

  lemma StepProgress(s: Shared, e: Step, s': Shared)
    requires Inv(s) && Internal(e) && Enabled(s, e) && s' == After(s, e)
    ensures Measure(s') < Measure(s)
  {
    match e
    case ResolverGo(i) => ResolverProgress(s, i, s');
    case CallGo(j) => CallProgress(s, j, s');
  }

  lemma {:induction false} RunProgress(s: Shared, es: seq<Step>)
    requires Inv(s) && Feasible(s, es) && forall i :: 0 <= i < |es| ==> Internal(es[i])
    ensures |es| + Measure(Run(s, es)) <= Measure(s)
    decreases |es|
  {
    if es != [] {
      StepKeepsInv(s, es[0], After(s, es[0]));
      StepProgress(s, es[0], After(s, es[0]));
      RunProgress(After(s, es[0]), es[1..]);
    }
  }

  /** Without new calls and spurious wake-ups the threads take Measure(s) steps at most, however they interleave. */
  lemma EveryRunIsFinite(s: Shared, es: seq<Step>)
    requires IsReachable(s) && Feasible(s, es) && forall i :: 0 <= i < |es| ==> Internal(es[i])
    ensures |es| <= Measure(s)
  {
    ReachableInv(s);
    RunProgress(s, es);
  }

  // ------------------------------------------------------------------------
  // At rest

  ghost predicate AtRest(s: Shared) {
    forall e :: Internal(e) ==> !Enabled(s, e)
  }

  /** Whoever holds the mutex can itself take its next step. */
  lemma HolderCanGo(s: Shared, a: Agent)
    requires Inv(s) && Holds(s, a)
    ensures match a
            case Resolver(i) => Enabled(s, ResolverGo(i))
            case Caller(j) => Enabled(s, CallGo(j))
  {}

  lemma FreeAtRest(s: Shared)
    requires Inv(s) && AtRest(s)
    ensures s.mutex == None
  {
    if s.mutex.Some? {
      HolderCanGo(s, s.mutex.value);
    }
  }

  lemma ResolverDone(s: Shared, i: nat)
    requires Inv(s) && AtRest(s) && i < |s.resolutions|
    ensures s.resolutions[i].pc == Done
  {
    FreeAtRest(s);
    assert !Enabled(s, ResolverGo(i));
    assert ResolutionOk(s, s.resolutions[i]);
  }

  /** The call is over with an outcome of its kind, or it waits for a resolution that nobody has made. */
  ghost predicate Settled(c: Call, resolved: bool) {
    match c.request
    case Add(_) => c.pc == Added
    case Wait => c.pc == if resolved then Waited else Asleep
    case Get => if resolved then c.pc.Got? || c.pc == AbortedUnfulfilled else c.pc == Asleep
  }

  /**
   At rest every resolution is over and has run its callbacks.  If there was any, no
   waiter is left: each future_wait has returned, and each future_get has returned or
   aborted.  If there was none, nobody has got past future_wait.
   */
  lemma SettledAtRest(s: Shared)
    requires IsReachable(s) && AtRest(s)
    ensures s.mutex == None && forall i :: 0 <= i < |s.resolutions| ==> s.resolutions[i].pc == Done
    ensures s.resolutions != [] ==> s.resolved
    ensures forall j :: 0 <= j < |s.calls| ==> Settled(s.calls[j], s.resolved)
  {
    ReachableInv(s);
    FreeAtRest(s);
    forall i | 0 <= i < |s.resolutions| ensures s.resolutions[i].pc == Done {
      ResolverDone(s, i);
    }
    assert s.resolutions != [] ==> ResolutionOk(s, s.resolutions[0]);
    forall j | 0 <= j < |s.calls| ensures Settled(s.calls[j], s.resolved) {
      assert !Enabled(s, CallGo(j));
      assert CallOk(s, s.calls[j]);
    }
  }

  ghost predicate RestsAfter(s: Shared, es: seq<Step>) {
    Feasible(s, es) && (forall i :: 0 <= i < |es| ==> Internal(es[i])) && AtRest(Run(s, es))
  }

  lemma RestsOneLater(s: Shared, e: Step, rest: seq<Step>)
    requires Internal(e) && Enabled(s, e) && RestsAfter(After(s, e), rest)
    ensures RestsAfter(s, [e] + rest)
  {}

  /** From every state of a run the threads can get there. */
  lemma {:induction false} SomeRunRests(s: Shared)
    requires Inv(s)
    ensures exists es: seq<Step> :: RestsAfter(s, es)
    decreases Measure(s)
  {
    if e :| Internal(e) && Enabled(s, e) {
      var s' := After(s, e);
      StepKeepsInv(s, e, s');
      StepProgress(s, e, s');
      SomeRunRests(s');
      var rest: seq<Step> :| RestsAfter(s', rest);
      RestsOneLater(s, e, rest);
    } else {
      assert RestsAfter(s, []);
    }
  }
}
