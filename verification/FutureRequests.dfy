/** What the threads on one future asked for, step by step of a run, and that this is what becomes of it. */
module FutureRequests {
  import opened Common
  import opened FutureModel
  import opened FutureMachine
  import opened FutureSafety
  import FutureProgress

  // ------------------------------------------------------------------------
  // What a step can touch

  /** What one step of resolver i can touch. */
  ghost predicate Resolves(s: Shared, s': Shared, i: nat) {
    && i < |s.resolutions| && |s'.resolutions| == |s.resolutions|
    && s'.resolutions == s.resolutions[i := s'.resolutions[i]]
    && |s'.calls| == |s.calls| && s'.chain == s.chain
    && (forall j :: 0 <= j < |s.calls| ==>
          s'.calls[j] == s.calls[j] || (s.calls[j].pc == Asleep && s'.calls[j] == s.calls[j].(pc := Roused)))
    && var r, r' := s.resolutions[i], s'.resolutions[i];
       && r'.op == r.op && r'.pc != AtLock && (r'.pc == InWrite <==> r.pc == AtLock)
       && s'.log == (if r.pc == InWrite then s.log + [r.op] else s.log)
       && r'.headRead == if r.pc == AtHeadRead then Some(|s.chain|) else r.headRead
  }

  lemma ResolverTouches(s: Shared, i: nat, s': Shared)
    requires ResolverReady(s, i) && s' == ResolverNext(s, i)
    ensures Resolves(s, s', i)
  {}

  /** What one step of call j can touch. */
  ghost predicate Calls(s: Shared, s': Shared, j: nat) {
    && j < |s.calls| && |s'.calls| == |s.calls| && s'.resolutions == s.resolutions
    && s'.calls == s.calls[j := s'.calls[j]]
    && var c, c' := s.calls[j], s'.calls[j];
       && c'.request == c.request && c'.pc != AtAddLock && (c'.pc == InAdd <==> c.pc == AtAddLock)
       && if c.pc == InAdd then
            c.request.Add? && s'.chain == s.chain + [c.request.hook] && s'.log == s.log + [DoLink(c.request.hook)]
          else s'.chain == s.chain && s'.log == s.log
  }

  lemma CallTouches(s: Shared, j: nat, s': Shared)
    requires CallReady(s, j) && s' == CallNext(s, j)
    ensures Calls(s, s', j)
  {}

  // ------------------------------------------------------------------------
  // Resolutions and calls are those asked for, in order

  ghost function OpOf(e: Step): seq<Op> {
    if e.StartResolution? then [e.op] else []
  }

  /** What promise_fulfill and promise_reject were called with, call by call. */
  ghost function OpsAsked(es: seq<Step>): seq<Op> {
    if es == [] then [] else OpOf(es[0]) + OpsAsked(es[1..])
  }

  ghost function Ops(s: Shared): seq<Op> {
    seq(|s.resolutions|, i requires 0 <= i < |s.resolutions| => s.resolutions[i].op)
  }

  ghost function RequestOf(e: Step): seq<Request> {
    if e.StartCall? then [e.request] else []
  }

  ghost function RequestsAsked(es: seq<Step>): seq<Request> {
    if es == [] then [] else RequestOf(es[0]) + RequestsAsked(es[1..])
  }

  ghost function Requests(s: Shared): seq<Request> {
    seq(|s.calls|, j requires 0 <= j < |s.calls| => s.calls[j].request)
  }

  lemma OldThreadsTakeNone(s: Shared, s': Shared, k: nat)
    requires Resolves(s, s', k) || Calls(s, s', k)
    ensures Ops(s') == Ops(s) && Requests(s') == Requests(s)
  {}

  lemma WorldTakesRequests(s: Shared, e: Step, s': Shared)
    requires Enabled(s, e) && !e.ResolverGo? && !e.CallGo? && s' == After(s, e)
    ensures Ops(s') == Ops(s) + OpOf(e) && Requests(s') == Requests(s) + RequestOf(e)
  {}

  lemma StepTakesRequests(s: Shared, e: Step, s': Shared)
    requires Enabled(s, e) && s' == After(s, e)
    ensures Ops(s') == Ops(s) + OpOf(e) && Requests(s') == Requests(s) + RequestOf(e)
  {
    match e
    case ResolverGo(i) =>
      ResolverTouches(s, i, s');
      OldThreadsTakeNone(s, s', i);
    case CallGo(j) =>
      CallTouches(s, j, s');
      OldThreadsTakeNone(s, s', j);
    case _ => WorldTakesRequests(s, e, s');
  }

  lemma {:induction false} RunTakesRequests(s: Shared, es: seq<Step>)
    requires Feasible(s, es)
    ensures Ops(Run(s, es)) == Ops(s) + OpsAsked(es) && Requests(Run(s, es)) == Requests(s) + RequestsAsked(es)
    decreases |es|
  {
    if es != [] {
      StepTakesRequests(s, es[0], After(s, es[0]));
      RunTakesRequests(After(s, es[0]), es[1..]);
      Regroup(Ops(s), OpOf(es[0]), OpsAsked(es[1..]));
      Regroup(Requests(s), RequestOf(es[0]), RequestsAsked(es[1..]));
    }
  }

  /** On every run, resolution i is the i-th call of promise_fulfill or promise_reject, and call j the j-th other. */
  lemma ThreadsDoWhatTheyWereAsked(es: seq<Step>)
    requires Feasible(Initial(), es)
    ensures Ops(Run(Initial(), es)) == OpsAsked(es) && Requests(Run(Initial(), es)) == RequestsAsked(es)
  {
    RunTakesRequests(Initial(), es);
  }

  // ------------------------------------------------------------------------
  // Each takes effect once

  /** Step e asks for effect `op` on the future. */
  ghost predicate AsksFor(e: Step, op: Op) {
    match e
    case StartResolution(o) => o == op
    case StartCall(request) => request.Add? && DoLink(request.hook) == op
    case _ => false
  }

  /** How often a run asks for it. */
  ghost function Demand(es: seq<Step>, op: Op): nat {
    if es == [] then 0 else Demand(es[1..], op) + if AsksFor(es[0], op) then 1 else 0
  }

  /** Asked for, but not yet done. */
  ghost predicate IsDue(r: Resolution, op: Op) {
    r.op == op && (r.pc == AtLock || r.pc == InWrite)
  }

  ghost function DueOps(resolutions: seq<Resolution>, op: Op): nat {
    if resolutions == [] then 0
    else DueOps(resolutions[..|resolutions| - 1], op) + if IsDue(resolutions[|resolutions| - 1], op) then 1 else 0
  }

  ghost predicate IsDueLink(c: Call, op: Op) {
    c.request.Add? && DoLink(c.request.hook) == op && (c.pc == AtAddLock || c.pc == InAdd)
  }

  ghost function DueLinks(calls: seq<Call>, op: Op): nat {
    if calls == [] then 0
    else DueLinks(calls[..|calls| - 1], op) + if IsDueLink(calls[|calls| - 1], op) then 1 else 0
  }

  ghost function Account(s: Shared, op: Op): nat {
    Times(s.log, op) + DueOps(s.resolutions, op) + DueLinks(s.calls, op)
  }

  lemma {:induction false} DueOpsUpdate(resolutions: seq<Resolution>, i: nat, r: Resolution, op: Op)
    requires i < |resolutions|
    ensures DueOps(resolutions[i := r], op) == DueOps(resolutions, op)
      - (if IsDue(resolutions[i], op) then 1 else 0) + if IsDue(r, op) then 1 else 0
  {
    var n := |resolutions| - 1;
    if i == n {
      assert resolutions[i := r][..n] == resolutions[..n];
    } else {
      DueOpsUpdate(resolutions[..n], i, r, op);
      assert resolutions[i := r][..n] == resolutions[..n][i := r];
    }
  }

  lemma {:induction false} DueLinksUpdate(calls: seq<Call>, j: nat, c: Call, op: Op)
    requires j < |calls|
    ensures DueLinks(calls[j := c], op) == DueLinks(calls, op)
      - (if IsDueLink(calls[j], op) then 1 else 0) + if IsDueLink(c, op) then 1 else 0
  {
    var n := |calls| - 1;
    if j == n {
      assert calls[j := c][..n] == calls[..n];
    } else {
      DueLinksUpdate(calls[..n], j, c, op);
      assert calls[j := c][..n] == calls[..n][j := c];
    }
  }

  lemma {:induction false} SameLinksDue(a: seq<Call>, b: seq<Call>, op: Op)
    requires |a| == |b| && forall j :: 0 <= j < |a| ==> (IsDueLink(b[j], op) <==> IsDueLink(a[j], op))
    ensures DueLinks(b, op) == DueLinks(a, op)
  {
    if a != [] {
      SameLinksDue(a[..|a| - 1], b[..|b| - 1], op);
    }
  }

  lemma ResolverAccount(s: Shared, i: nat, s': Shared, op: Op)
    requires Resolves(s, s', i)
    ensures Account(s', op) == Account(s, op)
  {
    DueOpsUpdate(s.resolutions, i, s'.resolutions[i], op);
    SameLinksDue(s.calls, s'.calls, op);
    OneMoreTime(s.log, s.resolutions[i].op, op);
  }

  lemma CallAccount(s: Shared, j: nat, s': Shared, op: Op)
    requires Calls(s, s', j) && Fits(s.calls[j].request, s.calls[j].pc)
    ensures Account(s', op) == Account(s, op)
  {
    DueLinksUpdate(s.calls, j, s'.calls[j], op);
    if s.calls[j].pc == InAdd {
      OneMoreTime(s.log, DoLink(s.calls[j].request.hook), op);
    }
  }

  lemma WorldAccount(s: Shared, e: Step, s': Shared, op: Op)
    requires Enabled(s, e) && !e.ResolverGo? && !e.CallGo? && s' == After(s, e)
    ensures Account(s', op) == Account(s, op) + if AsksFor(e, op) then 1 else 0
  {
    match e
    case StartResolution(_) => assert s'.resolutions[..|s.resolutions|] == s.resolutions;
    case StartCall(_) => assert s'.calls[..|s.calls|] == s.calls;
    case Wake(_) => SameLinksDue(s.calls, s'.calls, op);
  }

  lemma StepAccount(s: Shared, e: Step, s': Shared, op: Op)
    requires CallInv(s) && Enabled(s, e) && s' == After(s, e)
    ensures Account(s', op) == Account(s, op) + if AsksFor(e, op) then 1 else 0
  {
    match e
    case ResolverGo(i) =>
      ResolverTouches(s, i, s');
      ResolverAccount(s, i, s', op);
    case CallGo(j) =>
      assert CallOk(s, s.calls[j]);
      CallTouches(s, j, s');
      CallAccount(s, j, s', op);
    case _ => WorldAccount(s, e, s', op);
  }

  lemma {:induction false} RunAccount(s: Shared, es: seq<Step>, op: Op)
    requires Inv(s) && Feasible(s, es)
    ensures Account(Run(s, es), op) == Account(s, op) + Demand(es, op)
    decreases |es|
  {
    if es != [] {
      StepKeepsInv(s, es[0], After(s, es[0]));
      StepAccount(s, es[0], After(s, es[0]), op);
      RunAccount(After(s, es[0]), es[1..], op);
    }
  }

  lemma {:induction false} NoOpsDue(resolutions: seq<Resolution>, op: Op)
    requires forall i :: 0 <= i < |resolutions| ==> resolutions[i].pc == Done
    ensures DueOps(resolutions, op) == 0
  {
    if resolutions != [] {
      NoOpsDue(resolutions[..|resolutions| - 1], op);
    }
  }

  lemma {:induction false} NoLinksDue(calls: seq<Call>, op: Op)
    requires forall j :: 0 <= j < |calls| ==> calls[j].pc != AtAddLock && calls[j].pc != InAdd
    ensures DueLinks(calls, op) == 0
  {
    if calls != [] {
      NoLinksDue(calls[..|calls| - 1], op);
    }
  }

  /**
   Whatever fulfil, reject or added callback a run asks for takes effect at most as often
   as it is asked for, nothing else does, and at rest it has exactly as often.
   */
  lemma EachTakesEffectOnce(es: seq<Step>, op: Op)
    requires Feasible(Initial(), es)
    ensures Times(Run(Initial(), es).log, op) <= Demand(es, op)
    ensures FutureProgress.AtRest(Run(Initial(), es)) ==> Times(Run(Initial(), es).log, op) == Demand(es, op)
  {
    var z := Run(Initial(), es);
    RunAccount(Initial(), es, op);
    if FutureProgress.AtRest(z) {
      assert IsReachable(z);
      NothingIsDue(z, op);
    }
  }

  lemma {:induction false} DemandedInSomeStep(es: seq<Step>, op: Op)
    requires Demand(es, op) > 0
    ensures exists i :: 0 <= i < |es| && AsksFor(es[i], op)
  {
    if !AsksFor(es[0], op) {
      DemandedInSomeStep(es[1..], op);
      var i :| 0 <= i < |es[1..]| && AsksFor(es[1..][i], op);
      assert AsksFor(es[i + 1], op);
    }
  }

  lemma LoggedWasAskedFor(es: seq<Step>, op: Op)
    requires Feasible(Initial(), es) && op in Run(Initial(), es).log && !op.DoLink?
    ensures StartResolution(op) in es
  {
    EachTakesEffectOnce(es, op);
    TimesIn(Run(Initial(), es).log, op);
    DemandedInSomeStep(es, op);
    var i :| 0 <= i < |es| && AsksFor(es[i], op);
    assert es[i] == StartResolution(op);
  }

  /**
   On every run: only future_get returns a value, and that value was passed to some
   promise_fulfill; only future_get aborts, and then there was a promise_reject.
   */
  lemma OutcomesAreOwed(es: seq<Step>, j: nat)
    requires Feasible(Initial(), es) && j < |Run(Initial(), es).calls|
    ensures |RequestsAsked(es)| == |Run(Initial(), es).calls|
    ensures var pc := Run(Initial(), es).calls[j].pc;
      && (pc.Got? ==> RequestsAsked(es)[j] == Get && StartResolution(DoFulfil(pc.v)) in es)
      && (pc == AbortedUnfulfilled ==> RequestsAsked(es)[j] == Get && exists rc :: StartResolution(DoReject(rc)) in es)
      && (pc == Waited ==> RequestsAsked(es)[j] == Wait)
      && pc != AbortedUnresolved
  {
    var z := Run(Initial(), es);
    ThreadsDoWhatTheyWereAsked(es);
    assert Requests(z)[j] == z.calls[j].request;
    assert IsReachable(z);
    ReachableInv(z);
    assert CallOk(z, z.calls[j]);
    if z.calls[j].pc.Got? {
      LoggedWasAskedFor(es, DoFulfil(z.calls[j].pc.v));
    } else if z.calls[j].pc == AbortedUnfulfilled {
      LastRejectedInLog(z.log);
      LoggedWasAskedFor(es, DoReject(LastRejected(z.log).value));
    }
  }

  lemma {:induction false} AskedIsDemanded(es: seq<Step>, op: Op)
    requires StartResolution(op) in es
    ensures Demand(es, op) > 0 && OpsAsked(es) != []
  {
    if es[0] != StartResolution(op) {
      AskedIsDemanded(es[1..], op);
    }
  }

  lemma {:induction false} LoggedFulfilCounts(log: seq<Op>, v: Value)
    requires DoFulfil(v) in log
    ensures LastFulfilled(log).Some?
  {
    if log[|log| - 1] != DoFulfil(v) {
      LoggedFulfilCounts(log[..|log| - 1], v);
    }
  }

  /** At rest the future is resolved exactly if anybody was asked to resolve it ... */
  lemma ResolvedExactlyWhenAsked(es: seq<Step>)
    requires Feasible(Initial(), es) && FutureProgress.AtRest(Run(Initial(), es))
    ensures Run(Initial(), es).resolved <==> OpsAsked(es) != []
  {
    var z := Run(Initial(), es);
    assert IsReachable(z);
    FutureProgress.SettledAtRest(z);
    ThreadsDoWhatTheyWereAsked(es);
    assert |Ops(z)| == |z.resolutions|;
    if z.resolved {
      ResolvedIsLogged(z);
      var op :| op in z.log && !op.DoLink?;
      LoggedWasAskedFor(es, op);
      AskedIsDemanded(es, op);
    }
  }

  lemma ResolvedIsLogged(z: Shared)
    requires IsReachable(z) && z.mutex == None && z.resolved
    ensures exists op :: op in z.log && !op.DoLink?
  {
    AgreesWithTheModel(z);
    StateByHistory(z.log);
    LastFulfilledInLog(z.log);
    LastRejectedInLog(z.log);
  }

  /** ... and fulfilled, so that no later future_get aborts, exactly if anybody was asked to fulfil it. */
  lemma FulfilledExactlyWhenAsked(es: seq<Step>)
    requires Feasible(Initial(), es) && FutureProgress.AtRest(Run(Initial(), es))
    ensures Run(Initial(), es).fulfilled <==> exists v :: StartResolution(DoFulfil(v)) in es
  {
    var z := Run(Initial(), es);
    assert IsReachable(z);
    FutureProgress.SettledAtRest(z);
    LastWriterWins(z);
    if z.fulfilled {
      LastFulfilledInLog(z.log);
      LoggedWasAskedFor(es, DoFulfil(LastFulfilled(z.log).value));
    }
    if v :| StartResolution(DoFulfil(v)) in es {
      AskedIsDemanded(es, DoFulfil(v));
      EachTakesEffectOnce(es, DoFulfil(v));
      TimesIn(z.log, DoFulfil(v));
      LoggedFulfilCounts(z.log, v);
      FulfilledIsLogged(z);
    }
  }

  lemma FulfilledIsLogged(z: Shared)
    requires IsReachable(z) && z.mutex == None
    ensures z.fulfilled <==> LastFulfilled(z.log).Some?
  {
    AgreesWithTheModel(z);
    StateByHistory(z.log);
  }

  // ------------------------------------------------------------------------
  // Anything may be asked for at any time, and is done

  lemma FirstStep(s: Shared, e: Step, rest: seq<Step>)
    requires Enabled(s, e) && Feasible(After(s, e), rest)
    ensures Feasible(s, [e] + rest) && Run(s, [e] + rest) == Run(After(s, e), rest)
  {}

  lemma {:induction false} RunOn(s: Shared, es: seq<Step>, fs: seq<Step>)
    requires Feasible(s, es) && Feasible(Run(s, es), fs)
    ensures Feasible(s, es + fs) && Run(s, es + fs) == Run(Run(s, es), fs)
    decreases |es|
  {
    if es == [] {
      assert es + fs == fs;
    } else {
      assert (es + fs)[0] == es[0] && (es + fs)[1..] == es[1..] + fs;
      RunOn(After(s, es[0]), es[1..], fs);
    }
  }

  lemma ReachableOn(s: Shared, e: Step, es: seq<Step>)
    requires IsReachable(s) && Enabled(s, e) && Feasible(After(s, e), es)
    ensures IsReachable(Run(After(s, e), es))
  {
    var before: seq<Step> :| Feasible(Initial(), before) && s == Run(Initial(), before);
    FirstStep(s, e, es);
    RunOn(Initial(), before, [e] + es);
  }

  /** A fulfil or reject may be called at any time; when the threads rest it has resolved the future. */
  lemma EveryResolutionTakesEffect(s: Shared, op: Op, es: seq<Step>)
    requires IsReachable(s) && !op.DoLink?
    ensures Enabled(s, StartResolution(op))
    ensures
      var s' := After(s, StartResolution(op));
      Feasible(s', es) && FutureProgress.AtRest(Run(s', es)) ==>
        op in Run(s', es).log && Run(s', es).resolved
  {
    var s' := After(s, StartResolution(op));
    if Feasible(s', es) && FutureProgress.AtRest(Run(s', es)) {
      var z := Run(s', es);
      ReachableInv(s);
      ReachableOn(s, StartResolution(op), es);
      StepKeepsInv(s, StartResolution(op), s');
      StepAccount(s, StartResolution(op), s', op);
      RunAccount(s', es, op);
      FutureProgress.SettledAtRest(z);
      NothingIsDue(z, op);
      TimesIn(z.log, op);
      RunTakesRequests(s', es);
      assert |Ops(z)| >= |Ops(s')|;
    }
  }

  lemma NothingIsDue(z: Shared, op: Op)
    requires IsReachable(z) && FutureProgress.AtRest(z)
    ensures Account(z, op) == Times(z.log, op)
  {
    FutureProgress.SettledAtRest(z);
    assert forall j :: 0 <= j < |z.calls| ==> FutureProgress.Settled(z.calls[j], z.resolved);
    NoOpsDue(z.resolutions, op);
    NoLinksDue(z.calls, op);
  }

  /** So may a wait, a get or an add; when the threads rest it is settled. */
  lemma EveryCallSettles(s: Shared, request: Request, es: seq<Step>)
    requires IsReachable(s) && (request.Add? ==> request.hook.links == [])
    ensures Enabled(s, StartCall(request))
    ensures
      var s', j := After(s, StartCall(request)), |s.calls|;
      Feasible(s', es) && FutureProgress.AtRest(Run(s', es)) ==>
        var z := Run(s', es);
        && j < |z.calls| && z.calls[j].request == request
        && FutureProgress.Settled(z.calls[j], z.resolved)
        && (request.Add? ==> DoLink(request.hook) in z.log)
  {
    var s' := After(s, StartCall(request));
    if Feasible(s', es) && FutureProgress.AtRest(Run(s', es)) {
      var z := Run(s', es);
      ReachableInv(s);
      ReachableOn(s, StartCall(request), es);
      StepKeepsInv(s, StartCall(request), s');
      FutureProgress.SettledAtRest(z);
      RunTakesRequests(s', es);
      assert Requests(z)[|s.calls|] == Requests(s')[|s.calls|];
      if request.Add? {
        var op := DoLink(request.hook);
        StepAccount(s, StartCall(request), s', op);
        RunAccount(s', es, op);
        NothingIsDue(z, op);
        TimesIn(z.log, op);
      }
    }
  }

  /** A waiter that wakes for no reason may do so, and is asleep again as if nothing had been. */
  lemma SpuriousWakeUp(s: Shared, j: nat)
    requires j < |s.calls| && s.calls[j].pc == Asleep && !s.resolved && s.mutex == None
    ensures Feasible(s, [Wake(j), CallGo(j), CallGo(j)])
    ensures Run(s, [Wake(j), CallGo(j), CallGo(j)]) == s
  {
    var a := After(s, Wake(j));
    var b := CallNext(a, j);
    assert CallNext(b, j) == s;
    FirstStep(b, CallGo(j), []);
    FirstStep(a, CallGo(j), [CallGo(j)]);
    FirstStep(s, Wake(j), [CallGo(j), CallGo(j)]);
  }

  // ------------------------------------------------------------------------
  // Which callbacks a walk runs

  /** What no step takes back. */
  ghost predicate Stays(s: Shared, s': Shared) {
    && s.chain <= s'.chain && |s.resolutions| <= |s'.resolutions|
    && forall i :: 0 <= i < |s.resolutions| ==>
         && (s.resolutions[i].headRead.Some? ==> s'.resolutions[i].headRead == s.resolutions[i].headRead)
         && (s.resolutions[i].headRead == None && s'.resolutions[i].headRead.Some? ==>
               |s.chain| <= s'.resolutions[i].headRead.value)
  }

  lemma StepStays(s: Shared, e: Step, s': Shared)
    requires ResolutionInv(s) && Enabled(s, e) && s' == After(s, e)
    ensures Stays(s, s')
  {
    match e
    case ResolverGo(i) =>
      ResolverTouches(s, i, s');
      assert ResolutionOk(s, s.resolutions[i]);
    case CallGo(j) => CallTouches(s, j, s');
    case _ =>
  }

  lemma {:induction false} RunStays(s: Shared, es: seq<Step>)
    requires Inv(s) && Feasible(s, es)
    ensures Inv(Run(s, es)) && Stays(s, Run(s, es))
    decreases |es|
  {
    if es != [] {
      var s' := After(s, es[0]);
      StepKeepsInv(s, es[0], s');
      StepStays(s, es[0], s');
      RunStays(s', es[1..]);
    }
  }

  /** A callback linked before the resolution has read the list head is run by it. */
  lemma LinkedInTimeRuns(s: Shared, i: nat, es: seq<Step>, c: nat)
    requires IsReachable(s) && i < |s.resolutions| && s.resolutions[i].headRead == None && c < |s.chain|
    requires Feasible(s, es)
    ensures var z := Run(s, es);
      && i < |z.resolutions| && c < |z.chain| && z.chain[c] == s.chain[c]
      && (z.resolutions[i].pc == Done ==> c in z.resolutions[i].ran)
  {
    var z := Run(s, es);
    ReachableInv(s);
    RunStays(s, es);
    assert ResolutionOk(z, z.resolutions[i]);
    if z.resolutions[i].pc == Done {
      DownMembers(z.resolutions[i].headRead.value, 0, c);
    }
  }

  /** And no other is: the read of the list head decides. */
  lemma TheHeadReadDecides(s: Shared, i: nat, es: seq<Step>, c: nat)
    requires IsReachable(s) && i < |s.resolutions| && s.resolutions[i].pc == AtHeadRead
    requires Feasible(ResolverNext(s, i), es)
    ensures var z := Run(ResolverNext(s, i), es);
      i < |z.resolutions| && (z.resolutions[i].pc == Done ==> (c in z.resolutions[i].ran <==> c < |s.chain|))
  {
    var s' := ResolverNext(s, i);
    var z := Run(s', es);
    ReachableInv(s);
    StepKeepsInv(s, ResolverGo(i), s');
    RunStays(s', es);
    assert s'.resolutions[i].headRead == Some(|s.chain|);
    assert ResolutionOk(z, z.resolutions[i]);
    DownMembers(|s.chain|, 0, c);
  }
}
