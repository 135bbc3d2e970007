/** What the users of the pool asked for, step by step of a run, and that this is what they get. */
module PoolRequests {
  import opened Common
  import opened QueueModel
  import opened PoolMachine
  import opened PoolInvariant
  import opened StepFrames
  import opened PoolSafety
  import PoolProgress
  import PoolRefinement

  // ------------------------------------------------------------------------
  // The tickets are the submissions and the calls are the calls, in order

  datatype Job = Job(fn: Value -> Value, args: Value)

  ghost function JobOf(e: Step): seq<Job> {
    if e.Submit? then [Job(e.fn, e.args)] else []
  }

  /** What future_pool_execute was called with, call by call. */
  ghost function Submitted(es: seq<Step>): seq<Job> {
    if es == [] then [] else JobOf(es[0]) + Submitted(es[1..])
  }

  ghost function Jobs(s: Pool): seq<Job> {
    seq(|s.tickets|, t requires 0 <= t < |s.tickets| => Job(s.tickets[t].fn, s.tickets[t].args))
  }

  datatype Ask = Ask(t: nat, request: Request)

  ghost function AskOf(e: Step): seq<Ask> {
    if e.StartCall? then [Ask(e.t, e.request)] else []
  }

  /** Which of future_wait, future_get and future_add_callback was called, and on which future. */
  ghost function Asked(es: seq<Step>): seq<Ask> {
    if es == [] then [] else AskOf(es[0]) + Asked(es[1..])
  }

  ghost function Asks(s: Pool): seq<Ask> {
    seq(|s.calls|, r requires 0 <= r < |s.calls| => Ask(s.calls[r].t, s.calls[r].request))
  }

  /** Old tickets and old calls stay what they were asked for. */
  ghost predicate SameRequests(s: Pool, s': Pool) {
    && |s'.tickets| == |s.tickets| && |s'.calls| == |s.calls|
    && (forall t :: 0 <= t < |s.tickets| ==>
          s'.tickets[t].fn == s.tickets[t].fn && s'.tickets[t].args == s.tickets[t].args)
    && (forall r :: 0 <= r < |s.calls| ==>
          s'.calls[r].t == s.calls[r].t && s'.calls[r].request == s.calls[r].request)
  }

  lemma SameRequestsSameLists(s: Pool, s': Pool)
    requires SameRequests(s, s')
    ensures Jobs(s') == Jobs(s) && Asks(s') == Asks(s)
  {}

  lemma WorkerTakesNone(s: Pool, w: nat, s': Pool)
    requires WorkerReady(s, w) && s' == WorkerNext(s, w)
    ensures SameRequests(s, s')
  {
    if InQueuePop(s.workers[w]) {
      PopTouches(s, w, s');
    } else {
      WorkTouches(s, w, s');
    }
  }

  lemma WorldTakesRequests(s: Pool, e: Step, s': Pool)
    requires Enabled(s, e) && Worldly(e) && s' == After(s, e)
    ensures Jobs(s') == Jobs(s) + JobOf(e) && Asks(s') == Asks(s) + AskOf(e)
  {
    assert !e.Submit? && !e.StartCall? ==> SameRequests(s, s');
  }

  lemma OldStepTakesNone(s: Pool, e: Step, s': Pool)
    requires Enabled(s, e) && !Worldly(e) && s' == After(s, e)
    ensures SameRequests(s, s')
  {
    match e
    case ClientGo(t, wake) => assert s' == ClientNext(s, t, wake);
    case WorkerGo(w) => WorkerTakesNone(s, w, s');
    case CallGo(r) => CallTouches(s, r, s');
  }

  lemma StepTakesRequests(s: Pool, e: Step, s': Pool)
    requires Enabled(s, e) && s' == After(s, e)
    ensures Jobs(s') == Jobs(s) + JobOf(e) && Asks(s') == Asks(s) + AskOf(e)
  {
    if Worldly(e) {
      WorldTakesRequests(s, e, s');
    } else {
      OldStepTakesNone(s, e, s');
      SameRequestsSameLists(s, s');
    }
  }

  lemma {:induction false} RunTakesJobs(s: Pool, es: seq<Step>)
    requires Feasible(s, es)
    ensures Jobs(Run(s, es)) == Jobs(s) + Submitted(es)
    decreases |es|
  {
    if es != [] {
      var s', rest := After(s, es[0]), es[1..];
      StepTakesRequests(s, es[0], s');
      RunTakesJobs(s', rest);
      Regroup(Jobs(s), JobOf(es[0]), Submitted(rest));
    }
  }

  lemma {:induction false} RunTakesAsks(s: Pool, es: seq<Step>)
    requires Feasible(s, es)
    ensures Asks(Run(s, es)) == Asks(s) + Asked(es)
    decreases |es|
  {
    if es != [] {
      var s', rest := After(s, es[0]), es[1..];
      StepTakesRequests(s, es[0], s');
      RunTakesAsks(s', rest);
      Regroup(Asks(s), AskOf(es[0]), Asked(rest));
    }
  }

  lemma {:induction false} RunKeepsCrew(s: Pool, es: seq<Step>)
    requires Feasible(s, es)
    ensures |Run(s, es).workers| == |s.workers| && Run(s, es).variant == s.variant
    decreases |es|
  {
    if es != [] {
      StepKeepsCrew(s, es[0]);
      RunKeepsCrew(After(s, es[0]), es[1..]);
    }
  }

  /**
   On every run of a pool made with n threads there are n workers; ticket t is the t-th
   submission, with its fn and args; call r is the r-th call made, on that future, of
   that kind.
   */
  lemma TicketsAndCallsAreThoseAskedFor(n: nat, variant: Variant, es: seq<Step>)
    requires Feasible(Initial(n, variant), es)
    ensures var z := Run(Initial(n, variant), es);
      Jobs(z) == Submitted(es) && Asks(z) == Asked(es) && |z.workers| == n && z.variant == variant
  {
    RunTakesJobs(Initial(n, variant), es);
    RunTakesAsks(Initial(n, variant), es);
    RunKeepsCrew(Initial(n, variant), es);
  }

  /** From end to end: a future_get that has returned gives fn(args) of the submission it asked about. */
  lemma GetReturnsTheSubmittedResult(n: nat, variant: Variant, es: seq<Step>, r: nat)
    requires 0 < n && Feasible(Initial(n, variant), es)
    requires r < |Run(Initial(n, variant), es).calls| && Run(Initial(n, variant), es).calls[r].pc.Got?
    ensures |Asked(es)| > r && Asked(es)[r].request == Get && Asked(es)[r].t < |Submitted(es)|
    ensures var job := Submitted(es)[Asked(es)[r].t];
      Run(Initial(n, variant), es).calls[r].pc == Got(job.fn(job.args))
  {
    var z := Run(Initial(n, variant), es);
    TicketsAndCallsAreThoseAskedFor(n, variant, es);
    assert IsReachable(z);
    AnswersAreRight(z, r);
    ReachableInv(z);
    assert CallOk(z, z.calls[r]);
    assert Asks(z)[r] == Ask(z.calls[r].t, z.calls[r].request);
    assert Jobs(z)[z.calls[r].t] == Job(z.tickets[z.calls[r].t].fn, z.tickets[z.calls[r].t].args);
  }

  // ------------------------------------------------------------------------
  // The callbacks of a future are those added to it

  /** The call has linked callback id to future t. */
  ghost predicate HasLinked(c: Call, t: nat, id: nat) {
    c.t == t && c.request == Add(id) && (c.pc == AtAddUnlock || c.pc == Added)
  }

  ghost function Links(calls: seq<Call>, t: nat, id: nat): nat {
    if calls == [] then 0
    else Links(calls[..|calls| - 1], t, id) + if HasLinked(calls[|calls| - 1], t, id) then 1 else 0
  }

  ghost function NodesOf(s: Pool, t: nat, id: nat): nat {
    if t < |s.tickets| then Times(s.tickets[t].chain, User(id)) else 0
  }

  ghost predicate Balanced(s: Pool, t: nat, id: nat) {
    NodesOf(s, t, id) == Links(s.calls, t, id)
  }

  lemma {:induction false} SameLinks(a: seq<Call>, b: seq<Call>, t: nat, id: nat)
    requires |a| <= |b| && forall r :: 0 <= r < |a| ==> (HasLinked(b[r], t, id) <==> HasLinked(a[r], t, id))
    requires forall r :: |a| <= r < |b| ==> !HasLinked(b[r], t, id)
    ensures Links(b, t, id) == Links(a, t, id)
    decreases |b|
  {
    if b != [] {
      var n := |b| - 1;
      SameLinks(if |a| == |b| then a[..n] else a, b[..n], t, id);
    }
  }

  lemma {:induction false} LinksUpdate(calls: seq<Call>, r: nat, c: Call, t: nat, id: nat)
    requires r < |calls|
    ensures Links(calls[r := c], t, id) == Links(calls, t, id)
      - (if HasLinked(calls[r], t, id) then 1 else 0) + if HasLinked(c, t, id) then 1 else 0
  {
    var n := |calls| - 1;
    if r == n {
      assert calls[r := c][..n] == calls[..n];
    } else {
      LinksUpdate(calls[..n], r, c, t, id);
      assert calls[r := c][..n] == calls[..n][r := c];
    }
  }

  lemma ClientKeepsBalance(s: Pool, u: nat, wake: Option<nat>, s': Pool, t: nat, id: nat)
    requires Balanced(s, t, id) && ClientReady(s, u, wake) && s' == ClientNext(s, u, wake)
    ensures Balanced(s', t, id)
  {
    OneMoreTime(s.tickets[u].chain, Cleanup, User(id));
  }

  lemma WorkerKeepsBalance(s: Pool, w: nat, s': Pool, t: nat, id: nat)
    requires Balanced(s, t, id) && WorkerReady(s, w) && s' == WorkerNext(s, w)
    ensures Balanced(s', t, id)
  {
    if InQueuePop(s.workers[w]) {
      PopTouches(s, w, s');
    } else {
      WorkTouches(s, w, s');
      SameLinks(s.calls, s'.calls, t, id);
    }
  }

  lemma CallKeepsBalance(s: Pool, r: nat, s': Pool, t: nat, id: nat)
    requires CallInv(s) && Balanced(s, t, id) && CallReady(s, r) && s' == CallNext(s, r)
    ensures Balanced(s', t, id)
  {
    CallTouches(s, r, s');
    LinksUpdate(s.calls, r, s'.calls[r], t, id);
    assert CallOk(s, s.calls[r]);
    if s.calls[r].pc == InAdd {
      OneMoreTime(s.tickets[s.calls[r].t].chain, User(s.calls[r].request.id), User(id));
    }
  }

  lemma WorldKeepsBalance(s: Pool, e: Step, s': Pool, t: nat, id: nat)
    requires Balanced(s, t, id) && Enabled(s, e) && Worldly(e) && s' == After(s, e)
    ensures Balanced(s', t, id)
  {
    WorldIsQuiet(s, e, s');
    WorldLinksNothing(s, s', t, id);
    SameLinks(s.calls, s'.calls, t, id);
  }

  lemma WorldLinksNothing(s: Pool, s': Pool, t: nat, id: nat)
    requires Quiet(s, s')
    ensures NodesOf(s', t, id) == NodesOf(s, t, id)
  {}

  lemma {:induction false} RunKeepsBalance(s: Pool, es: seq<Step>, t: nat, id: nat)
    requires Inv(s) && Balanced(s, t, id) && Feasible(s, es)
    ensures Balanced(Run(s, es), t, id)
    decreases |es|
  {
    if es != [] {
      var e, s' := es[0], After(s, es[0]);
      StepKeepsInv(s, e, s');
      match e {
        case ClientGo(u, wake) => ClientKeepsBalance(s, u, wake, s', t, id);
        case WorkerGo(w) => WorkerKeepsBalance(s, w, s', t, id);
        case CallGo(r) => CallKeepsBalance(s, r, s', t, id);
        case _ => WorldKeepsBalance(s, e, s', t, id);
      }
      RunKeepsBalance(s', es[1..], t, id);
    }
  }

  /** Each future has callback id once for every future_add_callback of it that got that far, and no more. */
  lemma CallbacksAreThoseAdded(s: Pool, t: nat, id: nat)
    requires IsReachable(s) && t < |s.tickets|
    ensures Times(s.tickets[t].chain, User(id)) == Links(s.calls, t, id)
  {
    var n: nat, variant: Variant, es: seq<Step> :|
      0 < n && Feasible(Initial(n, variant), es) && s == Run(Initial(n, variant), es);
    InitialInv(n, variant);
    RunKeepsBalance(Initial(n, variant), es, t, id);
  }

  /** What a walk runs is the cleanup, as the first node, or a callback that was added to this future. */
  lemma OnlyAddedCallbacksRun(s: Pool, t: nat, i: nat)
    requires IsReachable(s) && t < |s.tickets| && i < |s.tickets[t].ran|
    ensures s.tickets[t].ran[i] < |s.tickets[t].chain|
    ensures match s.tickets[t].chain[s.tickets[t].ran[i]]
            case Cleanup => s.tickets[t].ran[i] == 0
            case User(id) => Links(s.calls, t, id) > 0
  {
    ReachableInv(s);
    var k := s.tickets[t];
    assert TicketOk(s, t);
    var low: nat := if k.place.Held? && s.workers[k.place.w].InWalk? then s.workers[k.place.w].k else 0;
    assert WalkedTo(k, low) && k.ran[i] in k.ran;
    DownMembers(k.headRead.value, low, k.ran[i]);
    if k.chain[k.ran[i]].User? {
      var id := k.chain[k.ran[i]].id;
      CallbacksAreThoseAdded(s, t, id);
      TimesIn(k.chain, User(id));
    }
  }

  /**
   Whether the callback in node j of a future runs is settled by the worker's read of the
   list head: when the worker is done it has run if and only if it was linked by then.
   */
  lemma TheHeadReadDecides(s: Pool, w: nat, t: nat, es: seq<Step>, j: nat)
    requires IsReachable(s) && w < |s.workers| && s.workers[w] == AtHeadRead(t) && WorkerReady(s, w)
    requires Feasible(WorkerNext(s, w), es) && Run(WorkerNext(s, w), es).frees[Closure(t)] > 0
    ensures var z := Run(WorkerNext(s, w), es);
      t < |z.tickets| && (j in z.tickets[t].ran <==> j < |s.tickets[t].chain|)
  {
    var s' := WorkerNext(s, w);
    var z := Run(s', es);
    ReachableStep(s, WorkerGo(w));
    ReachableOn(s', es);
    ReachableInv(s');
    PoolRefinement.RunStays(s', es);
    ReachableInv(z);
    assert PoolRefinement.Stays(s'.tickets[t], z.tickets[t]);
    assert s'.tickets[t].headRead == Some(|s.tickets[t].chain|);
    assert IsFreed(z, Closure(t)) && TicketOk(z, t);
    DownMembers(|s.tickets[t].chain|, 0, j);
  }

  /** In particular one linked before any given moment at which the head has not been read. */
  lemma LinkedInTimeRuns(s: Pool, t: nat, es: seq<Step>, j: nat)
    requires IsReachable(s) && t < |s.tickets| && s.tickets[t].headRead == None && j < |s.tickets[t].chain|
    requires Feasible(s, es) && Run(s, es).frees[Closure(t)] > 0
    ensures var z := Run(s, es);
      && t < |z.tickets| && j in z.tickets[t].ran
      && j < |z.tickets[t].chain| && z.tickets[t].chain[j] == s.tickets[t].chain[j]
  {
    var z := Run(s, es);
    ReachableInv(s);
    PoolRefinement.RunStays(s, es);
    ReachableOn(s, es);
    ReachableInv(z);
    assert PoolRefinement.Stays(s.tickets[t], z.tickets[t]);
    assert z.tickets[t].chain[..|s.tickets[t].chain|][j] == s.tickets[t].chain[j];
    assert IsFreed(z, Closure(t)) && TicketOk(z, t);
    DownMembers(z.tickets[t].headRead.value, 0, j);
  }

  // ------------------------------------------------------------------------
  // Whoever asks is answered

  lemma {:induction false} InternalKeepsServing(s: Pool, es: seq<Step>)
    requires s.destroyer == NotStarted && Feasible(s, es) && forall i :: 0 <= i < |es| ==> Internal(es[i])
    ensures Run(s, es).destroyer == NotStarted
    decreases |es|
  {
    if es != [] {
      assert Internal(es[0]);
      assert After(s, es[0]).destroyer == NotStarted;
      InternalKeepsServing(After(s, es[0]), es[1..]);
    }
  }

  /** Once future_pool_execute has returned the future, a request is made on it, and the pool comes to rest. */
  ghost predicate SettlesAfter(s: Pool, t: nat, request: Request, es: seq<Step>)
    requires Enabled(s, StartCall(t, request))
  {
    var s' := After(s, StartCall(t, request));
    Feasible(s', es) && PoolProgress.AtRest(Run(s', es)) && Run(s', es).destroyer == NotStarted
  }

  /**
   Any request may be made on any future that future_pool_execute has returned, and, if
   the queue has not lost its closure, then whatever else goes on, by the time the
   serving pool rests that call has returned; a future_get has returned fn(args).
   */
  lemma EveryRequestIsAnswered(s: Pool, t: nat, request: Request, es: seq<Step>)
    requires IsReachable(s) && s.destroyer == NotStarted
    requires t < |s.tickets| && s.tickets[t].client == Returned && t !in Missing(s)
    ensures Enabled(s, StartCall(t, request))
    ensures SettlesAfter(s, t, request, es) ==>
      var z := Run(After(s, StartCall(t, request)), es);
      && |s.calls| < |z.calls| && z.calls[|s.calls|].request == request
      && match request
         case Wait => z.calls[|s.calls|].pc == Waited
         case Get => z.calls[|s.calls|].pc == Got(s.tickets[t].fn(s.tickets[t].args))
         case Add(_) => z.calls[|s.calls|].pc == Added
  {
    if SettlesAfter(s, t, request, es) {
      var s' := After(s, StartCall(t, request));
      var z := Run(s', es);
      ReachableStep(s, StartCall(t, request));
      ReachableOn(s', es);
      NewCallStays(s', es, |s.calls|);
      NotLostStays(s', es, t);
      PoolProgress.ServedAtRest(z);
    }
  }

  lemma NewCallStays(s: Pool, es: seq<Step>, r: nat)
    requires Feasible(s, es) && r < |s.calls|
    ensures var z := Run(s, es);
      r < |z.calls| && z.calls[r].t == s.calls[r].t && z.calls[r].request == s.calls[r].request
  {
    RunTakesAsks(s, es);
    assert Asks(Run(s, es))[r] == Asks(s)[r];
  }

  lemma NotLostStays(s: Pool, es: seq<Step>, t: nat)
    requires IsReachable(s) && Feasible(s, es)
    requires t < |s.tickets| && s.tickets[t].client == Returned && t !in Missing(s)
    ensures var z := Run(s, es);
      && t < |z.tickets| && t !in Missing(z)
      && z.tickets[t].fn == s.tickets[t].fn && z.tickets[t].args == s.tickets[t].args
  {
    var z := Run(s, es);
    ReachableInv(s);
    PoolRefinement.RunStays(s, es);
    ReachableOn(s, es);
    ReachableInv(z);
    assert PoolRefinement.Stays(s.tickets[t], z.tickets[t]);
    assert !PlaceIs(s, t, Unqueued) && !PlaceIs(s, t, Lost);
    assert t in Missing(z) <==> PlaceIs(z, t, Lost);
  }

  /** ... and the pool does come to rest. */
  lemma SomeRunAnswers(s: Pool, t: nat, request: Request)
    requires IsReachable(s) && s.destroyer == NotStarted && Enabled(s, StartCall(t, request))
    ensures exists es: seq<Step> :: SettlesAfter(s, t, request, es)
  {
    var s' := After(s, StartCall(t, request));
    ReachableStep(s, StartCall(t, request));
    ReachableInv(s');
    PoolProgress.SomeRunRests(s');
    var es: seq<Step> :| PoolProgress.RestsAfter(s', es);
    InternalKeepsServing(s', es);
    assert SettlesAfter(s, t, request, es);
  }

  /**
   While the pool serves, anything may be submitted to it, and by the time it rests the
   future of that submission is resolved with fn(args), unless the queue has lost it.
   */
  lemma EverySubmissionIsServed(s: Pool, fn: Value -> Value, args: Value, es: seq<Step>)
    requires IsReachable(s) && s.destroyer == NotStarted
    ensures Enabled(s, Submit(fn, args))
    ensures
      var s' := After(s, Submit(fn, args));
      Feasible(s', es) && PoolProgress.AtRest(Run(s', es)) && Run(s', es).destroyer == NotStarted ==>
        var z, t := Run(s', es), |s.tickets|;
        && t < |z.tickets| && z.tickets[t].client == Returned
        && (t !in Missing(z) ==> z.tickets[t].resolved && z.tickets[t].value == fn(args))
  {
    var s' := After(s, Submit(fn, args));
    if Feasible(s', es) && PoolProgress.AtRest(Run(s', es)) && Run(s', es).destroyer == NotStarted {
      var z, t := Run(s', es), |s.tickets|;
      ReachableStep(s, Submit(fn, args));
      ReachableOn(s', es);
      NewTicketStays(s', es, t);
      ReachableInv(z);
      PoolProgress.ServedAtRest(z);
      PoolProgress.ClientsAtRest(z, t);
      ResolvedOnceWithResult(z, t);
    }
  }

  lemma NewTicketStays(s: Pool, es: seq<Step>, t: nat)
    requires Feasible(s, es) && t < |s.tickets|
    ensures var z := Run(s, es);
      t < |z.tickets| && z.tickets[t].fn == s.tickets[t].fn && z.tickets[t].args == s.tickets[t].args
  {
    RunTakesJobs(s, es);
    assert Jobs(Run(s, es))[t] == Jobs(s)[t];
  }
}
