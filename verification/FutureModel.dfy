/**
 A future of src/future.c used by one thread at a time: what fulfilling, rejecting and
 adding callbacks, in any order and number, leave behind.
 */
module FutureModel {
  import opened Common

  /** A callback function with its args, known by what it links to the same future while it runs. */
  datatype Hook = Hook(id: nat, args: Value, links: seq<Hook>)

  /** One run of the callback in node `node`, and what it saw of is_resolved. */
  datatype Visit = Visit(node: nat, resolved: bool)

  /** `chain` is the callback list, oldest node first; `visits` is history. */
  datatype FutureState = FutureState(
    resolved: bool, fulfilled: bool, rejectedRc: int, value: Value,
    chain: seq<Hook>, visits: seq<Visit>)

  function New(): FutureState {
    FutureState(false, false, 0, NULL, [], [])
  }

  function Execute(f: FutureState, node: nat): FutureState
    requires node < |f.chain|
  {
    f.(visits := f.visits + [Visit(node, f.resolved)], chain := f.chain + f.chain[node].links)
  }

  /** The walk of future_execute_callbacks from node `k - 1` down. */
  function Walk(f: FutureState, k: nat): FutureState
    requires k <= |f.chain|
    decreases k
  {
    if k == 0 then f else Walk(Execute(f, k - 1), k - 1)
  }

  function SetValue(f: FutureState, v: Value): FutureState {
    Walk(f.(value := v, fulfilled := true, resolved := true), |f.chain|)
  }

  function SetRejected(f: FutureState, rc: int): FutureState {
    Walk(f.(rejectedRc := rc, resolved := true), |f.chain|)
  }

  // ------------------------------------------------------------------------
  // Histories

  datatype Op = DoFulfil(v: Value) | DoReject(rc: int) | DoLink(hook: Hook)

  function Perform(f: FutureState, op: Op): FutureState {
    match op
    case DoFulfil(v) => SetValue(f, v)
    case DoReject(rc) => SetRejected(f, rc)
    case DoLink(hook) => f.(chain := f.chain + [hook])
  }

  function Play(ops: seq<Op>): FutureState {
    if ops == [] then New() else Perform(Play(ops[..|ops| - 1]), ops[|ops| - 1])
  }

  /** The argument of the last fulfil, if any. */
  function LastFulfilled(ops: seq<Op>): Option<Value> {
    if ops == [] then None
    else if ops[|ops| - 1].DoFulfil? then Some(ops[|ops| - 1].v)
    else LastFulfilled(ops[..|ops| - 1])
  }

  function LastRejected(ops: seq<Op>): Option<int> {
    if ops == [] then None
    else if ops[|ops| - 1].DoReject? then Some(ops[|ops| - 1].rc)
    else LastRejected(ops[..|ops| - 1])
  }

  function Resolutions(ops: seq<Op>): nat {
    if ops == [] then 0
    else Resolutions(ops[..|ops| - 1]) + if ops[|ops| - 1].DoLink? then 0 else 1
  }

  function VisitsTo(visits: seq<Visit>, node: nat): nat {
    if visits == [] then 0
    else VisitsTo(visits[..|visits| - 1], node) + if visits[|visits| - 1].node == node then 1 else 0
  }

  /** What the callbacks of nodes k - 1 down to 0 link, in that order. */
  function LinkedBy(chain: seq<Hook>, k: nat): seq<Hook>
    requires k <= |chain|
  {
    if k == 0 then [] else chain[k - 1].links + LinkedBy(chain, k - 1)
  }

  lemma {:induction false} LinkedByPrefix(chain: seq<Hook>, more: seq<Hook>, k: nat)
    requires k <= |chain|
    ensures LinkedBy(chain + more, k) == LinkedBy(chain, k)
  {
    if k > 0 {
      LinkedByPrefix(chain, more, k - 1);
    }
  }

  /** The visits of one walk over k nodes. */
  function NewestFirst(k: nat, resolved: bool): seq<Visit> {
    seq(k, i requires 0 <= i < k => Visit(k - 1 - i, resolved))
  }

  /**
   One walk: every node linked before it runs once, newest first; what the callbacks
   link, in the order they run, goes to the end of the chain and is not visited; the
   rest is untouched.
   */
  lemma {:induction false} WalkVisitsEachOnce(f: FutureState, k: nat)
    requires k <= |f.chain|
    ensures var g := Walk(f, k);
      && g.visits == f.visits + NewestFirst(k, f.resolved)
      && g.chain == f.chain + LinkedBy(f.chain, k)
      && g == f.(visits := g.visits, chain := g.chain)
    decreases k
  {
    if k > 0 {
      WalkVisitsEachOnce(Execute(f, k - 1), k - 1);
      LinkedByPrefix(f.chain, f.chain[k - 1].links, k - 1);
      assert NewestFirst(k, f.resolved) == [Visit(k - 1, f.resolved)] + NewestFirst(k - 1, f.resolved);
    }
  }

  /** The flags, the value and the code are functions of the history of resolutions. */
  lemma {:induction false} StateByHistory(ops: seq<Op>)
    ensures var f := Play(ops);
      && (f.resolved <==> LastFulfilled(ops).Some? || LastRejected(ops).Some?)
      && (f.fulfilled <==> LastFulfilled(ops).Some?)
      && f.value == (if LastFulfilled(ops).Some? then LastFulfilled(ops).value else NULL)
      && f.rejectedRc == (if LastRejected(ops).Some? then LastRejected(ops).value else 0)
  {
    if ops != [] {
      var before := ops[..|ops| - 1];
      StateByHistory(before);
      var f := Play(before);
      match ops[|ops| - 1] {
        case DoFulfil(v) => WalkVisitsEachOnce(f.(value := v, fulfilled := true, resolved := true), |f.chain|);
        case DoReject(rc) => WalkVisitsEachOnce(f.(rejectedRc := rc, resolved := true), |f.chain|);
        case DoLink(_) =>
      }
    }
  }

  lemma PerformVisits(f: FutureState, op: Op)
    ensures var g := Perform(f, op);
      && f.chain <= g.chain
      && g.visits == f.visits + if op.DoLink? then [] else NewestFirst(|f.chain|, true)
  {
    match op
    case DoFulfil(v) => WalkVisitsEachOnce(f.(value := v, fulfilled := true, resolved := true), |f.chain|);
    case DoReject(rc) => WalkVisitsEachOnce(f.(rejectedRc := rc, resolved := true), |f.chain|);
    case DoLink(_) =>
  }

  predicate VisitsOk(f: FutureState) {
    forall i :: 0 <= i < |f.visits| ==> f.visits[i].resolved && f.visits[i].node < |f.chain|
  }

  lemma PerformKeepsVisitsOk(f: FutureState, op: Op)
    requires VisitsOk(f)
    ensures VisitsOk(Perform(f, op))
  {
    PerformVisits(f, op);
  }

  /** Every callback that ever ran saw a resolved future, and was linked. */
  lemma {:induction false} VisitsSeeResolved(ops: seq<Op>)
    ensures VisitsOk(Play(ops))
  {
    if ops != [] {
      VisitsSeeResolved(ops[..|ops| - 1]);
      PerformKeepsVisitsOk(Play(ops[..|ops| - 1]), ops[|ops| - 1]);
    }
  }

  lemma {:induction false} VisitsToConcat(a: seq<Visit>, b: seq<Visit>, node: nat)
    ensures VisitsTo(a + b, node) == VisitsTo(a, node) + VisitsTo(b, node)
  {
    if b == [] {
      assert a + b == a;
    } else {
      VisitsToConcat(a, b[..|b| - 1], node);
      assert (a + b)[..|a + b| - 1] == a + b[..|b| - 1];
    }
  }

  lemma {:induction false} VisitsToAbsent(visits: seq<Visit>, node: nat)
    requires forall i :: 0 <= i < |visits| ==> visits[i].node != node
    ensures VisitsTo(visits, node) == 0
  {
    if visits != [] {
      VisitsToAbsent(visits[..|visits| - 1], node);
    }
  }

  lemma {:induction false} VisitsInWalk(k: nat, node: nat)
    ensures VisitsTo(NewestFirst(k, true), node) == if node < k then 1 else 0
    decreases k
  {
    if k > 0 {
      assert NewestFirst(k, true) == [Visit(k - 1, true)] + NewestFirst(k - 1, true);
      VisitsToConcat([Visit(k - 1, true)], NewestFirst(k - 1, true), node);
      VisitsInWalk(k - 1, node);
      assert [Visit(k - 1, true)][..0] == [];
    }
  }

  /** One call runs each callback that was there before it once if it resolves, and no other. */
  lemma PerformRuns(f: FutureState, op: Op, node: nat)
    ensures VisitsTo(Perform(f, op).visits, node)
      == VisitsTo(f.visits, node) + if op.DoLink? || node >= |f.chain| then 0 else 1
    ensures |f.chain| <= |Perform(f, op).chain|
  {
    PerformVisits(f, op);
    if op.DoLink? {
      assert f.visits + [] == f.visits;
    } else {
      VisitsToConcat(f.visits, NewestFirst(|f.chain|, true), node);
      VisitsInWalk(|f.chain|, node);
    }
  }

  lemma LastOpCounts(ops: seq<Op>, from: nat)
    requires from < |ops|
    ensures var n := |ops| - 1;
      Resolutions(ops[from..]) == Resolutions(ops[..n][from..]) + if ops[n].DoLink? then 0 else 1
  {
    var n, later := |ops| - 1, ops[from..];
    assert later[..|later| - 1] == ops[..n][from..] && later[|later| - 1] == ops[n];
  }

  lemma UnbornNeverRan(ops: seq<Op>, node: nat)
    requires |Play(ops).chain| <= node
    ensures VisitsTo(Play(ops).visits, node) == 0
  {
    VisitsSeeResolved(ops);
    VisitsToAbsent(Play(ops).visits, node);
  }

  /**
   A callback runs once per resolution since it was added: not for the call that linked
   it, even from inside a callback of that very call, and once for every fulfil or
   reject after that.
   */
  lemma {:induction false} RunsOncePerLaterResolution(ops: seq<Op>, birth: nat, node: nat)
    requires birth < |ops|
    requires |Play(ops[..birth]).chain| <= node < |Play(ops[..birth + 1]).chain|
    ensures VisitsTo(Play(ops).visits, node) == Resolutions(ops[birth + 1..])
    ensures node < |Play(ops).chain|
    decreases |ops|
  {
    var n := |ops| - 1;
    var before := ops[..n];
    PerformRuns(Play(before), ops[n], node);
    if birth == n {
      assert ops[..birth + 1] == ops && ops[birth + 1..] == [];
      UnbornNeverRan(before, node);
    } else {
      assert before[..birth] == ops[..birth] && before[..birth + 1] == ops[..birth + 1];
      RunsOncePerLaterResolution(before, birth, node);
      LastOpCounts(ops, birth + 1);
    }
  }

  // ------------------------------------------------------------------------
  // future_get

  datatype Answer = Blocks | Aborts | Returns(v: Value)

  /** future_get waits for is_resolved, then asserts is_fulfilled (src/future.c:143-151). */
  function Get(f: FutureState): Answer {
    if !f.resolved then Blocks else if !f.fulfilled then Aborts else Returns(f.value)
  }

  /**
   future_get blocks while nothing has resolved the future, aborts if it was only ever
   rejected, and otherwise gives the value of the last fulfil, rejected or not since.
   */
  lemma GetByHistory(ops: seq<Op>)
    ensures Get(Play(ops)) == Blocks <==> Resolutions(ops) == 0
    ensures Get(Play(ops)) == Aborts <==> Resolutions(ops) > 0 && LastFulfilled(ops) == None
    ensures forall v :: Get(Play(ops)) == Returns(v) <==> LastFulfilled(ops) == Some(v)
  {
    StateByHistory(ops);
    ResolutionsByKind(ops);
  }

  lemma {:induction false} ResolutionsByKind(ops: seq<Op>)
    ensures Resolutions(ops) > 0 <==> LastFulfilled(ops).Some? || LastRejected(ops).Some?
  {
    if ops != [] {
      ResolutionsByKind(ops[..|ops| - 1]);
    }
  }
}
