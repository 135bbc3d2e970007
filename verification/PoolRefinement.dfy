/** The pool as its users see it: a table of tickets, each pending until its one answer is filled in. */
module PoolRefinement {
  import opened Common
  import opened QueueModel
  import opened PoolMachine
  import opened PoolInvariant
  import opened StepFrames
  import opened PoolSafety

  datatype Entry = Entry(fn: Value -> Value, args: Value, outcome: Option<Value>)

  ghost predicate Answers(a: seq<Entry>, b: seq<Entry>) {
    exists t: nat ::
      t < |a| && a[t].outcome == None && b == a[t := a[t].(outcome := Some(a[t].fn(a[t].args)))]
  }

  /** A submission opens an entry for what was submitted; every other step answers an entry or is invisible. */
  ghost predicate TableStep(a: seq<Entry>, e: Step, b: seq<Entry>) {
    if e.Submit? then b == a + [Entry(e.fn, e.args, None)] else b == a || Answers(a, b)
  }

  ghost function View(k: Ticket): Entry {
    Entry(k.fn, k.args, if k.resolved then Some(k.value) else None)
  }

  ghost function Table(s: Pool): seq<Entry> {
    seq(|s.tickets|, t requires 0 <= t < |s.tickets| => View(s.tickets[t]))
  }

  lemma TableUpdate(s: Pool, s': Pool, t: nat)
    requires t < |s.tickets| && |s'.tickets| == |s.tickets|
    requires forall u :: 0 <= u < |s.tickets| && u != t ==> s'.tickets[u] == s.tickets[u]
    ensures Table(s') == Table(s)[t := View(s'.tickets[t])]
  {}

  lemma WorkRefines(s: Pool, w: nat, s': Pool, t: nat)
    requires Inv(s) && WorkerReady(s, w) && s' == WorkerNext(s, w) && Works(s, s', w, t)
    ensures TableStep(Table(s), WorkerGo(w), Table(s'))
  {
    assert PlaceIs(s, t, Held(w)) && TicketOk(s, t);
    TableUpdate(s, s', t);
    var a := Table(s);
    if s.workers[w].InSetResolved? {
      assert a[t].outcome == None && Table(s') == a[t := a[t].(outcome := Some(a[t].fn(a[t].args)))];
    } else {
      assert View(s'.tickets[t]) == View(s.tickets[t]);
    }
  }

  lemma PopIsInvisible(s: Pool, w: nat, s': Pool)
    requires PopsOr(s, s', w)
    ensures Table(s') == Table(s)
  {}

  lemma ClientIsInvisible(s: Pool, t: nat, wake: Option<nat>, s': Pool)
    requires ClientReady(s, t, wake) && s' == ClientNext(s, t, wake)
    ensures Table(s') == Table(s)
  {}

  lemma CallIsInvisible(s: Pool, r: nat, s': Pool, t: nat)
    requires Touches(s, s', r, t)
    ensures Table(s') == Table(s)
  {}

  lemma WorldRefines(s: Pool, e: Step, s': Pool)
    requires Enabled(s, e) && Worldly(e) && s' == After(s, e)
    ensures TableStep(Table(s), e, Table(s'))
  {
    if e.Submit? {
      assert Table(s') == Table(s) + [Entry(e.fn, e.args, None)];
    }
  }

  /** Every step of every thread is a step of the table, or invisible in it. */
  lemma StepRefines(s: Pool, e: Step, s': Pool)
    requires Inv(s) && Enabled(s, e) && s' == After(s, e)
    ensures TableStep(Table(s), e, Table(s'))
  {
    match e
    case ClientGo(t, wake) => ClientIsInvisible(s, t, wake, s');
    case WorkerGo(w) =>
      if InQueuePop(s.workers[w]) {
        PopTouches(s, w, s');
        PopIsInvisible(s, w, s');
      } else {
        WorkTouches(s, w, s');
        WorkRefines(s, w, s', Carries(s.workers[w]).value);
      }
    case CallGo(r) =>
      CallTouches(s, r, s');
      CallIsInvisible(s, r, s', s.calls[r].t);
    case _ => WorldRefines(s, e, s');
  }

  /** The table from a to b, one step of it for each step of es. */
  ghost predicate TableRun(tables: seq<seq<Entry>>, es: seq<Step>, a: seq<Entry>, b: seq<Entry>) {
    && |tables| == |es| + 1 && tables[0] == a && tables[|es|] == b
    && forall i :: 0 <= i < |es| ==> TableStep(tables[i], es[i], tables[i + 1])
  }

  lemma TableRunLonger(
    tables: seq<seq<Entry>>, es: seq<Step>, a: seq<Entry>, b: seq<Entry>, first: seq<Entry>, e: Step)
    requires TableRun(tables, es, a, b) && TableStep(first, e, a)
    ensures TableRun([first] + tables, [e] + es, first, b)
  {}

  /** Every run of the pool, whatever the interleaving, is a run of the table, opened as its submissions say. */
  lemma {:induction false} RunRefines(s: Pool, es: seq<Step>)
    requires Inv(s) && Feasible(s, es)
    ensures exists tables: seq<seq<Entry>> :: TableRun(tables, es, Table(s), Table(Run(s, es)))
    decreases |es|
  {
    if es == [] {
      assert TableRun([Table(s)], es, Table(s), Table(Run(s, es)));
    } else {
      var s' := After(s, es[0]);
      StepKeepsInv(s, es[0], s');
      StepRefines(s, es[0], s');
      RunRefines(s', es[1..]);
      var z := Table(Run(s', es[1..]));
      var tables: seq<seq<Entry>> :| TableRun(tables, es[1..], Table(s'), z);
      TableRunLonger(tables, es[1..], Table(s'), z, Table(s), es[0]);
      assert [es[0]] + es[1..] == es;
      assert TableRun([Table(s)] + tables, es, Table(s), Table(Run(s, es)));
    }
  }

  /** Whoever asks gets the table's answer. */
  lemma GetReadsTheTable(s: Pool, r: nat)
    requires IsReachable(s) && r < |s.calls| && s.calls[r].pc.Got?
    ensures s.calls[r].t < |s.tickets|
    ensures Table(s)[s.calls[r].t].outcome == Some(s.calls[r].pc.v)
  {
    ReachableInv(s);
    assert CallOk(s, s.calls[r]);
  }

  // ------------------------------------------------------------------------
  // What stays

  /** What of a ticket never changes again, once it is there. */
  ghost predicate Stays(k: Ticket, k': Ticket) {
    && k'.fn == k.fn && k'.args == k.args
    && (k.resolved ==> k'.resolved && k'.value == k.value)
    && (k.headRead.Some? ==> k'.headRead == k.headRead)
    && (k.headRead == None && k'.headRead.Some? ==> |k.chain| <= k'.headRead.value)
    && (k.place != Unqueued ==> k'.place != Unqueued && (k'.place == Lost <==> k.place == Lost))
    && (k.place == Finished ==> k'.place == Finished && k'.headRead == k.headRead && k'.ran == k.ran)
    && |k.chain| <= |k'.chain| && k'.chain[..|k.chain|] == k.chain
  }

  ghost predicate AllStay(s: Pool, s': Pool) {
    |s.tickets| <= |s'.tickets| && forall t :: 0 <= t < |s.tickets| ==> Stays(s.tickets[t], s'.tickets[t])
  }

  lemma ClientStays(s: Pool, t: nat, wake: Option<nat>, s': Pool)
    requires Inv(s) && ClientReady(s, t, wake) && s' == ClientNext(s, t, wake)
    ensures AllStay(s, s')
  {}

  lemma PopStays(s: Pool, w: nat, s': Pool)
    requires QueueInv(s) && PopsOr(s, s', w)
    ensures AllStay(s, s')
  {
    if !MovesInPop(s, s', w) {
      assert PlaceIs(s, Reach(s.queue)[0], Queued);
    }
  }

  lemma WorkStays(s: Pool, w: nat, s': Pool, t: nat)
    requires CarryInv(s) && TicketInv(s) && WorkerReady(s, w) && s' == WorkerNext(s, w) && Works(s, s', w, t)
    ensures AllStay(s, s')
  {
    assert PlaceIs(s, t, Held(w)) && TicketOk(s, t);
    assert Stays(s.tickets[t], s'.tickets[t]);
  }

  lemma CallStays(s: Pool, r: nat, s': Pool, t: nat)
    requires Touches(s, s', r, t)
    ensures AllStay(s, s')
  {}

  lemma QuietStays(s: Pool, s': Pool)
    requires Quiet(s, s')
    ensures AllStay(s, s')
  {}

  lemma StepStays(s: Pool, e: Step, s': Pool)
    requires Inv(s) && Enabled(s, e) && s' == After(s, e)
    ensures AllStay(s, s')
  {
    match e
    case ClientGo(t, wake) => ClientStays(s, t, wake, s');
    case WorkerGo(w) =>
      if InQueuePop(s.workers[w]) {
        PopTouches(s, w, s');
        PopStays(s, w, s');
      } else {
        WorkTouches(s, w, s');
        WorkStays(s, w, s', Carries(s.workers[w]).value);
      }
    case CallGo(r) =>
      CallTouches(s, r, s');
      CallStays(s, r, s', s.calls[r].t);
    case _ =>
      WorldIsQuiet(s, e, s');
      QuietStays(s, s');
  }

  lemma {:induction false} RunStays(s: Pool, es: seq<Step>)
    requires Inv(s) && Feasible(s, es)
    ensures AllStay(s, Run(s, es))
    decreases |es|
  {
    if es != [] {
      var s' := After(s, es[0]);
      StepKeepsInv(s, es[0], s');
      StepStays(s, es[0], s');
      RunStays(s', es[1..]);
      var z := Run(s', es[1..]);
      forall t | 0 <= t < |s.tickets| ensures Stays(s.tickets[t], z.tickets[t]) {
        assert Stays(s.tickets[t], s'.tickets[t]) && Stays(s'.tickets[t], z.tickets[t]);
        assert z.tickets[t].chain[..|s.tickets[t].chain|] == s'.tickets[t].chain[..|s.tickets[t].chain|];
      }
    }
  }

  /**
   The enqueue decides a ticket's fate for good: in every continuation it is missing
   exactly if the queue was Detached at that moment, and then its future stays
   unresolved and no future_get on it ever returns.
   */
  lemma EnqueueDecides(s: Pool, t: nat, wake: Option<nat>, es: seq<Step>)
    requires IsReachable(s) && ClientReady(s, t, wake) && s.tickets[t].client == InEnqueue
    requires Feasible(ClientNext(s, t, wake), es)
    ensures var z := Run(ClientNext(s, t, wake), es);
      && t < |z.tickets|
      && (t in Missing(z) <==> s.queue.Detached?)
      && (t in Missing(z) ==> !z.tickets[t].resolved)
      && (t in Missing(z) ==> forall r :: 0 <= r < |z.calls| && z.calls[r].t == t ==> !z.calls[r].pc.Got?)
  {
    ReachableInv(s);
    var s' := ClientNext(s, t, wake);
    StepKeepsInv(s, ClientGo(t, wake), s');
    RunKeepsInv(s', es);
    RunStays(s', es);
    var z := Run(s', es);
    assert Stays(s'.tickets[t], z.tickets[t]) && TicketOk(z, t);
    assert t in Missing(z) <==> PlaceIs(z, t, Lost);
    forall r | 0 <= r < |z.calls| && z.calls[r].t == t && t in Missing(z) ensures !z.calls[r].pc.Got? {
      assert CallOk(z, z.calls[r]);
    }
  }

  /** A promise that outlives its worker's walk is never freed; one that is freed stays the only one. */
  lemma PromiseFateIsSealed(s: Pool, t: nat, es: seq<Step>)
    requires IsReachable(s) && t < |s.tickets| && s.frees[Closure(t)] > 0 && Feasible(s, es)
    ensures Run(s, es).frees[Promise(t)] == s.frees[Promise(t)]
    ensures s.frees[Promise(t)] == 1 <==> s.tickets[t].headRead != Some(0)
  {
    ReachableInv(s);
    assert IsFreed(s, Closure(t));
    PromiseLifetime(s, t);
    RunKeepsInv(s, es);
    RunStays(s, es);
    var z := Run(s, es);
    assert Stays(s.tickets[t], z.tickets[t]);
    assert IsFreed(z, Promise(t)) <==> IsFreed(s, Promise(t));
  }
}
