/** Every step keeps shutdown in order, and frees only what is its to free. */
module ShutdownSteps {
  import opened Common
  import opened QueueModel
  import opened PoolMachine
  import opened PoolInvariant
  import opened StepFrames

  lemma ClientKeepsOrder(s: Pool, t: nat, wake: Option<nat>, s': Pool)
    requires DestroyInv(s) && ClientReady(s, t, wake) && s' == ClientNext(s, t, wake)
    ensures DestroyInv(s')
  {}

  lemma PopKeepsOrder(s: Pool, w: nat, s': Pool)
    requires DestroyInv(s) && PopsOr(s, s', w)
    ensures DestroyInv(s')
  {}

  lemma WorkKeepsOrder(s: Pool, w: nat, s': Pool, t: nat)
    requires DestroyInv(s) && Works(s, s', w, t)
    ensures DestroyInv(s')
  {}

  lemma CallKeepsOrder(s: Pool, r: nat, s': Pool, t: nat)
    requires DestroyInv(s) && Touches(s, s', r, t)
    ensures DestroyInv(s')
  {}

  lemma DestroyKeepsOrder(s: Pool, s': Pool)
    requires DestroyInv(s) && DestroyReady(s) && s' == DestroyNext(s)
    ensures DestroyInv(s')
  {}

  lemma CancelKeepsOrder(s: Pool, w: nat, heir: Option<nat>, s': Pool)
    requires DestroyInv(s) && CancelReady(s, w, heir) && s' == CancelNext(s, w, heir)
    ensures DestroyInv(s')
  {}

  lemma WorldKeepsOrder(s: Pool, e: Step, s': Pool)
    requires DestroyInv(s) && Enabled(s, e) && Worldly(e) && s' == After(s, e)
    ensures DestroyInv(s')
  {
    match e
    case DestroyGo => DestroyKeepsOrder(s, s');
    case Cancel(w, heir) => CancelKeepsOrder(s, w, heir, s');
    case _ =>
  }

  /** The step frees `freed`, which was not freed before, and nothing else changes hands. */
  lemma FreesKept(s: Pool, s': Pool, freed: multiset<Obj>)
    requires FreeInv(s) && s'.frees == s.frees + freed
    requires forall o :: o in freed ==> freed[o] == 1 && !IsFreed(s, o) && IsFreed(s', o)
    requires forall o :: o !in freed ==> (IsFreed(s', o) <==> IsFreed(s, o))
    ensures FreeInv(s')
  {}

  lemma FreedElsewhere(s: Pool, s': Pool, t: nat)
    requires CarryInv(s) && OthersSame(s, s', t) && s'.destroyer == s.destroyer
    requires s'.queue == s.queue || Drained(s) == Drained(s') == 0
    ensures forall o :: o != ItemNode(t) && o != Closure(t) && o != Promise(t) ==> (IsFreed(s', o) <==> IsFreed(s, o))
  {}

  lemma ClientKeepsFrees(s: Pool, t: nat, wake: Option<nat>, s': Pool)
    requires QueueInv(s) && CarryInv(s) && DestroyInv(s) && FreeInv(s)
    requires ClientReady(s, t, wake) && s' == ClientNext(s, t, wake)
    ensures FreeInv(s')
  {
    assert s.tickets[t].client == InEnqueue ==> PlaceIs(s, t, Unqueued);
    FreedElsewhere(s, s', t);
    assert IsFreed(s', ItemNode(t)) <==> IsFreed(s, ItemNode(t));
    FreesKept(s, s', multiset{});
  }

  lemma TakeKeepsFrees(s: Pool, w: nat, s': Pool, t: nat)
    requires QueueInv(s) && CarryInv(s) && FreeInv(s) && Takes(s, s', w, t) && Drained(s) == Drained(s') == 0
    ensures FreeInv(s')
  {
    assert t in Reach(s.queue) && PlaceIs(s, t, Queued);
    FreedElsewhere(s, s', t);
    assert !IsFreed(s', ItemNode(t)) && !IsFreed(s, ItemNode(t));
    FreesKept(s, s', multiset{});
  }

  lemma MoveKeepsFrees(s: Pool, w: nat, s': Pool)
    requires CarryInv(s) && FreeInv(s) && MovesInPop(s, s', w)
    ensures FreeInv(s')
  {}

  lemma PopKeepsFrees(s: Pool, w: nat, s': Pool)
    requires QueueInv(s) && CarryInv(s) && DestroyInv(s) && FreeInv(s) && PopsOr(s, s', w)
    ensures FreeInv(s')
  {
    assert s.workers[w] != Dead && w < JoinedFrom(s);
    if MovesInPop(s, s', w) {
      MoveKeepsFrees(s, w, s');
    } else {
      TakeKeepsFrees(s, w, s', Reach(s.queue)[0]);
    }
  }

  /** Of the ticket it carries, the worker frees what FreedBy says, when it was still whole. */
  lemma WorkFrees(s: Pool, w: nat, s': Pool, t: nat)
    requires CarryInv(s) && TicketInv(s)
    requires WorkerReady(s, w) && !InQueuePop(s.workers[w]) && s' == WorkerNext(s, w)
    requires Carries(s.workers[w]) == Some(t)
    ensures forall o :: o in FreedBy(s, w) ==> !IsFreed(s, o) && FreedBy(s, w)[o] == 1
    ensures forall o :: o in {ItemNode(t), Closure(t), Promise(t)} ==>
      (IsFreed(s', o) <==> IsFreed(s, o) || o in FreedBy(s, w))
    ensures forall o :: o in FreedBy(s, w) ==> o in {ItemNode(t), Closure(t), Promise(t)}
  {
    assert PlaceIs(s, t, Held(w)) && TicketOk(s, t);
    if s.workers[w].InWalk? {
      DownMembers(s.tickets[t].headRead.value, s.workers[w].k, 0);
    }
  }

  lemma WorkKeepsFrees(s: Pool, w: nat, s': Pool, t: nat)
    requires CarryInv(s) && TicketInv(s) && FreeInv(s) && Works(s, s', w, t)
    requires WorkerReady(s, w) && s' == WorkerNext(s, w)
    ensures FreeInv(s')
  {
    FreedElsewhere(s, s', t);
    WorkFrees(s, w, s', t);
    FreesKept(s, s', FreedBy(s, w));
  }

  lemma CallKeepsFrees(s: Pool, r: nat, s': Pool, t: nat)
    requires CarryInv(s) && FreeInv(s) && Touches(s, s', r, t)
    ensures FreeInv(s')
  {}

  lemma JoinKeepsFrees(s: Pool, k: nat, s': Pool)
    requires DestroyInv(s) && FreeInv(s)
    requires s.destroyer == AtJoin(k) && DestroyReady(s) && s' == DestroyNext(s)
    ensures FreeInv(s')
  {}

  lemma DrainKeepsFrees(s: Pool, k: nat, s': Pool)
    requires QueueInv(s) && FreeInv(s)
    requires s.destroyer == Draining(k) && k < |Reach(s.queue)| && s' == DestroyNext(s)
    ensures FreeInv(s')
  {
    var q := Reach(s.queue);
    assert PlaceIs(s, q[k], Queued);
    assert q[..k + 1] == q[..k] + [q[k]];
    FreesKept(s, s', multiset{ItemNode(q[k])});
  }

  lemma DestroyKeepsFrees(s: Pool, s': Pool)
    requires QueueInv(s) && DestroyInv(s) && FreeInv(s)
    requires DestroyReady(s) && s' == DestroyNext(s)
    ensures FreeInv(s')
  {
    match s.destroyer
    case AtCancel(_) =>
    case AtJoin(k) => JoinKeepsFrees(s, k, s');
    case Draining(k) =>
      if k < |Reach(s.queue)| {
        DrainKeepsFrees(s, k, s');
      } else {
        FreesKept(s, s', multiset{WorkQueue});
      }
  }

  lemma IdleKeepsFrees(s: Pool, s': Pool)
    requires CarryInv(s) && FreeInv(s) && Quiet(s, s') && s'.frees == s.frees
    requires s'.destroyer == s.destroyer || (s.destroyer == NotStarted && s'.destroyer == AtCancel(|s.workers|))
    ensures FreeInv(s')
  {}

  lemma WorldKeepsFrees(s: Pool, e: Step, s': Pool)
    requires QueueInv(s) && CarryInv(s) && DestroyInv(s) && FreeInv(s)
    requires Enabled(s, e) && Worldly(e) && s' == After(s, e) && Quiet(s, s')
    ensures FreeInv(s')
  {
    if e.DestroyGo? {
      DestroyKeepsFrees(s, s');
    } else {
      IdleKeepsFrees(s, s');
    }
  }
}
