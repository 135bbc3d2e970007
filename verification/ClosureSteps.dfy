/** Every step keeps each closure in exactly one place, and its future as far along as its closure. */
module ClosureSteps {
  import opened Common
  import opened QueueModel
  import opened PoolMachine
  import opened PoolInvariant
  import opened StepFrames

  // ------------------------------------------------------------------------
  // The queue and the tickets' places agree

  ghost predicate SamePlaces(s: Pool, s': Pool) {
    && s'.variant == s.variant && s'.queue == s.queue && s'.dropped == s.dropped
    && |s'.tickets| == |s.tickets|
    && forall t :: 0 <= t < |s.tickets| ==>
         && s'.tickets[t].place == s.tickets[t].place
         && (s'.tickets[t].client in {AtEnqueueLock, InEnqueue} <==> s.tickets[t].client in {AtEnqueueLock, InEnqueue})
  }

  lemma SamePlacesKeepQueue(s: Pool, s': Pool)
    requires QueueInv(s) && SamePlaces(s, s')
    ensures QueueInv(s')
  {}

  lemma EnqueueKeepsQueue(s: Pool, t: nat, wake: Option<nat>, s': Pool)
    requires QueueInv(s) && ClientReady(s, t, wake) && s.tickets[t].client == InEnqueue
    requires s' == ClientNext(s, t, wake)
    ensures QueueInv(s')
  {
    assert PlaceIs(s, t, Unqueued);
    assert forall u: nat, p: Place :: u != t ==> (PlaceIs(s', u, p) <==> PlaceIs(s, u, p));
    assert t !in Reach(s.queue) && t !in Missing(s);
    if s.queue.Detached? {
      assert Missing(s') == Missing(s) + [t];
    } else {
      assert Reach(s'.queue) == Reach(s.queue) + [t];
    }
  }

  lemma ClientKeepsQueue(s: Pool, t: nat, wake: Option<nat>, s': Pool)
    requires QueueInv(s) && ClientReady(s, t, wake) && s' == ClientNext(s, t, wake)
    ensures QueueInv(s')
  {
    if s.tickets[t].client == InEnqueue {
      EnqueueKeepsQueue(s, t, wake, s');
    } else {
      SamePlacesKeepQueue(s, s');
    }
  }

  lemma TakeKeepsQueue(s: Pool, w: nat, s': Pool, t: nat)
    requires QueueInv(s) && Takes(s, s', w, t)
    ensures QueueInv(s')
  {
    assert t in Reach(s.queue) && PlaceIs(s, t, Queued);
    assert forall u: nat, p: Place :: u != t ==> (PlaceIs(s', u, p) <==> PlaceIs(s, u, p));
    var q, q' := Reach(s.queue), Reach(s'.queue);
    assert q[0] == t;
    assert forall i :: 0 <= i < |q'| ==> q'[i] == q[i + 1] && q[0] != q[i + 1];
    assert t !in q';
  }

  lemma PopKeepsQueue(s: Pool, w: nat, s': Pool)
    requires QueueInv(s) && PopsOr(s, s', w)
    ensures QueueInv(s')
  {
    if MovesInPop(s, s', w) {
      SamePlacesKeepQueue(s, s');
    } else {
      TakeKeepsQueue(s, w, s', Reach(s.queue)[0]);
    }
  }

  lemma WorkKeepsQueue(s: Pool, w: nat, s': Pool, t: nat)
    requires QueueInv(s) && CarryInv(s) && Works(s, s', w, t)
    ensures QueueInv(s')
  {}

  lemma WorldKeepsQueue(s: Pool, s': Pool)
    requires QueueInv(s) && Quiet(s, s')
    ensures QueueInv(s')
  {}

  // ------------------------------------------------------------------------
  // A worker carries exactly the tickets held by it

  ghost predicate SameCarries(s: Pool, s': Pool) {
    && |s'.workers| == |s.workers| && |s.tickets| <= |s'.tickets|
    && (forall w :: 0 <= w < |s.workers| ==> Carries(s'.workers[w]) == Carries(s.workers[w]))
    && (forall t :: 0 <= t < |s.tickets| ==>
          s'.tickets[t].place == s.tickets[t].place || !(s'.tickets[t].place.Held? || s.tickets[t].place.Held?))
    && (forall t :: |s.tickets| <= t < |s'.tickets| ==> !s'.tickets[t].place.Held?)
  }

  lemma SameCarriesKeepCarry(s: Pool, s': Pool)
    requires CarryInv(s) && SameCarries(s, s')
    ensures CarryInv(s')
  {}

  lemma ClientKeepsCarry(s: Pool, t: nat, wake: Option<nat>, s': Pool)
    requires QueueInv(s) && CarryInv(s) && ClientReady(s, t, wake) && s' == ClientNext(s, t, wake)
    ensures CarryInv(s')
  {
    assert s.tickets[t].client == InEnqueue ==> PlaceIs(s, t, Unqueued);
    SameCarriesKeepCarry(s, s');
  }

  lemma PopKeepsCarry(s: Pool, w: nat, s': Pool)
    requires QueueInv(s) && CarryInv(s) && PopsOr(s, s', w)
    ensures CarryInv(s')
  {
    if MovesInPop(s, s', w) {
      SameCarriesKeepCarry(s, s');
    } else {
      assert PlaceIs(s, Reach(s.queue)[0], Queued);
    }
  }

  lemma WorkKeepsCarry(s: Pool, w: nat, s': Pool, t: nat)
    requires CarryInv(s) && Works(s, s', w, t)
    ensures CarryInv(s')
  {}

  lemma CallKeepsCarry(s: Pool, r: nat, s': Pool, t: nat)
    requires CarryInv(s) && Touches(s, s', r, t)
    ensures CarryInv(s')
  {}

  lemma WorldKeepsCarry(s: Pool, s': Pool)
    requires CarryInv(s) && Quiet(s, s')
    ensures CarryInv(s')
  {}

  // ------------------------------------------------------------------------
  // Each future is as far along as its closure

  lemma OthersStayOk(s: Pool, s': Pool, t: nat)
    requires CarryInv(s) && TicketInv(s) && OthersSame(s, s', t)
    requires t < |s.tickets| ==> TicketOk(s', t)
    ensures TicketInv(s')
  {
    forall u | 0 <= u < |s'.tickets| && u != t ensures TicketOk(s', u) {
      assert TicketOk(s, u);
    }
  }

  lemma ClientKeepsTickets(s: Pool, t: nat, wake: Option<nat>, s': Pool)
    requires QueueInv(s) && CarryInv(s) && TicketInv(s) && ClientReady(s, t, wake) && s' == ClientNext(s, t, wake)
    ensures TicketInv(s')
  {
    assert TicketOk(s, t);
    assert s.tickets[t].client == InEnqueue ==> PlaceIs(s, t, Unqueued);
    OthersStayOk(s, s', t);
  }

  lemma PopKeepsTickets(s: Pool, w: nat, s': Pool)
    requires QueueInv(s) && CarryInv(s) && TicketInv(s) && PopsOr(s, s', w)
    ensures TicketInv(s')
  {
    var held := Carries(s'.workers[w]);
    if held.Some? {
      var t := held.value;
      assert PlaceIs(s, t, Queued) || PlaceIs(s, t, Held(w));
      assert TicketOk(s, t);
      OthersStayOk(s, s', t);
    } else {
      OthersStayOk(s, s', |s.tickets|);
    }
  }

  /** One step of work keeps the future in step with the program counter. */
  lemma WorkKeepsStage(s: Pool, w: nat, s': Pool, t: nat)
    requires WorkerReady(s, w) && !InQueuePop(s.workers[w]) && s' == WorkerNext(s, w)
    requires Carries(s.workers[w]) == Some(t) && PlaceIs(s, t, Held(w)) && TicketOk(s, t)
    ensures TicketOk(s', t)
  {}

  lemma WorkKeepsTickets(s: Pool, w: nat, s': Pool, t: nat)
    requires CarryInv(s) && TicketInv(s) && Works(s, s', w, t)
    requires TicketOk(s', t)
    ensures TicketInv(s')
  {
    OthersStayOk(s, s', t);
  }

  lemma CallKeepsTickets(s: Pool, r: nat, s': Pool, t: nat)
    requires CarryInv(s) && TicketInv(s) && CallInv(s) && Touches(s, s', r, t)
    ensures TicketInv(s')
  {
    assert TicketOk(s, t) && CallOk(s, s.calls[r]);
    assert ChainOk(s'.tickets[t]);
    assert TicketOk(s', t);
    OthersStayOk(s, s', t);
  }

  lemma WorldKeepsTickets(s: Pool, s': Pool)
    requires TicketInv(s) && Quiet(s, s')
    ensures TicketInv(s')
  {
    forall t | 0 <= t < |s'.tickets| ensures TicketOk(s', t) {
      if t < |s.tickets| {
        assert TicketOk(s, t);
      }
    }
  }
}
