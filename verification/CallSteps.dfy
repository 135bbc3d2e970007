/** Every step keeps sleepers wakeable and answers right. */
module CallSteps {
  import opened Common
  import opened QueueModel
  import opened PoolMachine
  import opened PoolInvariant
  import opened StepFrames

  ghost predicate FuturePersists(s: Pool, s': Pool, t: nat)
    requires t < |s.tickets| && t < |s'.tickets|
  {
    var k, k' := s.tickets[t], s'.tickets[t];
    && (k.client == Returned ==> k'.client == Returned)
    && (k.resolved ==> k'.resolved && k'.value == k.value)
  }

  /** What a call relies on, for tickets other than t in full, for t apart from the right to sleep. */
  ghost predicate Persists(s: Pool, s': Pool, t: nat) {
    && |s.tickets| <= |s'.tickets|
    && (forall u :: 0 <= u < |s.tickets| ==> FuturePersists(s, s', u))
    && (forall u :: 0 <= u < |s.tickets| && u != t && MaySleep(s, u) ==> MaySleep(s', u))
  }

  ghost predicate SameOrRoused(s: Pool, s': Pool) {
    && |s'.calls| == |s.calls|
    && forall r :: 0 <= r < |s.calls| ==>
         s'.calls[r] == s.calls[r] || (s.calls[r].pc == Asleep && s'.calls[r] == s.calls[r].(pc := Roused))
  }

  lemma PersistsKeepsCalls(s: Pool, s': Pool, t: nat)
    requires CallInv(s) && Persists(s, s', t) && SameOrRoused(s, s')
    requires t < |s.tickets| ==>
      || (MaySleep(s, t) ==> MaySleep(s', t))
      || forall r :: 0 <= r < |s'.calls| && s'.calls[r].t == t ==> s'.calls[r].pc != Asleep
    ensures CallInv(s')
  {
    forall r | 0 <= r < |s'.calls| ensures CallOk(s', s'.calls[r]) {
      assert CallOk(s, s.calls[r]);
      assert FuturePersists(s, s', s.calls[r].t);
      assert s.calls[r].pc == Asleep ==> MaySleep(s, s.calls[r].t);
    }
  }

  lemma ClientKeepsCalls(s: Pool, t: nat, wake: Option<nat>, s': Pool)
    requires QueueInv(s) && TicketInv(s) && CallInv(s) && ClientReady(s, t, wake) && s' == ClientNext(s, t, wake)
    ensures CallInv(s')
  {}

  lemma PopKeepsCalls(s: Pool, w: nat, s': Pool)
    requires QueueInv(s) && TicketInv(s) && CallInv(s) && PopsOr(s, s', w)
    ensures CallInv(s')
  {
    if !MovesInPop(s, s', w) {
      var t := Reach(s.queue)[0];
      assert PlaceIs(s, t, Queued) && TicketOk(s, t);
    }
    PersistsKeepsCalls(s, s', |s.tickets|);
  }

  lemma WorkPersists(s: Pool, w: nat, s': Pool, t: nat)
    requires CarryInv(s) && TicketInv(s) && Works(s, s', w, t)
    requires WorkerReady(s, w) && s' == WorkerNext(s, w)
    ensures Persists(s, s', t)
    ensures s.workers[w] != InBroadcast(t) && MaySleep(s, t) ==> MaySleep(s', t)
  {
    assert PlaceIs(s, t, Held(w)) && TicketOk(s, t);
  }

  lemma WorkKeepsCalls(s: Pool, w: nat, s': Pool, t: nat)
    requires CarryInv(s) && TicketInv(s) && CallInv(s) && Works(s, s', w, t)
    requires WorkerReady(s, w) && s' == WorkerNext(s, w)
    ensures CallInv(s')
  {
    WorkPersists(s, w, s', t);
    PersistsKeepsCalls(s, s', t);
  }

  lemma CallKeepsCalls(s: Pool, r: nat, s': Pool, t: nat)
    requires CallInv(s) && CallReady(s, r) && s' == CallNext(s, r) && Touches(s, s', r, t)
    ensures CallInv(s')
  {}

  lemma WorldKeepsCalls(s: Pool, s': Pool)
    requires CallInv(s) && Quiet(s, s')
    requires forall r :: |s.calls| <= r < |s'.calls| ==>
      && s'.calls[r].t < |s.tickets| && s.tickets[s'.calls[r].t].client == Returned
      && Fits(s'.calls[r].request, s'.calls[r].pc)
    ensures CallInv(s')
  {}
}
