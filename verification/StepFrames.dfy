/** What each kind of step can touch, so that the proofs need not look at the whole machine. */
module StepFrames {
  import opened Common
  import opened QueueModel
  import opened PoolMachine
  import opened PoolInvariant

  /** Only ticket t changes, and of the workers that carry a ticket only the one that carries t. */
  ghost predicate OthersSame(s: Pool, s': Pool, t: nat) {
    && |s'.workers| == |s.workers| && |s'.tickets| == |s.tickets|
    && (forall w :: 0 <= w < |s.workers| && Carries(s.workers[w]).Some? && Carries(s.workers[w]) != Some(t) ==>
          s'.workers[w] == s.workers[w])
    && (forall u :: 0 <= u < |s.tickets| && u != t ==> s'.tickets[u] == s.tickets[u])
  }

  // ------------------------------------------------------------------------
  // A worker inside queue_pop

  /** It takes the first item of the queue ... */
  ghost predicate Takes(s: Pool, s': Pool, w: nat, t: nat) {
    && w < |s.workers| && t < |s.tickets| && s.workers[w].InPop?
    && Reach(s.queue) == [t] + Reach(s'.queue) && Missing(s') == Missing(s)
    && (s.variant == Repaired && s.queue.Attached? ==> s'.queue.Attached? && s'.dropped == s.dropped)
    && s' == s.(
         workers := s.workers[w := AtPopUnlock(t)],
         tickets := s.tickets[t := s.tickets[t].(place := Held(w))],
         queue := s'.queue, dropped := s'.dropped)
  }

  /** ... or goes on without taking anything. */
  ghost predicate MovesInPop(s: Pool, s': Pool, w: nat) {
    && w < |s.workers| && |s'.workers| == |s.workers|
    && s' == s.(workers := s.workers[w := s'.workers[w]], mutex := s'.mutex)
    && var pc' := s'.workers[w];
       match s.workers[w]
       case AtPopLock => pc' == InPop(false)
       case Woken(signalled) => pc' == InPop(signalled)
       case InPop(_) => pc' == Blocked && Reach(s.queue) == []
       case AtPopUnlock(t) => pc' == AtRun(t)
       case CancelWoken => pc' == CancelUnlock
       case CancelUnlock => pc' == Dead
       case _ => false
  }

  ghost predicate PopsOr(s: Pool, s': Pool, w: nat) {
    MovesInPop(s, s', w) || (Reach(s.queue) != [] && Takes(s, s', w, Reach(s.queue)[0]))
  }

  lemma PopTouches(s: Pool, w: nat, s': Pool)
    requires WorkerReady(s, w) && InQueuePop(s.workers[w]) && s' == PopNext(s, w)
    ensures PopsOr(s, s', w)
  {}

  // ------------------------------------------------------------------------
  // A worker with a ticket

  ghost predicate Works(s: Pool, s': Pool, w: nat, t: nat) {
    && w < |s.workers| && t < |s.tickets| && Carries(s.workers[w]) == Some(t) && !s.workers[w].AtPopUnlock?
    && |s'.workers| == |s.workers| && |s'.tickets| == |s.tickets|
    && s' == s.(
         workers := s.workers[w := s'.workers[w]], tickets := s.tickets[t := s'.tickets[t]],
         calls := s'.calls, frees := s'.frees)
    && var pc', k, k' := s'.workers[w], s.tickets[t], s'.tickets[t];
       && k'.fn == k.fn && k'.args == k.args && k'.client == k.client && k'.chain == k.chain
       && if s.workers[w] == InWalk(t, 0) then pc' == AtPopLock && k'.place == Finished
          else Carries(pc') == Some(t) && !pc'.AtPopUnlock? && k'.place == k.place
  }

  lemma WorkTouches(s: Pool, w: nat, s': Pool)
    requires WorkerReady(s, w) && !InQueuePop(s.workers[w]) && s' == WorkerNext(s, w)
    ensures Works(s, s', w, Carries(s.workers[w]).value)
  {}

  // ------------------------------------------------------------------------
  // A call

  /** It takes or leaves the mutex of its future, or links a callback to it. */
  ghost predicate Touches(s: Pool, s': Pool, r: nat, t: nat) {
    && r < |s.calls| && s.calls[r].t == t && t < |s.tickets|
    && |s'.calls| == |s.calls| && |s'.tickets| == |s.tickets|
    && s' == s.(calls := s.calls[r := s'.calls[r]], tickets := s.tickets[t := s'.tickets[t]])
    && s'.calls[r].t == t && s'.calls[r].request == s.calls[r].request
    && var k, k' := s.tickets[t], s'.tickets[t];
       && k' == k.(mutex := k'.mutex, chain := k'.chain)
       && (if s.calls[r].pc == InAdd then
             && s.calls[r].request.Add? && s'.calls[r].pc == AtAddUnlock
             && k'.chain == k.chain + [User(s.calls[r].request.id)]
           else k'.chain == k.chain && (s'.calls[r].pc.AtAddUnlock? ==> s.calls[r].pc.AtAddUnlock?))
  }

  lemma CallTouches(s: Pool, r: nat, s': Pool)
    requires CallReady(s, r) && s' == CallNext(s, r)
    ensures Touches(s, s', r, s.calls[r].t)
  {}

  // ------------------------------------------------------------------------
  // Everything else

  ghost predicate Worldly(e: Step) {
    !e.ClientGo? && !e.WorkerGo? && !e.CallGo?
  }

  /** At most a ticket is added, a call is added or roused, a sleeping or woken worker is woken or cancelled. */
  ghost predicate Quiet(s: Pool, s': Pool) {
    && s'.variant == s.variant && s'.queue == s.queue && s'.dropped == s.dropped && s'.mutex == s.mutex
    && (s'.tickets == s.tickets
        || exists fn: Value -> Value, args: Value :: s'.tickets == s.tickets + [NewTicket(fn, args)])
    && |s'.workers| == |s.workers|
    && (forall w :: 0 <= w < |s.workers| ==>
          || s'.workers[w] == s.workers[w]
          || ((s.workers[w].Blocked? || s.workers[w].Woken?) && (s'.workers[w].Woken? || s'.workers[w].CancelWoken?)))
    && |s.calls| <= |s'.calls|
    && (forall r :: 0 <= r < |s.calls| ==>
          s'.calls[r] == s.calls[r] || (s.calls[r].pc == Asleep && s'.calls[r] == s.calls[r].(pc := Roused)))
    && (forall r :: |s.calls| <= r < |s'.calls| ==> s'.calls[r].pc.AtWaitLock? || s'.calls[r].pc.AtAddLock?)
  }

  lemma WorldIsQuiet(s: Pool, e: Step, s': Pool)
    requires Enabled(s, e) && Worldly(e) && s' == After(s, e)
    ensures Quiet(s, s')
  {}
}
