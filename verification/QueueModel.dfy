/**
 The work queue of src/queue.c seen from outside its pointers.

 queue_pop clears `tail` whenever one item is left (src/queue.c:139-140), so the
 queue has two modes: Attached, where `tail` ends the chain that starts at `head`
 (or both are null), and Detached, where one item is left, and everything enqueued
 since hangs off `tail` only.  Repaired is the same code without those two lines.
 */
module QueueModel {

  datatype Variant = AsWritten | Repaired

  /**
   How queue_destroy goes down the list: as written it frees a node and then reads its
   `next` (src/queue.c:85-86); repaired, it reads `next` first.
   */
  datatype DrainOrder = FreeThenRead | ReadThenFree

  datatype QueueState<T> = Attached(items: seq<T>) | Detached(last: T, lost: seq<T>)

  /** The items a pop can still find, in pop order. */
  function Reach<T>(q: QueueState<T>): seq<T> {
    match q
    case Attached(items) => items
    case Detached(last, _) => [last]
  }

  /** The items that hang off `tail` only. */
  function Stray<T>(q: QueueState<T>): seq<T> {
    match q
    case Attached(_) => []
    case Detached(_, lost) => lost
  }

  function Enqueue<T>(q: QueueState<T>, x: T): QueueState<T> {
    match q
    case Attached(items) => Attached(items + [x])
    case Detached(last, lost) => Detached(last, lost + [x])
  }

  function Pop<T>(variant: Variant, q: QueueState<T>): QueueState<T>
    requires Reach(q) != []
  {
    match q
    case Attached(items) =>
      if variant == AsWritten && |items| == 2 then Detached(items[1], []) else Attached(items[1..])
    case Detached(_, _) => Attached([])
  }

  // ------------------------------------------------------------------------
  // Whole runs

  /** One call that completed.  A pop that finds nothing blocks and changes nothing. */
  datatype Op<T> = DoEnqueue(x: T) | DoPop

  datatype History<T> = History(queue: QueueState<T>, popped: seq<T>, dropped: seq<T>)

  function Perform<T>(variant: Variant, h: History<T>, op: Op<T>): History<T> {
    match op
    case DoEnqueue(x) => h.(queue := Enqueue(h.queue, x))
    case DoPop =>
      if Reach(h.queue) == [] then h
      else History(Pop(variant, h.queue), h.popped + [Reach(h.queue)[0]], h.dropped + Stray(h.queue))
  }

  function Play<T>(variant: Variant, ops: seq<Op<T>>): History<T> {
    if ops == [] then History(Attached([]), [], [])
    else Perform(variant, Play(variant, ops[..|ops| - 1]), ops[|ops| - 1])
  }

  function Added<T>(op: Op<T>): seq<T> {
    if op.DoEnqueue? then [op.x] else []
  }

  function Enqueued<T>(ops: seq<Op<T>>): seq<T> {
    if ops == [] then [] else Enqueued(ops[..|ops| - 1]) + Added(ops[|ops| - 1])
  }

  /** Did the last pop of the run find exactly two items, and so leave one? */
  predicate LastPopLeftOne<T>(variant: Variant, ops: seq<Op<T>>) {
    if ops == [] then false
    else if ops[|ops| - 1].DoPop? then |Reach(Play(variant, ops[..|ops| - 1]).queue)| == 2
    else LastPopLeftOne(variant, ops[..|ops| - 1])
  }

  /** The enqueued values, restricted to the calls made with LastPopLeftOne equal to `late`. */
  function EnqueuedWhen<T>(variant: Variant, late: bool, ops: seq<Op<T>>): seq<T> {
    if ops == [] then []
    else
      var before := ops[..|ops| - 1];
      EnqueuedWhen(variant, late, before)
      + if LastPopLeftOne(variant, before) == late then Added(ops[|ops| - 1]) else []
  }

  /** Each element of `part` at its own place in `whole`, in the same order. */
  ghost predicate EmbedsAt<T>(part: seq<T>, whole: seq<T>, at: seq<nat>) {
    && |at| == |part|
    && (forall i :: 0 <= i < |at| ==> at[i] < |whole| && whole[at[i]] == part[i])
    && (forall i, j :: 0 <= i < j < |at| ==> at[i] < at[j])
  }

  ghost predicate IsSubsequence<T>(part: seq<T>, whole: seq<T>) {
    exists at: seq<nat> :: EmbedsAt(part, whole, at)
  }

  /** The mode is visible from the sizes alone. */
  lemma {:induction false} DetachedMeansLastPopLeftOne<T>(ops: seq<Op<T>>)
    ensures Play(AsWritten, ops).queue.Detached? <==> LastPopLeftOne(AsWritten, ops)
  {
    if ops != [] {
      DetachedMeansLastPopLeftOne(ops[..|ops| - 1]);
    }
  }

  /**
   The exact behaviour of the code as written: what is popped and what is still
   reachable is, in order, what was enqueued in Attached mode; what was dropped and
   what still hangs off `tail` is, in order, the rest.
   */
  lemma {:induction false} ExactHistory<T>(ops: seq<Op<T>>)
    ensures var h := Play(AsWritten, ops);
      && h.popped + Reach(h.queue) == EnqueuedWhen(AsWritten, false, ops)
      && h.dropped + Stray(h.queue) == EnqueuedWhen(AsWritten, true, ops)
  {
    if ops != [] {
      var before := ops[..|ops| - 1];
      ExactHistory(before);
      DetachedMeansLastPopLeftOne(before);
      var h, h' := Play(AsWritten, before), Play(AsWritten, ops);
      match ops[|ops| - 1] {
        case DoEnqueue(x) =>
          assert h'.popped + Reach(h'.queue)
              == if h.queue.Attached? then (h.popped + Reach(h.queue)) + [x] else h.popped + Reach(h.queue);
          assert h'.dropped + Stray(h'.queue)
              == if h.queue.Attached? then h.dropped + Stray(h.queue) else (h.dropped + Stray(h.queue)) + [x];
        case DoPop =>
          assert h'.popped + Reach(h'.queue) == h.popped + Reach(h.queue);
          assert h'.dropped + Stray(h'.queue) == h.dropped + Stray(h.queue);
      }
    }
  }

  lemma {:induction false} EnqueuedSplits<T>(variant: Variant, ops: seq<Op<T>>)
    ensures multiset(Enqueued(ops))
         == multiset(EnqueuedWhen(variant, false, ops)) + multiset(EnqueuedWhen(variant, true, ops))
  {
    if ops != [] {
      EnqueuedSplits(variant, ops[..|ops| - 1]);
    }
  }

  lemma {:induction false} NoneMissedMeansAllKept<T>(variant: Variant, ops: seq<Op<T>>)
    requires EnqueuedWhen(variant, true, ops) == []
    ensures EnqueuedWhen(variant, false, ops) == Enqueued(ops)
  {
    if ops != [] {
      NoneMissedMeansAllKept(variant, ops[..|ops| - 1]);
    }
  }

  lemma EmbedsLonger<T>(part: seq<T>, whole: seq<T>, at: seq<nat>, more: seq<T>, x: T)
    requires EmbedsAt(part, whole, at)
    ensures EmbedsAt(part, whole + more, at)
    ensures EmbedsAt(part + [x], whole + [x], at + [|whole|])
  {}

  lemma {:induction false} KeptInOrder<T>(variant: Variant, ops: seq<Op<T>>)
    ensures IsSubsequence(EnqueuedWhen(variant, false, ops), Enqueued(ops))
  {
    if ops == [] {
      assert EmbedsAt(EnqueuedWhen(variant, false, ops), Enqueued(ops), []);
    } else {
      var before, op := ops[..|ops| - 1], ops[|ops| - 1];
      KeptInOrder(variant, before);
      var kept, all := EnqueuedWhen(variant, false, before), Enqueued(before);
      var at: seq<nat> :| EmbedsAt(kept, all, at);
      if op.DoEnqueue? && !LastPopLeftOne(variant, before) {
        EmbedsLonger(kept, all, at, [], op.x);
        assert EmbedsAt(EnqueuedWhen(variant, false, ops), Enqueued(ops), at + [|all|]);
      } else {
        assert EnqueuedWhen(variant, false, ops) == kept;
        if op.DoEnqueue? {
          EmbedsLonger(kept, all, at, [op.x], op.x);
        }
        assert EmbedsAt(EnqueuedWhen(variant, false, ops), Enqueued(ops), at);
      }
    }
  }

  /** Nothing is invented, duplicated or lost from the account. */
  lemma NothingInvented<T>(ops: seq<Op<T>>)
    ensures var h := Play(AsWritten, ops);
      multiset(Enqueued(ops))
      == multiset(h.popped) + multiset(Reach(h.queue)) + multiset(h.dropped) + multiset(Stray(h.queue))
  {
    var h := Play(AsWritten, ops);
    ExactHistory(ops);
    EnqueuedSplits(AsWritten, ops);
    assert multiset(h.popped + Reach(h.queue)) == multiset(h.popped) + multiset(Reach(h.queue));
    assert multiset(h.dropped + Stray(h.queue)) == multiset(h.dropped) + multiset(Stray(h.queue));
  }

  /** Nothing is reordered: what comes out is a subsequence of what went in. */
  lemma NothingReordered<T>(ops: seq<Op<T>>)
    ensures IsSubsequence(Play(AsWritten, ops).popped, Enqueued(ops))
  {
    var h := Play(AsWritten, ops);
    ExactHistory(ops);
    KeptInOrder(AsWritten, ops);
    var kept, all := EnqueuedWhen(AsWritten, false, ops), Enqueued(ops);
    var at: seq<nat> :| EmbedsAt(kept, all, at);
    assert h.popped == kept[..|h.popped|];
    assert EmbedsAt(h.popped, all, at[..|h.popped|]);
  }

  ghost predicate NoLateEnqueue<T>(ops: seq<Op<T>>) {
    forall i :: 0 <= i < |ops| && ops[i].DoEnqueue? ==> !LastPopLeftOne(AsWritten, ops[..i])
  }

  lemma NoLateEnqueueStep<T>(ops: seq<Op<T>>, op: Op<T>)
    ensures NoLateEnqueue(ops + [op])
       <==> NoLateEnqueue(ops) && !(op.DoEnqueue? && LastPopLeftOne(AsWritten, ops))
  {
    var n, all := |ops|, ops + [op];
    assert all[..n] == ops && all[n] == op;
    assert forall i :: 0 <= i < n ==> all[..i] == ops[..i] && all[i] == ops[i];
    if NoLateEnqueue(all) {
      assert forall i :: 0 <= i < n && ops[i].DoEnqueue? ==> all[i].DoEnqueue?;
    }
  }

  lemma {:induction false} NoLateEnqueueMeansNoneMissed<T>(ops: seq<Op<T>>)
    ensures NoLateEnqueue(ops) <==> EnqueuedWhen(AsWritten, true, ops) == []
  {
    if ops != [] {
      var before := ops[..|ops| - 1];
      NoLateEnqueueMeansNoneMissed(before);
      NoLateEnqueueStep(before, ops[|ops| - 1]);
      assert before + [ops[|ops| - 1]] == ops;
    }
  }

  /**
   The code as written is a FIFO queue on a run exactly when no enqueue of the run
   came while the last pop had left a single item.
   */
  lemma FifoExactlyWhenNoLateEnqueue<T>(ops: seq<Op<T>>)
    ensures var h := Play(AsWritten, ops);
      h.popped + Reach(h.queue) == Enqueued(ops) <==> NoLateEnqueue(ops)
  {
    ExactHistory(ops);
    EnqueuedSplits(AsWritten, ops);
    NoLateEnqueueMeansNoneMissed(ops);
    var kept, missed := EnqueuedWhen(AsWritten, false, ops), EnqueuedWhen(AsWritten, true, ops);
    if missed == [] {
      NoneMissedMeansAllKept(AsWritten, ops);
    }
    assert |multiset(Enqueued(ops))| == |multiset(kept)| + |multiset(missed)|;
    assert |Enqueued(ops)| == |kept| + |missed|;
  }

  /** Five calls after which the third value enqueued is gone for good. */
  lemma FifoFails<T>(a: T, b: T, c: T)
    ensures Play(AsWritten, [DoEnqueue(a), DoEnqueue(b), DoPop, DoEnqueue(c), DoPop])
         == History(Attached([]), [a, b], [c])
  {
    var ops := [DoEnqueue(a), DoEnqueue(b), DoPop, DoEnqueue(c), DoPop];
    assert Play(AsWritten, ops[..0]) == History(Attached([]), [], []);
    assert ops[..1][..0] == ops[..0] && Play(AsWritten, ops[..1]).queue == Attached([a]);
    assert ops[..2][..1] == ops[..1] && Play(AsWritten, ops[..2]).queue == Attached([a, b]);
    assert ops[..3][..2] == ops[..2] && Play(AsWritten, ops[..3]) == History(Detached(b, []), [a], []);
    assert ops[..4][..3] == ops[..3] && [] + [c] == [c];
    assert Play(AsWritten, ops[..4]) == History(Detached(b, [c]), [a], []);
    assert ops[..5] == ops && ops[..5][..4] == ops[..4];
  }

  /** Without src/queue.c:139-140 the queue is FIFO on every run, and drops nothing. */
  lemma {:induction false} RepairedIsFifo<T>(ops: seq<Op<T>>)
    ensures var h := Play(Repaired, ops);
      && h.queue.Attached? && h.dropped == []
      && h.popped + Reach(h.queue) == Enqueued(ops)
  {
    if ops != [] {
      var before := ops[..|ops| - 1];
      RepairedIsFifo(before);
      var h, h' := Play(Repaired, before), Play(Repaired, ops);
      match ops[|ops| - 1] {
        case DoEnqueue(x) =>
          assert h'.popped + Reach(h'.queue) == (h.popped + Reach(h.queue)) + [x];
        case DoPop =>
          assert h'.popped + Reach(h'.queue) == h.popped + Reach(h.queue);
      }
    }
  }
}
