/**
 src/future_pool.c, src/executor.c: the objects of the pool, used by one thread at a
 time.  What happens when threads interleave is PoolMachine.
 */
module FuturePools {
  import opened Common
  import opened WorkQueue
  import opened QueueModel
  import opened Futures
  import FutureModel

  /** closure_t */
  class Closure {
    const promise: Promise
    const fn: Value -> Value
    const args: Value

    constructor (promise: Promise, fn: Value -> Value, args: Value)
      ensures this.promise == promise && this.fn == fn && this.args == args
    {
      this.promise, this.fn, this.args := promise, fn, args;
    }

    /** src/executor.c:53-54 */
    method Finish()
      requires promise.future.Valid() && promise.future.CanWalk()
      modifies promise.future
      ensures promise.future.Valid()
      ensures promise.future.Model()
        == FutureModel.Perform(old(promise.future.Model()), FutureModel.DoFulfil(fn(args)))
    {
      var value := fn(args);
      promise.Fulfil(value);
    }
  }

  /** The address of a promise; malloc never gives null. */
  const PROMISE_ADDRESS: Value := 1

  /** cleanup_execute with the promise as its args: it links nothing. */
  const CLEANUP := FutureModel.Hook(0, PROMISE_ADDRESS, [])

  /** What future_pool_destroy does to the threads and objects of the pool, in order. */
  datatype Event = Cancel(thread: nat) | Join(thread: nat) | FreeExecutor(thread: nat) | FreeQueue | FreePool

  class Executor {
    const thread: nat
    var next: Executor?

    /** executor_new; threads are numbered in the order of their creation. */
    constructor (thread: nat)
      ensures this.thread == thread && next == null
    {
      this.thread := thread;
      next := null;
    }

    /**
     One turn of the loop of executor_thread.  None is the turn that blocks in queue_pop;
     otherwise the closure taken is the one that was next, and its own future, and no
     other, is fulfilled with its own fn of its own args.
     */
    method Turn(variant: Variant, queue: Queue<Closure>) returns (done: Option<Closure>)
      requires queue.Valid()
      requires NextUp(queue).Some? ==>
        NextUp(queue).value.promise.future.Valid() && NextUp(queue).value.promise.future.CanWalk()
      modifies queue, if NextUp(queue).Some? then {NextUp(queue).value.promise.future} else {}
      ensures queue.Valid() && done == old(NextUp(queue))
      ensures queue.Model() == if done == None then old(queue.Model()) else Pop(variant, old(queue.Model()))
      ensures done.Some? ==>
        var c := done.value;
        && c.promise.future.Valid()
        && c.promise.future.Model()
           == FutureModel.Perform(old(c.promise.future.Model()), FutureModel.DoFulfil(c.fn(c.args)))
    {
      var released;
      done, released := queue.Pop(variant);
      if done.Some? {
        label popped:
        done.value.Finish();
        assert queue.Valid() && queue.Model() == old@popped(queue.Model());
      }
    }
  }

  /** The closure that a pop would take. */
  ghost function NextUp(queue: Queue<Closure>): Option<Closure>
    requires queue.Valid()
    reads queue, queue.chain, queue.strays
  {
    if Reach(queue.Model()) == [] then None else Some(Reach(queue.Model())[0])
  }

  /** The events for threads n - 1 down to 0, then for the queue and the pool. */
  function Teardown(n: nat): seq<Event> {
    if n == 0 then [FreeQueue, FreePool]
    else [Cancel(n - 1), Join(n - 1), FreeExecutor(n - 1)] + Teardown(n - 1)
  }

  /**
   Each thread is cancelled, then joined, then freed; later threads go first, the queue
   after all of them; and those are all the events, so nothing happens twice.
   */
  lemma {:induction false} TeardownInOrder(n: nat, k: nat)
    requires k < n
    ensures var events := Teardown(n); var at := 3 * (n - 1 - k);
      && |events| == 3 * n + 2
      && events[at] == Cancel(k) && events[at + 1] == Join(k) && events[at + 2] == FreeExecutor(k)
      && events[3 * n] == FreeQueue && events[3 * n + 1] == FreePool
    decreases n
  {
    if n > 1 {
      TeardownInOrder(n - 1, if k < n - 1 then k else 0);
    }
  }

  /** Executor i of a list, or null past its end. */
  ghost function At(list: seq<Executor>, i: nat): Executor? {
    if i < |list| then list[i] else null
  }

  class FuturePool {
    const workQueue: Queue<Closure>
    var executors: Executor?

    ghost var list: seq<Executor>

    /** The list runs from the executor made last to the one made first. */
    ghost predicate Valid()
      reads this, list
    {
      && executors == At(list, 0)
      && (forall i :: 0 <= i < |list| ==> list[i].thread == |list| - 1 - i)
      && (forall i {:trigger list[i].next} :: 0 <= i < |list| ==> list[i].next == At(list, i + 1))
    }

    lemma ExecutorsAreDistinct()
      requires Valid()
      ensures forall i, j :: 0 <= i < j < |list| ==> list[i] != list[j]
    {}

    /** future_pool_new */
    constructor (threads: nat)
      requires threads > 0
      ensures Valid() && |list| == threads
      ensures fresh(workQueue) && workQueue.Valid() && workQueue.Model() == Attached([])
    {
      workQueue := new Queue<Closure>();
      executors := null;
      list := [];
      new;
      for i := 0 to threads
        invariant Valid() && |list| == i
        invariant forall e :: e in list ==> fresh(e)
        invariant workQueue.Valid() && workQueue.Model() == Attached([])
      {
        var next := new Executor(i);
        next.next := executors;
        executors := next;
        list := [next] + list;
      }
    }

    /** future_pool_execute */
    method Execute(fn: Value -> Value, args: Value) returns (future: Future, ghost closure: Closure)
      requires workQueue.Valid()
      modifies workQueue, workQueue.tail
      ensures workQueue.Valid() && workQueue.Model() == Enqueue(old(workQueue.Model()), closure)
      ensures fresh(closure) && closure.fn == fn && closure.args == args && closure.promise.future == future
      ensures fresh(future) && future.Valid() && future.CanWalk()
      ensures future.Model() == FutureModel.Perform(FutureModel.New(), FutureModel.DoLink(CLEANUP))
    {
      var promise := new Promise();
      future := promise.future;
      var c := new Closure(promise, fn, args);
      closure := c;
      workQueue.Enqueue(c);
      label enqueued:
      future.AddCallback(CLEANUP);
      assert workQueue.Valid() && workQueue.Model() == old@enqueued(workQueue.Model());
    }

    /** future_pool_destroy: `next` is read before the executor is freed. */
    method Destroy(order: DrainOrder) returns (events: seq<Event>, log: seq<Access<Closure>>)
      requires Valid() && workQueue.Valid()
      ensures events == Teardown(|list|)
      ensures log == DrainLog(order, workQueue.chain)
    {
      events := [];
      var next := executors;
      ghost var gone: nat := 0;
      while next != null
        invariant gone <= |list| && next == At(list, gone)
        invariant events + Teardown(|list| - gone) == Teardown(|list|)
        decreases |list| - gone
      {
        var tofree := next;
        next := next.next;
        events := events + [Cancel(tofree.thread), Join(tofree.thread), FreeExecutor(tofree.thread)];
        gone := gone + 1;
      }
      log := workQueue.Destroy(order);
      events := events + [FreeQueue, FreePool];
    }
  }

  /**
   future_pool_execute on an idle pool, one turn of one of its threads, then future_get,
   as in the self test: the answer is fn(args).
   */
  method ExecuteTurnGet(pool: FuturePool, executor: Executor, variant: Variant, fn: Value -> Value, args: Value)
    returns (answer: FutureModel.Answer)
    requires pool.workQueue.Valid() && pool.workQueue.Model() == Attached([])
    modifies pool.workQueue, pool.workQueue.tail
    ensures answer == FutureModel.Returns(fn(args))
  {
    var future, closure := pool.Execute(fn, args);
    ghost var linked := future.Model();
    var done := executor.Turn(variant, pool.workQueue);
    FutureModel.WalkVisitsEachOnce(
      linked.(value := fn(args), fulfilled := true, resolved := true), |linked.chain|);
    answer := future.Get();
  }
}
