/** src/future.c and src/promise.c: the objects, and that they do what FutureModel says. */
module Futures {
  import opened Common
  import opened FutureModel

  /** callback_t; the function and its args are one Hook. */
  class Callback {
    const hook: Hook
    var next: Callback?

    /** callback_new */
    constructor (hook: Hook)
      ensures this.hook == hook && next == null
    {
      this.hook := hook;
      next := null;
    }
  }

  ghost function Hooks(nodes: seq<Callback>): seq<Hook> {
    seq(|nodes|, i requires 0 <= i < |nodes| => nodes[i].hook)
  }

  /** The list `after` is `before` with nothing but newer nodes added. */
  ghost predicate Extends(after: seq<Callback>, before: seq<Callback>) {
    |before| <= |after| && after[..|before|] == before
  }

  lemma ExtendsAt(after: seq<Callback>, before: seq<Callback>, i: nat)
    requires Extends(after, before) && i < |before|
    ensures after[i] == before[i]
  {}

  /** The node linked just before node i. */
  ghost function Older(nodes: seq<Callback>, i: nat): Callback?
    requires i <= |nodes|
  {
    if i == 0 then null else nodes[i - 1]
  }

  class Future {
    var isResolved: bool
    var isFulfilled: bool
    var rejectedRc: int
    var value: Value
    var callbacks: Callback?      // newest

    ghost var chain: seq<Callback>   // oldest first
    ghost var visits: seq<Visit>

    ghost predicate Valid()
      reads this, chain
    {
      && (forall i {:trigger chain[i].next} :: 0 <= i < |chain| ==> chain[i].next == Older(chain, i))
      && callbacks == Older(chain, |chain|)
    }

    /** callback_execute asserts this of every callback it is called on (src/future.c:95). */
    ghost predicate CanWalk()
      reads this
    {
      forall i :: 0 <= i < |chain| ==> chain[i].hook.args != NULL
    }

    ghost function Model(): FutureState
      reads this
    {
      FutureState(isResolved, isFulfilled, rejectedRc, value, Hooks(chain), visits)
    }

    /** So the list has no cycle. */
    lemma {:induction false} NodesAreDistinct(i: nat, j: nat)
      requires Valid() && i < j < |chain|
      ensures chain[i] != chain[j]
    {
      assert chain[i].next == Older(chain, i) && chain[j].next == Older(chain, j);
      if i > 0 {
        NodesAreDistinct(i - 1, j - 1);
      }
    }

    /** future_new */
    constructor ()
      ensures Valid() && Model() == New() && chain == [] && CanWalk()
    {
      value, callbacks, rejectedRc := NULL, null, 0;
      isResolved, isFulfilled := false, false;
      chain, visits := [], [];
    }

    /** future_add_callback; old nodes stay where they are. */
    method AddCallback(hook: Hook)
      requires Valid()
      modifies this`callbacks, this`chain
      ensures Valid() && Model() == Perform(old(Model()), DoLink(hook))
      ensures Extends(chain, old(chain)) && Hooks(chain) == Hooks(old(chain)) + [hook]
      ensures CanWalk() <==> old(CanWalk()) && hook.args != NULL
    {
      var link := new Callback(hook);
      link.next := callbacks;
      callbacks := link;
      ghost var before := chain;
      chain := chain + [link];
      assert Hooks(chain) == Hooks(before) + [hook];
    }

    /** What a callback does to its future. */
    method AddCallbacks(hooks: seq<Hook>)
      requires Valid()
      modifies this`callbacks, this`chain
      ensures Valid() && Extends(chain, old(chain))
      ensures Model() == old(Model()).(chain := old(Model()).chain + hooks)
    {
      ghost var before := Hooks(chain);
      for i := 0 to |hooks|
        invariant Valid() && Extends(chain, old(chain))
        invariant Hooks(chain) == before + hooks[..i]
      {
        ghost var sofar := Hooks(chain);
        AddCallback(hooks[i]);
        assert sofar + [hooks[i]] == before + hooks[..i + 1];
      }
      assert before + hooks[..|hooks|] == before + hooks;
    }

    /** callback_execute: the callback looks at the future and links what it links. */
    method Execute(callback: Callback, ghost node: nat)
      requires Valid() && node < |chain| && chain[node] == callback && callback.hook.args != NULL
      modifies this`callbacks, this`chain, this`visits
      ensures Valid() && Model() == FutureModel.Execute(old(Model()), node)
      ensures Extends(chain, old(chain))
    {
      visits := visits + [Visit(node, isResolved)];
      AddCallbacks(callback.hook.links);
    }

    /** future_execute_callbacks */
    method ExecuteCallbacks()
      requires Valid() && CanWalk() && isResolved
      modifies this`callbacks, this`chain, this`visits
      ensures Valid() && Model() == Walk(old(Model()), |old(chain)|)
    {
      var callback := callbacks;
      ghost var nodes, start := chain, Model();
      ghost var k: nat := |chain|;
      while callback != null
        invariant Valid() && k <= |nodes| && Extends(chain, nodes)
        invariant callback == Older(nodes, k)
        invariant Walk(Model(), k) == Walk(start, |nodes|)
        decreases k
      {
        ExtendsAt(chain, nodes, k - 1);
        Execute(callback, k - 1);
        ExtendsAt(chain, nodes, k - 1);
        assert callback.next == Older(chain, k - 1);
        if k > 1 {
          ExtendsAt(chain, nodes, k - 2);
        }
        callback := callback.next;
        k := k - 1;
      }
      assert k == 0 && Walk(Model(), 0) == Model();
    }

    /** future_set_value */
    method SetValue(v: Value)
      requires Valid() && CanWalk()
      modifies this
      ensures Valid() && Model() == Perform(old(Model()), DoFulfil(v))
    {
      value := v;
      isFulfilled := true;
      isResolved := true;
      ExecuteCallbacks();
    }

    /** future_set_rejected */
    method SetRejected(rc: int)
      requires Valid() && CanWalk()
      modifies this
      ensures Valid() && Model() == Perform(old(Model()), DoReject(rc))
    {
      rejectedRc := rc;
      isResolved := true;
      ExecuteCallbacks();
    }

    /** future_get */
    method Get() returns (answer: Answer)
      ensures answer == FutureModel.Get(Model())
    {
      if !isResolved {
        return Blocks;
      }
      if !isFulfilled {
        return Aborts;
      }
      answer := Returns(value);
    }
  }

  class Promise {
    const future: Future   // not owned

    /** promise_new */
    constructor ()
      ensures fresh(future) && future.Valid() && future.Model() == New() && future.CanWalk()
    {
      future := new Future();
    }

    /** promise_fulfill */
    method Fulfil(v: Value)
      requires future.Valid() && future.CanWalk()
      modifies future
      ensures future.Valid() && future.Model() == Perform(old(future.Model()), DoFulfil(v))
    {
      future.SetValue(v);
    }

    /** promise_reject */
    method Reject(rc: int)
      requires future.Valid() && future.CanWalk()
      modifies future
      ensures future.Valid() && future.Model() == Perform(old(future.Model()), DoReject(rc))
    {
      future.SetRejected(rc);
    }
  }
}
