/**
 src/queue.c: the linked list itself.  Each method is the body of one critical
 section; the mutex and the condition variable are in PoolMachine.  No method reads
 `prev`: the code writes it and never looks at it.
 */
module WorkQueue {
  import opened Common
  import opened QueueModel

  class Item<T> {
    var next: Item?<T>
    var prev: Item?<T>
    const value: T   // written once, before the node can be seen

    constructor (value: T)
      ensures this.value == value && next == null
    {
      this.value := value;
      next, prev := null, null;
    }
  }

  ghost function Values<T>(nodes: seq<Item<T>>): seq<T> {
    seq(|nodes|, i requires 0 <= i < |nodes| => nodes[i].value)
  }

  /** What the two chains stand for. */
  ghost function ModelOf<T>(chain: seq<Item<T>>, strays: seq<Item<T>>, detached: bool): QueueState<T>
    requires detached ==> |chain| == 1
  {
    if detached then Detached(chain[0].value, Values(strays)) else Attached(Values(chain))
  }

  lemma AppendModel<T>(chain: seq<Item<T>>, strays: seq<Item<T>>, detached: bool, item: Item<T>)
    requires detached ==> |chain| == 1
    ensures var q := QueueModel.Enqueue(ModelOf(chain, strays, detached), item.value);
      && (detached ==> q == ModelOf(chain, strays + [item], true))
      && (!detached ==> q == ModelOf(chain + [item], strays, false))
  {}

  lemma TailModel<T>(variant: Variant, chain: seq<Item<T>>, strays: seq<Item<T>>, detached: bool)
    requires chain != [] && (detached ==> |chain| == 1)
    ensures var q := ModelOf(chain, strays, detached);
      && Reach(q) != [] && Reach(q)[0] == chain[0].value
      && QueueModel.Pop(variant, q)
         == ModelOf(chain[1..], [], !detached && variant == AsWritten && |chain| == 2)
  {}

  /** `nodes` is a list: linked both ways inside, ended by null. */
  ghost predicate IsChain<T>(nodes: seq<Item<T>>)
    reads nodes
  {
    IsLinked(nodes) && (nodes != [] ==> nodes[|nodes| - 1].next == null)
  }

  ghost predicate IsLinked<T>(nodes: seq<Item<T>>)
    reads nodes
  {
    && (forall i {:trigger nodes[i].next} :: 0 <= i < |nodes| - 1 ==> nodes[i].next == nodes[i + 1])
    && (forall i {:trigger nodes[i].prev} :: 0 < i < |nodes| ==> nodes[i].prev == nodes[i - 1])
  }

  lemma LinkedOnIsChain<T>(nodes: seq<Item<T>>, item: Item<T>)
    requires IsLinked(nodes) && item.next == null
    requires nodes != [] ==> nodes[|nodes| - 1].next == item && item.prev == nodes[|nodes| - 1]
    ensures IsChain(nodes + [item])
  {}

  /** So no node is in it twice. */
  lemma {:induction false} NodesAreDistinct<T>(nodes: seq<Item<T>>, i: nat, j: nat)
    requires IsChain(nodes) && i < j < |nodes|
    ensures nodes[i] != nodes[j]
    decreases |nodes| - j
  {
    assert nodes[i].next == nodes[i + 1];
    if j + 1 < |nodes| {
      assert nodes[j].next == nodes[j + 1];
      NodesAreDistinct(nodes, i + 1, j + 1);
    }
  }

  lemma TailIsChain<T>(nodes: seq<Item<T>>)
    requires IsChain(nodes) && nodes != []
    ensures IsChain(nodes[1..]) && nodes[0] !in nodes[1..]
    ensures nodes[0].next == if |nodes| > 1 then nodes[1] else null
  {
    var tail := nodes[1..];
    forall i | 0 <= i < |tail| ensures tail[i] != nodes[0] {
      NodesAreDistinct(nodes, 0, i + 1);
    }
    forall i | 0 <= i < |tail| - 1 ensures tail[i].next == tail[i + 1] {
      assert nodes[i + 1].next == nodes[i + 2];
    }
    forall i | 0 < i < |tail| ensures tail[i].prev == tail[i - 1] {
      assert nodes[i + 1].prev == nodes[i];
    }
  }

  lemma LastIsAlone<T>(nodes: seq<Item<T>>)
    requires IsChain(nodes) && nodes != []
    ensures forall i :: 0 <= i < |nodes| - 1 ==> nodes[i] != nodes[|nodes| - 1]
  {}

  /**
   Where head and tail point, given what hangs off them.  `prev` of the first item is null
   or still points to `taken`, the node that was the first before.
   */
  ghost predicate Shape<T>(
    head: Item?<T>, tail: Item?<T>, chain: seq<Item<T>>, strays: seq<Item<T>>, detached: bool, taken: Item?<T>)
    reads chain, strays
  {
    && IsChain(chain) && IsChain(strays)
    && (chain != [] ==> chain[0].prev == taken)
    && (strays != [] ==> strays[0].prev == null)
    && (taken != null ==> taken !in chain && taken !in strays)
    && head == (if chain == [] then null else chain[0])
    && (detached ==> |chain| == 1 && chain[0] !in strays)
    && (!detached ==> strays == [])
    && tail == (if detached
                then if strays == [] then null else strays[|strays| - 1]
                else if chain == [] then null else chain[|chain| - 1])
  }

  /** What is left of the shape when the head node is unlinked. */
  lemma TailShape<T>(
    head: Item<T>, tail: Item?<T>, chain: seq<Item<T>>, strays: seq<Item<T>>, detached: bool, taken: Item?<T>)
    requires Shape(head, tail, chain, strays, detached, taken)
    ensures |chain| > 0 && head == chain[0] && head !in chain[1..] && head !in strays
    ensures |chain| == 1 <==> head.next == null
    ensures head.next == null ==> Shape(null, null, chain[1..], [], false, head)
    ensures head.next != null ==>
      && !detached && head != tail
      && (head.next.next == null <==> |chain| == 2)
      && Shape(head.next, tail, chain[1..], strays, false, head)
      && (|chain| == 2 ==> Shape(head.next, null, chain[1..], [], true, head))
  {
    TailIsChain(chain);
    if |chain| > 1 {
      TailIsChain(chain[1..]);
    }
  }

  /** The shape after `item` was linked behind the node that tail pointed to, if any. */
  lemma AppendShape<T>(
    head: Item?<T>, tail: Item?<T>, chain: seq<Item<T>>, strays: seq<Item<T>>, detached: bool, taken: Item?<T>,
    item: Item<T>)
    requires head == (if chain == [] then null else chain[0])
    requires item.prev == tail && (taken != null ==> taken !in chain && taken !in strays && taken != item)
    requires chain != [] ==> chain[0].prev == taken
    requires detached ==>
      && IsChain(chain) && |chain| == 1 && chain[0] !in strays && chain[0] != item
      && IsChain(strays + [item]) && (if strays == [] then tail == null else strays[0].prev == null)
    requires !detached ==> IsChain(chain + [item]) && (chain == [] ==> tail == null)
    ensures detached ==> Shape(head, item, chain, strays + [item], true, taken)
    ensures !detached && head == null ==> Shape(item, item, chain + [item], [], false, null)
    ensures !detached && head != null ==> Shape(head, item, chain + [item], [], false, taken)
  {}

  // ------------------------------------------------------------------------
  // What queue_destroy does to the nodes

  datatype Access<T> = ReadNext(node: Item<T>) | FreeNode(node: Item<T>)

  function DrainTurn<T>(order: DrainOrder, node: Item<T>): seq<Access<T>> {
    if order == FreeThenRead then [FreeNode(node), ReadNext(node)] else [ReadNext(node), FreeNode(node)]
  }

  function DrainLog<T>(order: DrainOrder, nodes: seq<Item<T>>): seq<Access<T>> {
    if nodes == [] then [] else DrainTurn(order, nodes[0]) + DrainLog(order, nodes[1..])
  }

  lemma DrainLogStep<T>(order: DrainOrder, log: seq<Access<T>>, nodes: seq<Item<T>>, k: nat)
    requires k < |nodes|
    ensures log + DrainLog(order, nodes[k..]) == log + DrainTurn(order, nodes[k]) + DrainLog(order, nodes[k + 1..])
  {
    assert nodes[k..][1..] == nodes[k + 1..];
  }

  /** Some node is touched again after it was freed, or freed twice. */
  ghost predicate UsesFreed<T>(log: seq<Access<T>>) {
    exists i, j :: 0 <= i < j < |log| && log[i].FreeNode? && log[j].node == log[i].node
  }

  /** Every node of the list is freed and read in its turn, and no other access is in the log than these. */
  lemma {:induction false} DrainLogAt<T>(order: DrainOrder, nodes: seq<Item<T>>, k: nat)
    requires k < |nodes|
    ensures var log := DrainLog(order, nodes);
      && |log| == 2 * |nodes|
      && (order == FreeThenRead ==> log[2 * k] == FreeNode(nodes[k]) && log[2 * k + 1] == ReadNext(nodes[k]))
      && (order == ReadThenFree ==> log[2 * k] == ReadNext(nodes[k]) && log[2 * k + 1] == FreeNode(nodes[k]))
  {
    if |nodes| == 1 {
      assert DrainLog(order, nodes[1..]) == [];
    } else {
      DrainLogAt(order, nodes[1..], if k == 0 then 0 else k - 1);
    }
  }

  /** In either order nothing is freed twice, and no `next` is read twice. */
  lemma NothingTwice<T>(order: DrainOrder, nodes: seq<Item<T>>, i: nat, j: nat)
    requires IsChain(nodes) && i < j < |DrainLog(order, nodes)|
    ensures DrainLog(order, nodes)[i] != DrainLog(order, nodes)[j]
  {
    if nodes != [] {
      DrainLogAt(order, nodes, 0);
      DrainLogAt(order, nodes, i / 2);
      DrainLogAt(order, nodes, j / 2);
      if i / 2 < j / 2 {
        NodesAreDistinct(nodes, i / 2, j / 2);
      }
    }
  }

  /** Read first, no node is touched after its turn. */
  lemma FreeComesLast<T>(nodes: seq<Item<T>>, i: nat, j: nat)
    requires IsChain(nodes) && nodes != [] && i < j < |DrainLog(ReadThenFree, nodes)|
    requires DrainLog(ReadThenFree, nodes)[i].FreeNode?
    ensures DrainLog(ReadThenFree, nodes)[j].node != DrainLog(ReadThenFree, nodes)[i].node
  {
    var log := DrainLog(ReadThenFree, nodes);
    DrainLogAt(ReadThenFree, nodes, 0);
    var a, b := i / 2, j / 2;
    DrainLogAt(ReadThenFree, nodes, a);
    assert i == 2 * a + 1 && log[i] == FreeNode(nodes[a]);
    DrainLogAt(ReadThenFree, nodes, b);
    assert log[j].node == nodes[b];
    NodesAreDistinct(nodes, a, b);
  }

  /** The loop touches freed memory exactly if it is as written and the list is not empty. */
  lemma DrainUsesFreedExactly<T>(order: DrainOrder, nodes: seq<Item<T>>)
    requires IsChain(nodes)
    ensures UsesFreed(DrainLog(order, nodes)) <==> order == FreeThenRead && nodes != []
  {
    var log := DrainLog(order, nodes);
    if order == FreeThenRead && nodes != [] {
      DrainLogAt(order, nodes, 0);
      assert log[0].FreeNode? && log[1].node == log[0].node;
    } else if order == ReadThenFree && nodes != [] {
      DrainLogAt(order, nodes, 0);
      forall i, j | 0 <= i < j < |log| && log[i].FreeNode? ensures log[j].node != log[i].node {
        FreeComesLast(nodes, i, j);
      }
    }
  }

  /** The first half of queue_enqueue: the pointers between the new item and the one tail points to. */
  method LinkBehind<T>(tail: Item?<T>, item: Item<T>, ghost list: seq<Item<T>>)
    requires IsChain(list) && item !in list
    requires tail == if list == [] then null else list[|list| - 1]
    modifies item, tail
    ensures IsChain(list + [item]) && item.prev == tail
    ensures forall n :: n in list ==> n.prev == old(n.prev)
  {
    if list != [] {
      LastIsAlone(list);
    }
    item.next := null;
    item.prev := tail;
    if tail != null {
      tail.next := item;
    }
    LinkedOnIsChain(list, item);
  }

  class Queue<T> {
    var head: Item?<T>
    var tail: Item?<T>

    ghost var chain: seq<Item<T>>    // what `next` reaches from head
    ghost var strays: seq<Item<T>>   // what hangs off tail only
    ghost var detached: bool
    ghost var taken: Item?<T>        // where `prev` of the first item points: the node taken last, if any

    ghost predicate Valid()
      reads this, chain, strays
    {
      Shape(head, tail, chain, strays, detached, taken)
    }

    ghost function Model(): QueueState<T>
      requires Valid()
      reads this, chain, strays
    {
      ModelOf(chain, strays, detached)
    }

    /** Following `next` from head walks down `chain`, never twice through a node. */
    lemma {:induction false} NextReachesOnlyChain(path: seq<Item<T>>)
      requires Valid()
      requires path != [] ==> path[0] == head
      requires forall i :: 0 < i < |path| ==> path[i - 1].next == path[i]
      ensures path <= chain
    {
      if |path| > 1 {
        var n := |path| - 1;
        NextReachesOnlyChain(path[..n]);
        assert path[..n][n - 1] == chain[n - 1] && path[n] == path[n - 1].next;
        assert n < |chain| ==> chain[n - 1].next == chain[n];
      }
    }

    /** queue_new */
    constructor ()
      ensures Valid() && Model() == Attached([])
    {
      head, tail := null, null;
      chain, strays, detached, taken := [], [], false, null;
    }

    /** queue_enqueue */
    method Enqueue(value: T)
      requires Valid()
      modifies this, tail
      ensures Valid()
      ensures Model() == QueueModel.Enqueue(old(Model()), value)
      ensures tail != null && fresh(tail) && tail.value == value
      ensures old(detached) ==> chain == old(chain) && strays == old(strays) + [tail]
      ensures !old(detached) ==> chain == old(chain) + [tail]
    {
      var item := new Item(value);
      ghost var after := QueueModel.Enqueue(Model(), value);
      AppendModel(chain, strays, detached, item);
      assert after
        == if detached then ModelOf(chain, strays + [item], true) else ModelOf(chain + [item], strays, false);
      LinkBehind(tail, item, if detached then strays else chain);
      AppendShape(head, tail, chain, strays, detached, taken, item);
      if head == null {
        head := item;
      }
      tail := item;
      if detached {
        strays := strays + [item];
      } else {
        chain, taken := chain + [item], if head == item then null else taken;
      }
      assert Model() == after;
    }

    /**
     The queue has no pointer to node n but one: `prev` of its first item, if there is
     one, which queue_pop does not clear and nothing ever reads.
     */
    ghost predicate OnlyPrevOfHeadRefers(n: Item<T>)
      reads this, chain, strays
    {
      && n != head && n != tail
      && forall m :: m in chain + strays ==> m != n && m.next != n && (m.prev == n <==> m == head)
    }

    /**
     queue_pop from the end of its wait loop to the end of its critical section.  The
     queue never again follows a pointer to the item taken, so its owner may read and
     free it without the lock.
     */
    method Unlink(variant: Variant) returns (item: Item<T>)
      requires Valid() && head != null
      modifies this
      ensures Valid() && Model() == QueueModel.Pop(variant, old(Model()))
      ensures old(chain) == [item] + chain && OnlyPrevOfHeadRefers(item)
    {
      item := head;
      ghost var rest := chain[1..];
      TailShape(head, tail, chain, strays, detached, taken);
      TailModel(variant, chain, strays, detached);
      assert chain == [item] + rest;
      taken := item;
      if item.next == null {
        tail := null;
        head := null;
        chain, strays, detached := rest, [], false;
      } else {
        head := item.next;
        chain := rest;
        if variant == AsWritten && head.next == null {
          tail := null;
          detached := true;
        }
      }
    }

    /** queue_pop; None stands for the wait, which changes nothing. */
    method Pop(variant: Variant) returns (value: Option<T>, released: seq<Item<T>>)
      requires Valid()
      modifies this
      ensures Valid()
      ensures Reach(old(Model())) == [] ==>
        value == None && released == [] && Model() == old(Model())
      ensures Reach(old(Model())) != [] ==>
        && value == Some(Reach(old(Model()))[0])
        && Model() == QueueModel.Pop(variant, old(Model()))
        && old(chain) == released + chain
      ensures forall n :: n in released ==> OnlyPrevOfHeadRefers(n)
    {
      if head == null {
        return None, [];
      }
      TailModel(variant, chain, strays, detached);
      var item := Unlink(variant);
      value, released := Some(item.value), [item];
    }

    /** queue_destroy: what it does to the nodes, in order. */
    method Destroy(order: DrainOrder) returns (log: seq<Access<T>>)
      requires Valid()
      ensures log == DrainLog(order, chain)
    {
      log := [];
      var node := head;
      ghost var k: nat := 0;
      while node != null
        invariant k <= |chain| && node == (if k < |chain| then chain[k] else null)
        invariant log + DrainLog(order, chain[k..]) == DrainLog(order, chain)
        decreases |chain| - k
      {
        ghost var before := log;
        DrainLogStep(order, log, chain, k);
        assert node.next == if k + 1 < |chain| then chain[k + 1] else null;
        if order == FreeThenRead {
          log := log + [FreeNode(node)];
          log := log + [ReadNext(node)];
          node := node.next;
        } else {
          var next := node.next;
          log := log + [ReadNext(node)];
          log := log + [FreeNode(node)];
          node := next;
        }
        assert log == before + DrainTurn(order, chain[k]);
        k := k + 1;
      }
    }
  }
}
