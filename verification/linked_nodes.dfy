/** Singly linked nodes: numbered nodes in a heap for the step-level models, node objects for the imperative ones. */
module LinkedNodes {
  import opened Options

  /** `next` is a node's number, 0 the null pointer; a dummy node's data was never set. */
  datatype Node<T> = Node(data: Option<T>, next: nat)

  type Heap<T> = map<nat, Node<T>>

  /** Distinct nodes of the heap, each linked to the next, the last one to null. */
  ghost predicate IsChain<T>(heap: Heap<T>, ids: seq<nat>) {
    && (forall i :: 0 <= i < |ids| ==> ids[i] in heap)
    && (forall i, j :: 0 <= i < j < |ids| ==> ids[i] != ids[j])
    && (forall i :: 0 <= i < |ids| - 1 ==> heap[ids[i]].next == ids[i + 1])
    && (ids != [] ==> heap[ids[|ids| - 1]].next == 0)
  }

  /** The links behind the first node of a list do not depend on it. */
  lemma ChainTail<T>(heap: Heap<T>, ids: seq<nat>)
    requires IsChain(heap, ids) && ids != []
    ensures IsChain(heap - {ids[0]}, ids[1..]) && IsChain(heap, ids[1..])
  {
    var rest := ids[1..];
    assert forall i :: 0 <= i < |rest| ==> rest[i] == ids[i + 1];
  }

  /** Linking a new last node. */
  lemma ChainSnoc<T>(heap: Heap<T>, ids: seq<nat>, n: nat)
    requires IsChain(heap, ids) && ids != [] && n in heap && n !in ids && heap[n].next == 0
    ensures var last := ids[|ids| - 1]; IsChain(heap[last := heap[last].(next := n)], ids + [n])
  {
  }

  lemma ChainWithout<T>(heap: Heap<T>, ids: seq<nat>, n: nat)
    requires IsChain(heap, ids) && forall i :: 0 <= i < |ids| ==> ids[i] != n
    ensures IsChain(heap - {n}, ids)
  {
  }

  class ListNode<T(0)> {
    var data: T
    var next: ListNode?<T>

    constructor ()
      ensures next == null
    {
      next := null;
    }
  }

  /** Distinct node objects, each linked to the next, the last one to null. */
  ghost predicate AreLinked<T(0)>(nodes: seq<ListNode<T>>)
    reads nodes
  {
    && (forall i, j :: 0 <= i < j < |nodes| ==> nodes[i] != nodes[j])
    && (forall i :: 0 <= i < |nodes| - 1 ==> nodes[i].next == nodes[i + 1])
    && (nodes != [] ==> nodes[|nodes| - 1].next == null)
  }

  ghost function Data<T(0)>(nodes: seq<ListNode<T>>): (r: seq<T>)
    reads nodes
    ensures |r| == |nodes| && forall i :: 0 <= i < |r| ==> r[i] == nodes[i].data
  {
    seq(|nodes|, i requires 0 <= i < |nodes| reads nodes => nodes[i].data)
  }
}
