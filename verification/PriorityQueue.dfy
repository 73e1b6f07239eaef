/** `asyncio.PriorityQueue`: a binary heap kept in a list, as `heapq` does it. */
module PriorityQueues {
  import opened Estimator

  /** Items compare by priority alone; ties come out in no particular order. */
  datatype Item = Item(priority: nat, ticket: string, complexity: Complexity, index: nat)

  function Parent(i: nat): nat
    requires i >= 1
  {
    (i - 1) / 2
  }

  predicate OrderedAt(h: seq<Item>, i: nat)
    requires 1 <= i < |h|
  {
    h[Parent(i)].priority <= h[i].priority
  }

  ghost predicate IsHeap(h: seq<Item>) {
    forall i: nat :: 1 <= i < |h| ==> OrderedAt(h, i)
  }

  /** A heap but for the edge above p; what hangs below p is not smaller than p's parent. */
  ghost predicate HeapButAbove(h: seq<Item>, p: nat) {
    && p < |h|
    && (forall i: nat :: 1 <= i < |h| && i != p ==> OrderedAt(h, i))
    && (forall i: nat :: 1 <= i < |h| && Parent(i) == p && p >= 1 ==> h[Parent(p)].priority <= h[i].priority)
  }

  /** A heap but for the edges above and below p. */
  ghost predicate HeapButAround(h: seq<Item>, p: nat) {
    && p < |h|
    && (forall i: nat :: 1 <= i < |h| && i != p && Parent(i) != p ==> OrderedAt(h, i))
    && (forall i: nat :: 1 <= i < |h| && Parent(i) == p && p >= 1 ==> h[Parent(p)].priority <= h[i].priority)
  }

  function Swap(h: seq<Item>, i: nat, j: nat): (r: seq<Item>)
    requires i < |h| && j < |h|
    ensures |r| == |h| && multiset(r) == multiset(h)
  {
    h[i := h[j]][j := h[i]]
  }

  lemma RootIsLeast(h: seq<Item>, i: nat)
    requires IsHeap(h) && i < |h|
    ensures h[0].priority <= h[i].priority
  {
    if i >= 1 {
      RootIsLeast(h, Parent(i));
      assert OrderedAt(h, i);
    }
  }

  /** Moving a smaller item up past its parent. */
  lemma RiseStep(h: seq<Item>, p: nat)
    requires HeapButAbove(h, p) && p >= 1 && h[p].priority < h[Parent(p)].priority
    ensures HeapButAbove(Swap(h, p, Parent(p)), Parent(p))
  {
    var q := Parent(p);
    var r := Swap(h, p, q);
    forall i: nat | 1 <= i < |r| && i != q
      ensures OrderedAt(r, i)
    {
      if i != p {
        assert OrderedAt(h, i);
      }
    }
    forall i: nat | 1 <= i < |r| && Parent(i) == q && q >= 1
      ensures r[Parent(q)].priority <= r[i].priority
    {
      assert OrderedAt(h, q);
      if i != p {
        assert OrderedAt(h, i);
      }
    }
  }

  /** Moving the parent down into the hole at p, seen with the item in the hole, is a swap. */
  lemma HoleRises(heap: seq<Item>, p: nat, newItem: Item)
    requires 1 <= p < |heap|
    ensures Swap(heap[p := newItem], p, Parent(p)) == heap[p := heap[Parent(p)]][Parent(p) := newItem]
  {
  }

  /** An item that is not smaller than its parent is in its place. */
  lemma RestedIsHeap(h: seq<Item>, p: nat)
    requires HeapButAbove(h, p) && (p >= 1 ==> h[Parent(p)].priority <= h[p].priority)
    ensures IsHeap(h)
  {
    assert p >= 1 ==> OrderedAt(h, p);
  }

  /** Moving the smaller child c of p up into p's place. */
  lemma SinkStep(h: seq<Item>, p: nat, c: nat)
    requires HeapButAround(h, p) && 1 <= c < |h| && Parent(c) == p
    requires forall i: nat :: 1 <= i < |h| && Parent(i) == p ==> h[c].priority <= h[i].priority
    ensures HeapButAround(Swap(h, p, c), c)
  {
    var r := Swap(h, p, c);
    forall i: nat | 1 <= i < |r| && i != c && Parent(i) != c
      ensures OrderedAt(r, i)
    {
      if i != p && Parent(i) != p {
        assert OrderedAt(h, i);
      }
    }
    forall i: nat | 1 <= i < |r| && Parent(i) == c
      ensures r[p].priority <= r[i].priority
    {
      assert OrderedAt(h, i);
    }
  }

  /** The smaller of p's children, the right one if they are equal. */
  function SmallerChild(h: seq<Item>, p: nat): (c: nat)
    requires 2 * p + 1 < |h|
    ensures c < |h| && c >= 1 && Parent(c) == p && c != p
  {
    var left, right := 2 * p + 1, 2 * p + 2;
    if right < |h| && !(h[left].priority < h[right].priority) then right else left
  }

  lemma SmallestChildSinks(whole: seq<Item>, heap: seq<Item>, p: nat, c: nat)
    requires HeapButAround(whole, p) && |heap| == |whole| && 2 * p + 1 < |heap| && c == SmallerChild(heap, p)
    requires forall i :: 0 <= i < |heap| && i != p ==> heap[i] == whole[i]
    ensures HeapButAround(Swap(whole, p, c), c)
  {
    forall i: nat | 1 <= i < |whole| && Parent(i) == p
      ensures whole[c].priority <= whole[i].priority
    {
      assert i == 2 * p + 1 || i == 2 * p + 2;
    }
    SinkStep(whole, p, c);
  }

  lemma HoleMoves(heap: seq<Item>, p: nat, c: nat, newItem: Item)
    requires p < |heap| && c < |heap| && p != c
    ensures Swap(heap[p := newItem], p, c) == heap[p := heap[c]][c := newItem]
  {
  }

  lemma NothingBelowLeaf(h: seq<Item>, p: nat)
    requires HeapButAround(h, p) && 2 * p + 1 >= |h|
    ensures HeapButAbove(h, p)
  {
    forall i: nat | 1 <= i < |h| && i != p
      ensures OrderedAt(h, i)
    {
      assert Parent(i) != p;
    }
  }

  lemma RootIsLeastOfAll(h: seq<Item>)
    requires IsHeap(h) && h != []
    ensures forall x :: x in h ==> h[0].priority <= x.priority
  {
    forall x | x in h
      ensures h[0].priority <= x.priority
    {
      var i: nat :| i < |h| && h[i] == x;
      RootIsLeast(h, i);
    }
  }

  lemma FrontIsHeap(h: seq<Item>)
    requires IsHeap(h) && h != []
    ensures IsHeap(h[..|h| - 1])
  {
    var front := h[..|h| - 1];
    forall i: nat | 1 <= i < |front|
      ensures OrderedAt(front, i)
    {
      assert OrderedAt(h, i);
    }
  }

  lemma NewRoot(h: seq<Item>, x: Item)
    requires IsHeap(h) && h != []
    ensures HeapButAround(h[0 := x], 0)
    ensures multiset(h[0 := x]) + multiset{h[0]} == multiset(h) + multiset{x}
  {
    forall i: nat | 1 <= i < |h| && Parent(i) != 0
      ensures OrderedAt(h[0 := x], i)
    {
      assert OrderedAt(h, i);
    }
  }

  class PriorityQueue {
    var heap: seq<Item>

    constructor ()
      ensures heap == []
    {
      heap := [];
    }

    /** Lets the item at `pos` rise to its place: the items it passes move down one by one. */
    method SiftDown(pos: nat)
      requires HeapButAbove(heap, pos)
      modifies this
      ensures IsHeap(heap) && multiset(heap) == old(multiset(heap)) && |heap| == old(|heap|)
    {
      var newItem := heap[pos];
      var p := pos;
      ghost var whole := heap;
      while p > 0 && newItem.priority < heap[Parent(p)].priority
        invariant p < |heap| && whole == heap[p := newItem]
        invariant HeapButAbove(whole, p) && multiset(whole) == old(multiset(heap)) && |whole| == old(|heap|)
      {
        var parent := Parent(p);
        RiseStep(whole, p);
        HoleRises(heap, p, newItem);
        whole := Swap(whole, p, parent);
        heap := heap[p := heap[parent]];
        p := parent;
      }
      RestedIsHeap(whole, p);
      heap := heap[p := newItem];
    }

    /** Lets the hole left at the root sink to a leaf, where the item is put back. */
    method SinkToLeaf() returns (p: nat)
      requires HeapButAround(heap, 0)
      modifies this
      ensures HeapButAround(heap, p) && 2 * p + 1 >= |heap|
      ensures multiset(heap) == old(multiset(heap)) && |heap| == old(|heap|)
    {
      var newItem := heap[0];
      p := 0;
      ghost var whole := heap;
      while 2 * p + 1 < |heap|
        invariant p < |heap| == |whole| == old(|heap|)
        invariant whole == heap[p := newItem]
        invariant HeapButAround(whole, p) && multiset(whole) == old(multiset(heap))
        decreases |heap| - p
      {
        var child := SmallerChild(heap, p);
        SmallestChildSinks(whole, heap, p, child);
        HoleMoves(heap, p, child, newItem);
        whole := Swap(whole, p, child);
        heap := heap[p := heap[child]];
        p := child;
      }
      heap := heap[p := newItem];
    }

    method SiftUp()
      requires HeapButAround(heap, 0)
      modifies this
      ensures IsHeap(heap) && multiset(heap) == old(multiset(heap)) && |heap| == old(|heap|)
    {
      var p := SinkToLeaf();
      NothingBelowLeaf(heap, p);
      SiftDown(p);
    }

    method Put(item: Item)
      requires IsHeap(heap)
      modifies this
      ensures IsHeap(heap) && multiset(heap) == old(multiset(heap)) + multiset{item}
      ensures |heap| == old(|heap|) + 1
    {
      heap := heap + [item];
      forall i: nat | 1 <= i < |heap| - 1
        ensures OrderedAt(heap, i)
      {
        assert OrderedAt(old(heap), i);
      }
      SiftDown(|heap| - 1);
    }

    /** Removes some item of least priority. */
    method Get() returns (item: Item)
      requires IsHeap(heap) && heap != []
      modifies this
      ensures IsHeap(heap) && old(multiset(heap)) == multiset(heap) + multiset{item}
      ensures |heap| + 1 == old(|heap|)
      ensures forall x :: x in old(heap) ==> item.priority <= x.priority
    {
      ghost var before := heap;
      RootIsLeastOfAll(before);
      FrontIsHeap(before);
      var last := heap[|heap| - 1];
      assert before == before[..|before| - 1] + [last];
      heap := heap[..|heap| - 1];
      if heap == [] {
        return last;
      }
      item := heap[0];
      NewRoot(heap, last);
      heap := heap[0 := last];
      SiftUp();
    }
  }
}
