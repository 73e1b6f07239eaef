/** Draining the priority queue into batches of one class each. */
module Batcher {
  import opened Common
  import opened Estimator
  import opened PriorityQueues

  datatype Batch = Batch(tickets: seq<string>, complexity: Complexity, indices: seq<nat>)

  function MakeItem(ticket: string, index: nat): Item {
    Item(Priority(Classify(ticket)), ticket, Classify(ticket), index)
  }

  function ItemsOf(tickets: seq<string>, start: nat): (items: seq<Item>)
    ensures |items| == |tickets|
  {
    seq(|tickets|, i requires 0 <= i < |tickets| => MakeItem(tickets[i], start + i))
  }

  /** The queue holds only what `MakeItem` made. */
  ghost predicate Filed(items: seq<Item>) {
    forall i :: 0 <= i < |items| ==> items[i] == MakeItem(items[i].ticket, items[i].index)
  }

  ghost predicate Fits(b: Batch) {
    1 <= |b.tickets| == |b.indices| <= BatchSize(b.complexity)
  }

  function ItemsIn(b: Batch): (items: seq<Item>)
    requires |b.tickets| == |b.indices|
    ensures |items| == |b.tickets|
  {
    seq(|b.tickets|, i requires 0 <= i < |b.tickets| =>
        Item(Priority(b.complexity), b.tickets[i], b.complexity, b.indices[i]))
  }

  function CountIn(items: seq<Item>, c: Complexity): nat {
    if items == [] then 0
    else CountIn(items[..|items| - 1], c) + (if items[|items| - 1].complexity == c then 1 else 0)
  }

  /** The batches it takes to hold the items of class c. */
  function BatchesOf(items: seq<Item>, c: Complexity): nat {
    Ceil(CountIn(items, c), BatchSize(c))
  }

  function BatchesFor(items: seq<Item>): nat {
    BatchesOf(items, Complex) + BatchesOf(items, Medium) + BatchesOf(items, Simple)
  }

  // ---------- counting ----------

  lemma {:induction false} CountAppend(a: seq<Item>, b: seq<Item>, c: Complexity)
    ensures CountIn(a + b, c) == CountIn(a, c) + CountIn(b, c)
  {
    if b == [] {
      assert a + b == a;
    } else {
      var n := |b| - 1;
      assert (a + b)[..|a + b| - 1] == a + b[..n];
      CountAppend(a, b[..n], c);
    }
  }

  lemma CountWithout(items: seq<Item>, x: Item, c: Complexity) returns (rest: seq<Item>)
    requires x in items
    ensures |rest| + 1 == |items| && multiset(rest) == multiset(items) - multiset{x}
    ensures CountIn(items, c) == CountIn(rest, c) + (if x.complexity == c then 1 else 0)
  {
    var k: nat :| k < |items| && items[k] == x;
    rest := items[..k] + items[k + 1..];
    assert items == items[..k] + [x] + items[k + 1..];
    CountAppend(items[..k] + [x], items[k + 1..], c);
    CountAppend(items[..k], items[k + 1..], c);
    assert (items[..k] + [x])[..k] == items[..k];
  }

  lemma {:induction false} CountPermutation(a: seq<Item>, b: seq<Item>, c: Complexity)
    requires multiset(a) == multiset(b)
    ensures CountIn(a, c) == CountIn(b, c)
    decreases |a|
  {
    if a == [] {
      assert |multiset(b)| == 0;
    } else {
      var x := a[0];
      assert x in multiset(b);
      var a' := CountWithout(a, x, c);
      var b' := CountWithout(b, x, c);
      CountPermutation(a', b', c);
    }
  }

  lemma {:induction false} CountUniform(items: seq<Item>, c: Complexity)
    requires forall i :: 0 <= i < |items| ==> items[i].complexity == c
    ensures CountIn(items, c) == |items|
    ensures forall d :: d != c ==> CountIn(items, d) == 0
  {
    if items != [] {
      CountUniform(items[..|items| - 1], c);
    }
  }

  lemma {:induction false} CountAbsent(items: seq<Item>, c: Complexity)
    requires forall x :: x in items ==> x.complexity != c
    ensures CountIn(items, c) == 0
  {
    if items != [] {
      CountAbsent(items[..|items| - 1], c);
    }
  }

  // ---------- the batcher ----------

  /** What one drain takes out: a batch of the first class present, as full as it can be. */
  ghost predicate Drains(before: seq<Item>, b: Batch, after: seq<Item>) {
    && Fits(b)
    && multiset(before) == multiset(after) + multiset(ItemsIn(b))
    && (forall x :: x in before ==> Priority(b.complexity) <= x.priority)
    && (|b.tickets| == BatchSize(b.complexity) || forall x :: x in after ==> x.complexity != b.complexity)
  }

  lemma DrainCounts(before: seq<Item>, b: Batch, after: seq<Item>)
    requires Drains(before, b, after)
    ensures forall d :: CountIn(before, d) == CountIn(after, d) + (if d == b.complexity then |b.tickets| else 0)
    ensures |b.tickets| < BatchSize(b.complexity) ==> CountIn(after, b.complexity) == 0
    ensures |before| == |after| + |b.tickets|
  {
    var all := after + ItemsIn(b);
    CountUniform(ItemsIn(b), b.complexity);
    forall d
      ensures CountIn(before, d) == CountIn(after, d) + (if d == b.complexity then |b.tickets| else 0)
    {
      CountPermutation(before, all, d);
      CountAppend(after, ItemsIn(b), d);
    }
    if |b.tickets| < BatchSize(b.complexity) {
      CountAbsent(after, b.complexity);
    }
    assert |multiset(before)| == |multiset(after)| + |multiset(ItemsIn(b))|;
  }

  class PriorityBatcher {
    const queue: PriorityQueue

    ghost predicate Valid()
      reads this, queue
    {
      IsHeap(queue.heap) && Filed(queue.heap)
    }

    constructor ()
      ensures Valid() && fresh(queue) && queue.heap == []
    {
      queue := new PriorityQueue();
    }

    method EnqueueMany(tickets: seq<string>, start: nat)
      requires Valid()
      modifies queue
      ensures Valid()
      ensures multiset(queue.heap) == old(multiset(queue.heap)) + multiset(ItemsOf(tickets, start))
    {
      var items := ItemsOf(tickets, start);
      for i := 0 to |tickets|
        invariant Valid()
        invariant multiset(queue.heap) == old(multiset(queue.heap)) + multiset(items[..i])
      {
        ghost var before := queue.heap;
        var complexity := Classify(tickets[i]);
        queue.Put(Item(Priority(complexity), tickets[i], complexity, start + i));
        assert items[..i + 1] == items[..i] + [items[i]];
        FiledMore(before, queue.heap, items[i]);
      }
      assert items[..|tickets|] == items;
    }

    method DrainBatch() returns (batch: Option<Batch>)
      requires Valid()
      modifies queue
      ensures Valid()
      ensures batch == None <==> old(queue.heap) == []
      ensures batch == None ==> queue.heap == []
      ensures batch.Some? ==> Drains(old(queue.heap), batch.value, queue.heap)
      ensures batch.Some? ==>
                var b := batch.value;
                var cap := if b.complexity == Complex then 5 else if b.complexity == Medium then 10 else 20;
                1 <= |b.tickets| <= cap && (|b.tickets| < cap ==> CountIn(queue.heap, b.complexity) == 0)
    {
      if queue.heap == [] {
        return None;
      }
      ghost var before := queue.heap;
      var first := queue.Get();
      FiledLess(before, queue.heap, first);
      var complexity := first.complexity;
      var maxSize := BatchSize(complexity);
      var tickets, indices := [first.ticket], [first.index];
      ghost var b := Batch(tickets, complexity, indices);
      assert ItemsIn(b) == [first];
      while |tickets| < maxSize && queue.heap != []
        invariant Valid() && b == Batch(tickets, complexity, indices) && Fits(b)
        invariant multiset(before) == multiset(queue.heap) + multiset(ItemsIn(b))
        decreases |queue.heap|
      {
        ghost var now := queue.heap;
        var candidate := queue.Get();
        FiledLess(now, queue.heap, candidate);
        if candidate.complexity == complexity {
          tickets, indices := tickets + [candidate.ticket], indices + [candidate.index];
          assert ItemsIn(Batch(tickets, complexity, indices)) == ItemsIn(b) + [candidate];
          b := Batch(tickets, complexity, indices);
        } else {
          ghost var rest := queue.heap;
          queue.Put(candidate);
          FiledMore(rest, queue.heap, candidate);
          assert multiset(queue.heap) == multiset(now);
          OthersLeft(before, now, queue.heap, first, candidate);
          CountAbsent(queue.heap, complexity);
          return Some(Batch(tickets, complexity, indices));
        }
      }
      return Some(Batch(tickets, complexity, indices));
    }

    /** Every batch fits, nothing is lost, classes come in order, and there are as few as possible. */
    method DrainAllBatches() returns (batches: seq<Batch>)
      requires Valid()
      modifies queue
      ensures queue.heap == []
      ensures AllFit(batches) && InClassOrder(batches)
      ensures multiset(Flatten(batches)) == old(multiset(queue.heap))
      ensures |batches| == BatchesFor(old(queue.heap))
      ensures var h := old(queue.heap);
              |batches| == (CountIn(h, Complex) + 4) / 5 + (CountIn(h, Medium) + 9) / 10 + (CountIn(h,
              Simple) + 19) / 20
    {
      batches := [];
      while queue.heap != []
        invariant Valid() && Drained(old(queue.heap), batches, queue.heap)
        decreases |queue.heap|
      {
        ghost var before := queue.heap;
        var batch := DrainBatch();
        DrainedMore(old(queue.heap), batches, before, batch.value, queue.heap);
        DrainCounts(before, batch.value, queue.heap);
        batches := batches + [batch.value];
      }
      BatchesAreQuotients(old(queue.heap));
    }
  }

  /** The batches taken so far and the queue that is left make up the queue at the start. */
  ghost predicate Drained(start: seq<Item>, batches: seq<Batch>, left: seq<Item>) {
    && AllFit(batches) && InClassOrder(batches)
    && multiset(start) == multiset(left) + multiset(Flatten(batches))
    && LastClassFirst(batches, left)
    && |batches| + BatchesFor(left) == BatchesFor(start)
  }

  /** What is left comes no earlier than the class of the latest batch. */
  ghost predicate LastClassFirst(batches: seq<Batch>, left: seq<Item>) {
    batches != [] ==> forall x :: x in left ==> Priority(batches[|batches| - 1].complexity) <= x.priority
  }

  lemma DrainedMore(start: seq<Item>, batches: seq<Batch>, before: seq<Item>, b: Batch, after: seq<Item>)
    requires Filed(before) && Drained(start, batches, before) && Drains(before, b, after)
    ensures Drained(start, batches + [b], after)
  {
    FlattenMore(batches, b);
    assert multiset(Flatten(batches + [b])) == multiset(Flatten(batches)) + multiset(ItemsIn(b));
    OneBatchLess(before, b, after);
    OrderMore(batches, before, b, after);
  }

  lemma FlattenMore(batches: seq<Batch>, b: Batch)
    requires AllFit(batches) && Fits(b)
    ensures AllFit(batches + [b]) && Flatten(batches + [b]) == Flatten(batches) + ItemsIn(b)
  {
    assert (batches + [b])[..|batches|] == batches;
  }

  lemma OrderMore(batches: seq<Batch>, before: seq<Item>, b: Batch, after: seq<Item>)
    requires Filed(before) && Drains(before, b, after) && InClassOrder(batches) && LastClassFirst(batches, before)
    ensures InClassOrder(batches + [b]) && LastClassFirst(batches + [b], after)
  {
    ItemInDrained(before, b, after);
  }

  lemma FiledMore(before: seq<Item>, after: seq<Item>, x: Item)
    requires Filed(before) && x == MakeItem(x.ticket, x.index) && multiset(after) == multiset(before) + multiset{x}
    ensures Filed(after)
  {
    forall i | 0 <= i < |after|
      ensures after[i] == MakeItem(after[i].ticket, after[i].index)
    {
      assert after[i] in multiset(after);
      assert after[i] in before || after[i] == x;
    }
  }

  lemma FiledLess(before: seq<Item>, after: seq<Item>, x: Item)
    requires Filed(before) && multiset(before) == multiset(after) + multiset{x}
    ensures Filed(after) && x == MakeItem(x.ticket, x.index) && x in before
  {
    forall i | 0 <= i < |after|
      ensures after[i] == MakeItem(after[i].ticket, after[i].index)
    {
      assert after[i] in multiset(after);
      assert after[i] in multiset(before);
      assert after[i] in before;
    }
    assert x in multiset(before);
  }

  /** If the least item left is of another class, then no item of the batch's class is left. */
  lemma OthersLeft(before: seq<Item>, now: seq<Item>, after: seq<Item>, first: Item, candidate: Item)
    requires Filed(before) && Filed(now) && multiset(after) == multiset(now) && multiset(now) <= multiset(before)
    requires first in before && candidate in now && candidate.complexity != first.complexity
    requires forall x :: x in before ==> first.priority <= x.priority
    requires forall x :: x in now ==> candidate.priority <= x.priority
    ensures forall x :: x in after ==> x.complexity != first.complexity
  {
    forall x | x in after
      ensures x.complexity != first.complexity
    {
      assert x in multiset(after) && x in multiset(now);
      assert x in now;
      assert candidate in multiset(now) && candidate in multiset(before);
      assert candidate in before;
      PriorityInjective(candidate.complexity, first.complexity);
    }
  }

  lemma ItemInDrained(before: seq<Item>, b: Batch, after: seq<Item>)
    requires Filed(before) && Drains(before, b, after)
    ensures forall x :: x in after ==> x in before
    ensures exists x :: x in before && x.priority == Priority(b.complexity)
  {
    forall x | x in after
      ensures x in before
    {
      assert x in multiset(after);
      assert x in multiset(before);
    }
    var y := ItemsIn(b)[0];
    assert y in multiset(ItemsIn(b));
    assert y in multiset(before);
  }

  lemma OneBatchLess(before: seq<Item>, b: Batch, after: seq<Item>)
    requires Drains(before, b, after)
    ensures BatchesFor(before) == BatchesFor(after) + 1
  {
    DrainCounts(before, b, after);
    CeilDrops(CountIn(before, b.complexity), BatchSize(b.complexity), |b.tickets|);
  }

  lemma CeilDrops(n: nat, size: nat, taken: nat)
    requires 1 <= taken <= size && taken <= n && (taken < size ==> taken == n)
    ensures Ceil(n, size) == Ceil(n - taken, size) + 1
  {
  }

  ghost predicate AllFit(batches: seq<Batch>) {
    forall i :: 0 <= i < |batches| ==> Fits(batches[i])
  }

  function Flatten(batches: seq<Batch>): seq<Item>
    requires AllFit(batches)
  {
    if batches == [] then []
    else
      var b := batches[|batches| - 1];
      assert Fits(b);
      Flatten(batches[..|batches| - 1]) + ItemsIn(b)
  }

  /** Complex batches first, simple ones last. */
  ghost predicate InClassOrder(batches: seq<Batch>) {
    forall i, j :: 0 <= i < j < |batches| ==>
      && (batches[j].complexity == Complex ==> batches[i].complexity == Complex)
      && (batches[i].complexity == Simple ==> batches[j].complexity == Simple)
  }

  /** The sum of the class counts, each divided by its batch size and rounded up. */
  lemma BatchesAreQuotients(h: seq<Item>)
    ensures BatchesFor(h)
         == (CountIn(h, Complex) + 4) / 5 + (CountIn(h, Medium) + 9) / 10 + (CountIn(h, Simple) + 19) / 20
  {
    CeilIsQuotient(CountIn(h, Complex), 5);
    CeilIsQuotient(CountIn(h, Medium), 10);
    CeilIsQuotient(CountIn(h, Simple), 20);
  }

  /** What is queued for a list of tickets: each ticket once, in its class, under its own index. */
  lemma ItemsPointBack(tickets: seq<string>, start: nat, b: Batch, i: nat)
    requires Fits(b) && multiset(ItemsIn(b)) <= multiset(ItemsOf(tickets, start)) && i < |b.tickets|
    ensures start <= b.indices[i] < start + |tickets| && tickets[b.indices[i] - start] == b.tickets[i]
    ensures Classify(b.tickets[i]) == b.complexity
    ensures forall j :: 0 <= j < |tickets| ==> ItemsOf(tickets, start)[j].index == start + j
  {
    var x := ItemsIn(b)[i];
    assert x in multiset(ItemsIn(b));
    assert x in multiset(ItemsOf(tickets, start));
    var j: nat :| j < |tickets| && ItemsOf(tickets, start)[j] == x;
  }

  // ---------- optimality ----------

  /** No way of cutting the same tickets into fitting single-class batches uses fewer batches. */
  lemma {:induction false} DrainIsOptimal(batches: seq<Batch>)
    requires AllFit(batches)
    ensures BatchesFor(Flatten(batches)) <= |batches|
  {
    if batches != [] {
      var n := |batches| - 1;
      DrainIsOptimal(batches[..n]);
      OneBatchAtMost(Flatten(batches[..n]), batches[n]);
    }
  }

  lemma OneBatchAtMost(items: seq<Item>, b: Batch)
    requires Fits(b)
    ensures BatchesFor(items + ItemsIn(b)) <= BatchesFor(items) + 1
  {
    OneClassAtMost(items, b, Simple);
    OneClassAtMost(items, b, Medium);
    OneClassAtMost(items, b, Complex);
  }

  lemma OneClassAtMost(items: seq<Item>, b: Batch, d: Complexity)
    requires Fits(b)
    ensures BatchesOf(items + ItemsIn(b), d) <= BatchesOf(items, d) + (if d == b.complexity then 1 else 0)
  {
    CountUniform(ItemsIn(b), b.complexity);
    CountAppend(items, ItemsIn(b), d);
    if d == b.complexity {
      CeilGrows(CountIn(items, d), BatchSize(d), |b.tickets|);
    }
  }

  lemma {:induction false} CeilGrows(n: nat, size: nat, more: nat)
    requires 1 <= size && more <= size
    ensures Ceil(n, size) <= Ceil(n + more, size) <= Ceil(n, size) + 1
    decreases n
  {
    if n > size {
      CeilGrows(n - size, size, more);
    } else if n + more > size {
      assert Ceil(n + more - size, size) <= 1;
    }
  }

  /** The initial estimate, made from the ticket list, against the batches the drain really makes. */
  lemma EstimateAgainstDrain(tickets: seq<string>, queued: seq<Item>)
    requires multiset(queued) == multiset(ItemsOf(tickets, 0))
    ensures BatchesFor(queued) == BatchesNeeded(CountsOf(tickets))
    ensures WeightedBatches(CountsOf(tickets)) <= BatchesFor(queued) as real < WeightedBatches(CountsOf(tickets)) + 3.0
  {
    forall c: Complexity
      ensures CountIn(queued, c) == CountOfClass(tickets, c)
    {
      CountPermutation(queued, ItemsOf(tickets, 0), c);
      CountEnqueued(tickets, c);
    }
    InitialEstimateAgreesWithDrain(CountsOf(tickets));
  }

  lemma BatchesPermutation(a: seq<Item>, b: seq<Item>)
    requires multiset(a) == multiset(b)
    ensures BatchesFor(a) == BatchesFor(b)
  {
    forall c: Complexity
      ensures CountIn(a, c) == CountIn(b, c)
    {
      CountPermutation(a, b, c);
    }
  }

  lemma {:induction false} CountEnqueued(tickets: seq<string>, c: Complexity)
    ensures CountIn(ItemsOf(tickets, 0), c) == CountOfClass(tickets, c)
  {
    if tickets != [] {
      var n := |tickets| - 1;
      CountEnqueued(tickets[..n], c);
      assert ItemsOf(tickets, 0)[..n] == ItemsOf(tickets[..n], 0);
    }
  }
}
