/**
 Bounded gates with a first-come queue: an `asyncio.Semaphore`, and an `asyncio.Lock` when the
 capacity is one.  A task takes a free gate at once only if nobody is queued before it.
 */
module Gates {

  /** What one task has to do with one gate. */
  datatype Claim = Idle | Waiting | Holding

  datatype Gate = Gate(capacity: nat, holders: set<nat>, queue: seq<nat>)

  function NewGate(capacity: nat): Gate {
    Gate(capacity, {}, [])
  }

  predicate HasRoom(g: Gate) {
    |g.holders| < g.capacity
  }

  predicate FreeFor(g: Gate) {
    HasRoom(g) && g.queue == []
  }

  predicate NextInLine(g: Gate, id: nat) {
    HasRoom(g) && g.queue != [] && g.queue[0] == id
  }

  function Without(queue: seq<nat>, id: nat): seq<nat> {
    if queue == [] then []
    else (if queue[0] == id then [] else [queue[0]]) + Without(queue[1..], id)
  }

  /** The gate after a task's claim on it has changed. */
  function Shift(g: Gate, id: nat, before: Claim, now: Claim): Gate {
    if before == now then g
    else Gate(g.capacity,
              if now == Holding then g.holders + {id} else g.holders - {id},
              if now == Waiting then g.queue + [id] else Without(g.queue, id))
  }

  /** A claim may become `Holding` only when the gate lets this task in. */
  predicate MayShift(g: Gate, id: nat, before: Claim, now: Claim) {
    before != now ==>
      match now
      case Idle => true
      case Waiting => before == Idle
      case Holding => if before == Waiting then NextInLine(g, id) else FreeFor(g)
  }

  ghost predicate Distinct(queue: seq<nat>) {
    forall i, j :: 0 <= i < j < |queue| ==> queue[i] != queue[j]
  }

  ghost predicate GateOk(g: Gate, claims: seq<Claim>) {
    && |g.holders| <= g.capacity
    && Distinct(g.queue)
    && (forall i: nat :: i in g.holders <==> i < |claims| && claims[i] == Holding)
    && (forall i: nat :: i in g.queue <==> i < |claims| && claims[i] == Waiting)
  }

  lemma {:induction false} WithoutMembers(queue: seq<nat>, id: nat)
    ensures forall i: nat :: i in Without(queue, id) <==> i in queue && i != id
    ensures Distinct(queue) ==> Distinct(Without(queue, id))
  {
    if queue != [] {
      WithoutMembers(queue[1..], id);
      var rest := Without(queue[1..], id);
      assert queue == [queue[0]] + queue[1..];
      if Distinct(queue) {
        assert queue[0] !in queue[1..];
        assert queue[0] !in rest;
      }
    }
  }

  lemma {:induction false} WithoutAbsent(queue: seq<nat>, id: nat)
    requires id !in queue
    ensures Without(queue, id) == queue
  {
    if queue != [] {
      WithoutAbsent(queue[1..], id);
    }
  }

  /** Every permitted shift keeps the books and the capacity. */
  lemma ShiftKeepsOk(g: Gate, claims: seq<Claim>, id: nat, now: Claim)
    requires GateOk(g, claims) && id < |claims| && MayShift(g, id, claims[id], now)
    ensures GateOk(Shift(g, id, claims[id], now), claims[id := now])
  {
    if claims[id] != now {
      WithoutMembers(g.queue, id);
      if now == Waiting {
        assert id !in g.queue;
      }
      if now == Holding {
        assert |g.holders + {id}| <= |g.holders| + 1;
      } else {
        assert g.holders - {id} <= g.holders;
        SubsetSmaller(g.holders - {id}, g.holders);
      }
    }
  }

  /** i is queued, and j somewhere behind it. */
  ghost predicate Before(queue: seq<nat>, i: nat, j: nat) {
    exists a, b :: 0 <= a < b < |queue| && queue[a] == i && queue[b] == j
  }

  lemma BeforeMembers(queue: seq<nat>, i: nat, j: nat)
    requires Before(queue, i, j)
    ensures i in queue && j in queue && (Distinct(queue) ==> queue[0] != j && i != j)
  {
  }

  lemma {:induction false} WithoutKeepsOrder(queue: seq<nat>, id: nat, i: nat, j: nat)
    requires Before(queue, i, j) && i != id && j != id
    ensures Before(Without(queue, id), i, j)
  {
    var a, b :| 0 <= a < b < |queue| && queue[a] == i && queue[b] == j;
    var rest := Without(queue[1..], id);
    if a == 0 {
      WithoutMembers(queue[1..], id);
      assert queue[1..][b - 1] == j;
      assert j in rest;
      var k :| 0 <= k < |rest| && rest[k] == j;
      assert Without(queue, id) == [i] + rest;
      assert ([i] + rest)[0] == i && ([i] + rest)[k + 1] == j;
    } else {
      assert queue[1..][a - 1] == i && queue[1..][b - 1] == j;
      WithoutKeepsOrder(queue[1..], id, i, j);
      BehindHead(if queue[0] == id then [] else [queue[0]], rest, i, j);
    }
  }

  lemma BehindHead(head: seq<nat>, rest: seq<nat>, i: nat, j: nat)
    requires Before(rest, i, j)
    ensures Before(head + rest, i, j)
  {
    var a, b :| 0 <= a < b < |rest| && rest[a] == i && rest[b] == j;
    assert (head + rest)[|head| + a] == i && (head + rest)[|head| + b] == j;
  }

  lemma AheadOfTail(queue: seq<nat>, tail: seq<nat>, i: nat, j: nat)
    requires Before(queue, i, j)
    ensures Before(queue + tail, i, j)
  {
    var a, b :| 0 <= a < b < |queue| && queue[a] == i && queue[b] == j;
    assert (queue + tail)[a] == i && (queue + tail)[b] == j;
  }

  /** A permitted shift of any task leaves i before j, unless one of them leaves; and j not by being let in. */
  lemma ShiftKeepsOrder(g: Gate, claims: seq<Claim>, id: nat, now: Claim, i: nat, j: nat)
    requires GateOk(g, claims) && id < |claims| && MayShift(g, id, claims[id], now) && Before(g.queue, i, j)
    ensures var queue := Shift(g, id, claims[id], now).queue;
            && (id != i && id != j ==> Before(queue, i, j))
            && (id == i && now != Waiting ==> i !in queue)
            && (id in g.queue && now == Waiting ==> Before(queue, i, j))
            && !(id == j && now == Holding)
  {
    BeforeMembers(g.queue, i, j);
    if claims[id] != now {
      WithoutMembers(g.queue, id);
      if now == Waiting {
        AheadOfTail(g.queue, [id], i, j);
      } else if id != i && id != j {
        WithoutKeepsOrder(g.queue, id, i, j);
      }
    }
  }

  lemma JoinsLast(g: Gate, id: nat, before: Claim, now: Claim, i: nat)
    requires i in g.queue && id !in g.queue && id in Shift(g, id, before, now).queue
    ensures Before(Shift(g, id, before, now).queue, i, id)
  {
    WithoutMembers(g.queue, id);
    var a :| 0 <= a < |g.queue| && g.queue[a] == i;
    assert (g.queue + [id])[a] == i && (g.queue + [id])[|g.queue|] == id;
  }

  lemma SubsetSmaller(a: set<nat>, b: set<nat>)
    requires a <= b
    ensures |a| <= |b|
  {
    assert b == a + (b - a);
  }

  lemma GateOkMore(g: Gate, claims: seq<Claim>)
    requires GateOk(g, claims)
    ensures GateOk(g, claims + [Idle])
  {
  }
}
