/**
 What each step of the machine does, exactly, said of the worlds before and after it without the
 functions that compute the step.
 */
module StepLaws {
  import opened Common
  import opened Records
  import opened CircuitBreakers
  import opened BreakerHistory
  import opened Retry
  import opened Gates
  import opened Pipeline
  import opened PipelineInvariant
  import opened PipelineSafety

  // ---------- a call at the breaker ----------

  /** The task has just learned this outcome of its attempt k. */
  ghost predicate Learned(t: Task, t': Task, k: Attempt, o: Outcome) {
    t'.phase == Settled(k, o) && t'.trail == t.trail + [o] && t'.ticket == t.ticket
  }

  /** On the probe path if the lock is free, in its queue otherwise. */
  ghost predicate GoesToProbe(w: World, w': World, id: nat, k: Attempt)
    requires id < |w'.tasks|
  {
    w'.tasks[id].phase ==
      if |w.gates.probe.holders| < w.gates.probe.capacity && w.gates.probe.queue == []
      then Launched(k, Some(Probe)) else QueuedProbe(k)
  }

  /**
   A call while Open: from the recovery time after the latest opening on, and only then, it moves the
   breaker to Half-Open and goes for the probe; before, it is refused.  Nothing postpones that instant.
   */
  lemma AttemptWhileOpen(c: Config, start: real, w: World, at: real, id: nat)
    requires ConfigOk(c) && Reachable(c, start, w) && c.breakerOn && w.traced.b.state == Open
    requires w.now <= at && id < |w.tasks| && w.tasks[id].phase.Ready?
    ensures LastOpened(w.traced.marks).Some? && Enabled(c, w, Event(at, Attempt(id)))
    ensures var w' := Step(c, w, Event(at, Attempt(id)));
            var k := w.tasks[id].phase.k;
            && |w'.tasks| == |w.tasks|
            && if at >= LastOpened(w.traced.marks).value + c.breaker.recovery
               then w'.traced.b == w.traced.b.(state := HalfOpen) && GoesToProbe(w, w', id, k)
               else w'.traced.b == w.traced.b && Learned(w.tasks[id], w'.tasks[id], k, Refused)
  {
    OpenSinceLatest(c, start, w);
    AttemptByState(c, w, at, id);
  }

  lemma OpenSinceLatest(c: Config, start: real, w: World)
    requires ConfigOk(c) && Reachable(c, start, w) && w.traced.b.state == Open
    ensures LastOpened(w.traced.marks).Some? && w.traced.b.openedAt == LastOpened(w.traced.marks)
  {
    ReachableInv(c, start, w);
  }

  /** The same with the breaker's own opening time, and what a call does in the other states. */
  lemma AttemptByState(c: Config, w: World, at: real, id: nat)
    requires w.now <= at && id < |w.tasks| && w.tasks[id].phase.Ready?
    requires w.traced.b.state == Open ==> w.traced.b.openedAt.Some?
    ensures Enabled(c, w, Event(at, Attempt(id)))
    ensures var w' := Step(c, w, Event(at, Attempt(id)));
            var k, b := w.tasks[id].phase.k, w.traced.b;
            && |w'.tasks| == |w.tasks|
            && (!c.breakerOn ==> w'.traced == w.traced && w'.tasks[id].phase == Launched(k, None))
            && (c.breakerOn && b.state == Closed ==>
                  w'.traced.b == b && w'.tasks[id].phase == Launched(k, Some(Plain)))
            && (c.breakerOn && b.state == HalfOpen ==> w'.traced.b == b && GoesToProbe(w, w', id, k))
            && (c.breakerOn && b.state == Open && at < b.openedAt.value + c.breaker.recovery ==>
                  w'.traced.b == b && Learned(w.tasks[id], w'.tasks[id], k, Refused))
            && (c.breakerOn && b.state == Open && at >= b.openedAt.value + c.breaker.recovery ==>
                  w'.traced.b == b.(state := HalfOpen) && GoesToProbe(w, w', id, k))
  {
  }

  /** A waiter that is given the probe lock: refused, or started with or without the probe's bookkeeping. */
  lemma GrantByState(c: Config, w: World, at: real, id: nat)
    requires Enabled(c, w, Event(at, GrantProbe(id)))
    ensures var w' := Step(c, w, Event(at, GrantProbe(id)));
            var k := w.tasks[id].phase.k;
            && |w'.tasks| == |w.tasks| && w'.traced.b == w.traced.b
            && (match w.traced.b.state
                case Open => Learned(w.tasks[id], w'.tasks[id], k, Refused)
                case HalfOpen => w'.tasks[id].phase == Launched(k, Some(Probe))
                case Closed => w'.tasks[id].phase == Launched(k, Some(Locked)))
  {
  }

  // ---------- the end of a wrapped call ----------

  /** The ticket learns the outcome that the call had, whatever the breaker makes of it. */
  lemma AnswerIsLearned(c: Config, w: World, at: real, a: Action)
    requires a.Answer? && Enabled(c, w, Event(at, a))
    ensures var w' := Step(c, w, Event(at, a));
            && |w'.tasks| == |w.tasks| && Learned(w.tasks[a.id], w'.tasks[a.id], w.tasks[a.id].phase.k, a.outcome)
            && (w.tasks[a.id].phase.route == None ==> w'.traced == w.traced)
  {
  }

  /** A success closes a Half-Open breaker and forgets its failures; in the other states it changes nothing. */
  lemma SuccessAtBreaker(c: Config, w: World, at: real, a: Action)
    requires a.Answer? && Enabled(c, w, Event(at, a)) && w.tasks[a.id].phase.route.Some? && a.outcome.Answered?
    ensures Step(c, w, Event(at, a)).traced.b == if w.traced.b.state == HalfOpen then Breaker(Closed, [],
    None) else w.traced.b
  {
  }

  /**
   Anything else is recorded, twice on the probe path.  It reopens a Half-Open breaker at once, leaves an
   Open one open since the same instant, and trips a Closed one as `FailingCallTrips` says.
   */
  lemma FailureAtBreaker(c: Config, w: World, at: real, a: Action)
    requires a.Answer? && Enabled(c, w, Event(at, a)) && w.tasks[a.id].phase.route.Some? && !a.outcome.Answered?
    ensures var t, t' := w.traced, Step(c, w, Event(at, a)).traced;
            && t'.recorded == t.recorded + (if w.tasks[a.id].phase.route == Some(Probe) then [a.r.stamp,
            a.again.stamp] else [a.r.stamp])
            && (t.b.state == HalfOpen ==> t'.b.state == Open && t'.b.openedAt == Some(a.r.change))
            && (t.b.state == Open ==> t'.b.state == Open && t'.b.openedAt == t.b.openedAt)
            && t'.b == Finish(c.breaker, t.b, w.tasks[a.id].phase.route.value, Fails, a.r, a.again)
  {
    var t := w.traced;
    assert t.recorded + [a.r.stamp] + [a.again.stamp] == t.recorded + [a.r.stamp, a.again.stamp];
  }

  /** The in-window failures of the whole log reach the threshold, on the probe path with the second record too. */
  ghost predicate ReachesThreshold(s: Settings, recorded: seq<real>, path: Path, r: Readings, again: Readings) {
    || |Since(recorded + [r.stamp], r.sweep - s.window)| >= s.threshold
    || (path == Probe && |Since(recorded + [r.stamp, again.stamp], again.sweep - s.window)| >= s.threshold)
  }

  /** A Closed breaker trips exactly when they do. */
  lemma FailureTrips(c: Config, start: real, w: World, at: real, a: Action)
    requires ConfigOk(c) && Reachable(c, start, w) && w.traced.b.state == Closed
    requires a.Answer? && Enabled(c, w, Event(at, a)) && w.tasks[a.id].phase.route.Some? && !a.outcome.Answered?
    ensures Step(c, w, Event(at, a)).traced.b.state == Open <==>
              ReachesThreshold(c.breaker, w.traced.recorded, w.tasks[a.id].phase.route.value, a.r, a.again)
  {
    ReachableBreaker(c, start, w);
    FailureIsFinish(c, w, at, a);
    FinishTrips(c.breaker, w.traced, w.now, at, w.tasks[a.id].phase.route.value, a.r, a.again);
  }

  lemma ReachableBreaker(c: Config, start: real, w: World)
    requires ConfigOk(c) && Reachable(c, start, w)
    ensures Sound(c.breaker, w.traced, w.now)
  {
    ReachableInv(c, start, w);
  }

  lemma FailureIsFinish(c: Config, w: World, at: real, a: Action)
    requires a.Answer? && Enabled(c, w, Event(at, a)) && w.tasks[a.id].phase.route.Some? && !a.outcome.Answered?
    ensures Step(c, w, Event(at, a)).traced.b
         == Finish(c.breaker, w.traced.b, w.tasks[a.id].phase.route.value, Fails, a.r, a.again)
    ensures w.now <= at && ReadingsInOrder(at, w.tasks[a.id].phase.route.value, Fails, a.r, a.again)
  {
  }

  lemma FinishTrips(s: Settings, t: Traced, now: real, at: real, path: Path, r: Readings, again: Readings)
    requires Sensible(s) && Sound(s, t, now) && now <= at && t.b.state == Closed
    requires ReadingsInOrder(at, path, Fails, r, again)
    ensures Finish(s, t.b, path, Fails, r, again).state == Open <==> ReachesThreshold(s, t.recorded, path, r, again)
  {
    SoundLater(s, t, now, at);
    FailingCallTrips(s, t, at, path, r, again);
  }

  // ---------- the cache ----------

  /** Some result has been sent to the cache for a ticket with the same normal form. */
  ghost predicate WrittenFor(c: Config, w: World, ticket: string) {
    exists i :: 0 <= i < |w.writes| && NormalForm(c, w.writes[i].0) == NormalForm(c, ticket)
  }

  /** The ticket is done without an attempt, with the first such result, marked as a hit. */
  ghost predicate AnsweredByFirst(c: Config, w: World, t: Task, t': Task) {
    && t'.phase.Done? && t'.trail == t.trail == []
    && exists i :: FirstWrite(c, w.writes, NormalForm(c, t.ticket), i)
                   && t'.phase.out == Value(w.writes[i].1["cache_hit" := Boolean(true)])
  }

  /**
   A lookup that is answered ends the ticket at once with the first result ever sent for its normal form
   if and only if there is one; otherwise the ticket goes on to ask for a slot.
   */
  lemma LookupUsesCache(c: Config, start: real, w: World, at: real, id: nat)
    requires ConfigOk(c) && Reachable(c, start, w)
    requires w.now <= at && id < |w.tasks| && w.tasks[id].phase.Fresh?
    ensures Enabled(c, w, Event(at, Lookup(id, true)))
    ensures var w' := Step(c, w, Event(at, Lookup(id, true)));
            && |w'.tasks| == |w.tasks|
            && (if WrittenFor(c, w, w.tasks[id].ticket) then AnsweredByFirst(c, w, w.tasks[id], w'.tasks[id])
                else w'.tasks[id].phase == Missed)
  {
    ReachableStore(c, start, w);
    ReachableTask(c, start, w, id);
    StoredIffWritten(c, w, w.tasks[id].ticket);
    LookupByStore(c, w, at, id);
    var key := NormalForm(c, w.tasks[id].ticket);
    if key in w.store {
      assert ExplainedBy(c, w.store, w.writes, key);
    }
  }

  lemma ReachableStore(c: Config, start: real, w: World)
    requires ConfigOk(c) && Reachable(c, start, w)
    ensures StoreOk(c, w.store, w.writes) && SavedOk(w)
  {
    ReachableInv(c, start, w);
  }

  lemma StoredIffWritten(c: Config, w: World, ticket: string)
    requires StoreOk(c, w.store, w.writes)
    ensures NormalForm(c, ticket) in w.store <==> WrittenFor(c, w, ticket)
  {
    var key := NormalForm(c, ticket);
    if key in w.store {
      assert ExplainedBy(c, w.store, w.writes, key);
      var i :| FirstWrite(c, w.writes, key, i) && w.store[key] == w.writes[i].1;
      assert NormalForm(c, w.writes[i].0) == key;
    }
  }

  lemma LookupByStore(c: Config, w: World, at: real, id: nat)
    requires w.now <= at && id < |w.tasks| && w.tasks[id].phase.Fresh?
    ensures Enabled(c, w, Event(at, Lookup(id, true)))
    ensures var w' := Step(c, w, Event(at, Lookup(id, true)));
            var key := NormalForm(c, w.tasks[id].ticket);
            && |w'.tasks| == |w.tasks| && w'.tasks[id].trail == w.tasks[id].trail
            && (key in w.store ==>







                  && w'.tasks[id].phase.Done?
                  && w'.tasks[id].phase.out == Value(w.store[key]["cache_hit" := Boolean(true)]))
            && (key !in w.store ==> w'.tasks[id].phase == Missed)
  {
  }

  /** The other half: a ticket that calls answered without an error has its result among the writes. */
  lemma AnswersAreSent(c: Config, start: real, w: World, id: nat)
    requires ConfigOk(c) && Reachable(c, start, w) && id < |w.tasks| && w.tasks[id].phase.Done?
    requires w.tasks[id].phase.origin.FromCalls?
    requires w.tasks[id].phase.out.Value? && Lacks(w.tasks[id].phase.out.dict, "error")
    ensures (w.tasks[id].ticket, w.tasks[id].phase.out.dict - {"cache_hit"}) in w.writes
  {
    ReachableStore(c, start, w);
    ReachableTask(c, start, w, id);
    var t := w.tasks[id];
    assert TaskSaved(w.writes, t);
    var d := t.phase.origin.raw.dict;
    assert d["cache_hit" := Boolean(false)] - {"cache_hit"} == d - {"cache_hit"};
  }

  /** A lookup that raises ends the ticket with that exception; it neither counts as a miss nor reads the cache. */
  lemma LookupMayRaise(c: Config, w: World, at: real, id: nat)
    requires w.now <= at && id < |w.tasks| && w.tasks[id].phase.Fresh?
    ensures Enabled(c, w, Event(at, Lookup(id, false)))
    ensures var w' := Step(c, w, Event(at, Lookup(id, false)));
            |w'.tasks| == |w.tasks| && w'.tasks[id].phase.Done? && w'.tasks[id].phase.out == Raised("RedisError", "")
  {
  }

  /** The result has been sent: an earlier value of the key stays, otherwise this is its value. */
  ghost predicate Sent(c: Config, w: World, w': World, t: Task)
    requires t.phase.Storing?
  {
    var key, kept := NormalForm(c, t.ticket), t.phase.dict - {"cache_hit"};
    && w'.writes == w.writes + [(t.ticket, kept)]
    && w'.store == if key in w.store then w.store else w.store[key := kept]
  }

  /** The ticket ends with its answer if the write returned, and with an exception, sent or not, if it raised. */
  lemma SaveByReply(c: Config, w: World, at: real, id: nat, reply: Reply)
    requires w.now <= at && id < |w.tasks| && w.tasks[id].phase.Storing?
    ensures Enabled(c, w, Event(at, Save(id, reply)))
    ensures var w' := Step(c, w, Event(at, Save(id, reply)));
            var t := w.tasks[id];
            && |w'.tasks| == |w.tasks| && w'.tasks[id].phase.Done?
            && w'.tasks[id].phase.out ==

                 (if reply == Acknowledged then Value(t.phase.dict["cache_hit" := Boolean(false)])
                  else Raised("RedisError", ""))
            && (if reply == Lost then w'.store == w.store && w'.writes == w.writes else Sent(c, w, w', t))
  {
  }

  /** Cancellation ends the ticket, leaves the breaker alone, and may let a write that was under way arrive. */
  lemma CancelExact(c: Config, w: World, at: real, id: nat, written: bool)
    requires w.now <= at && id < |w.tasks| && !w.tasks[id].phase.Done?
    ensures Enabled(c, w, Event(at, Cancel(id, written)))
    ensures var w' := Step(c, w, Event(at, Cancel(id, written)));
            var t := w.tasks[id];
            && |w'.tasks| == |w.tasks| && w'.tasks[id].phase.Done?
            && w'.tasks[id].phase.out == Raised("CancelledError", "")
            && w'.traced.b == w.traced.b && w'.traced.recorded == w.traced.recorded
            && (if t.phase.Storing? && written then Sent(c, w, w', t) else w'.store == w.store && w'.writes == w.writes)
  {
  }

  // ---------- the semaphore, the throttle, the pauses ----------

  /** A slot is held from being let in until the retry loop returns, sleeps included, and not while storing. */
  lemma SlotHeldThroughout(c: Config, start: real, w: World, id: nat)
    requires ConfigOk(c) && Reachable(c, start, w) && id < |w.tasks|
    ensures var p := w.tasks[id].phase;
            && (id in w.gates.slot.holders <==> !(p.Fresh? || p.Missed? || p.QueuedSlot? || p.Storing? || p.Done?))
            && (id in w.gates.pace.holders <==> p.Pacing?)
            && (id in w.gates.probe.holders <==> InCall(p) && (p.route == Some(Probe) || p.route == Some(Locked)))
  {
    ReachableGates(c, start, w);
    assert GateOk(GateOf(w.gates, Slot), ClaimsOf(Slot, w.tasks));
    assert GateOk(GateOf(w.gates, PaceLock), ClaimsOf(PaceLock, w.tasks));
    assert GateOk(GateOf(w.gates, ProbeLock), ClaimsOf(ProbeLock, w.tasks));
  }

  lemma ReachableGates(c: Config, start: real, w: World)
    requires ConfigOk(c) && Reachable(c, start, w)
    ensures GatesOk(c, w)
  {
    ReachableInv(c, start, w);
  }

  /** A ticket takes a free slot at once if nobody is queued before it, and queues otherwise. */
  lemma AskSlotExact(c: Config, w: World, at: real, id: nat)
    requires w.now <= at && id < |w.tasks| && w.tasks[id].phase.Missed?
    ensures Enabled(c, w, Event(at, AskSlot(id)))
    ensures var w' := Step(c, w, Event(at, AskSlot(id)));
            |w'.tasks| == |w.tasks| &&
            if |w.gates.slot.holders| < w.gates.slot.capacity && w.gates.slot.queue == []
            then w'.tasks[id].phase == Ready(1) && id in w'.gates.slot.holders
            else w'.tasks[id].phase == QueuedSlot && w'.gates.slot.queue == w.gates.slot.queue + [id]
  {
  }

  /** Without a minimum interval a call goes out at once; with one it first takes the rate-limit lock. */
  lemma AskPaceExact(c: Config, w: World, at: real, id: nat)
    requires w.now <= at && id < |w.tasks| && w.tasks[id].phase.Launched?
    ensures Enabled(c, w, Event(at, AskPace(id)))
    ensures var w' := Step(c, w, Event(at, AskPace(id)));
            var p, p' := w.tasks[id].phase, w'.tasks[id].phase;
            && |w'.tasks| == |w.tasks| && !p'.Done? && w'.lastCall == w.lastCall
            && (c.minInterval <= 0.0 ==> p' == InFlight(p.k, p.route))
            && (c.minInterval > 0.0 ==>
                  if |w.gates.pace.holders| < w.gates.pace.capacity && w.gates.pace.queue == [] then p'.Pacing?
                  else p' == QueuedPace(p.k, p.route))
  {
  }

  /** The holder of the rate-limit lock may post exactly from one interval after the latest call on. */
  lemma PostsWhenDue(c: Config, start: real, w: World, at: real, id: nat)
    requires ConfigOk(c) && Reachable(c, start, w) && w.now <= at && id < |w.tasks| && w.tasks[id].phase.Pacing?
    ensures Enabled(c, w, Event(at, Post(id))) <==>
              at >= (if w.permits == [] then 0.0 else w.permits[|w.permits| - 1]) + c.minInterval
  {
    ReachablePace(c, start, w);
    assert DueBy(c, w, w.now, w.tasks[id].phase.until);
  }

  lemma ReachablePace(c: Config, start: real, w: World)
    requires ConfigOk(c) && Reachable(c, start, w)
    ensures PaceOk(c, w)
  {
    ReachableInv(c, start, w);
  }

  lemma PostExact(c: Config, w: World, at: real, id: nat)
    requires Enabled(c, w, Event(at, Post(id)))
    ensures var w' := Step(c, w, Event(at, Post(id)));
            var p := w.tasks[id].phase;
            && |w'.tasks| == |w.tasks| && w'.permits == w.permits + [at]
            && w'.tasks[id].phase == InFlight(p.k, p.route)
  {
  }

  /**
   After an attempt the ticket is about to return, or ready for the next attempt at once, or it pauses:
   then the next attempt comes exactly when that much time has passed.
   */
  lemma PauseIsWaited(c: Config, w: World, at: real, id: nat, draw: real)
    requires Enabled(c, w, Event(at, Resolve(id, draw)))
    ensures var w' := Step(c, w, Event(at, Resolve(id, draw)));
            var t := w.tasks[id];
            && |w'.tasks| == |w.tasks|
            && var t' := w'.tasks[id];
               if t'.pauses == t.pauses then t'.phase.Returning? || t'.phase == Ready(t.phase.k + 1)
               else exists s :: t'.pauses == t.pauses + [s] && RestsFor(c, w', id, t.phase.k, at, s)
  {
    var w' := Step(c, w, Event(at, Resolve(id, draw)));
    var t, t' := w.tasks[id], w'.tasks[id];
    var d := Decide(c.retry, t.ticket, t.phase.k, t.phase.outcome, draw);
    if d.Sleep? {
      assert t'.pauses[|t.pauses|] == d.seconds;
      RestEnds(c, w', id, t.phase.k, at, d.seconds);
      assert t'.pauses == t.pauses + [d.seconds] && RestsFor(c, w', id, t.phase.k, at, d.seconds);
    } else {
      assert t'.pauses == t.pauses;
    }
  }

  /** The ticket wakes exactly from `at` + s on, and is then ready for attempt k + 1. */
  ghost predicate RestsFor(c: Config, w: World, id: nat, k: Attempt, at: real, s: real)
    requires id < |w.tasks|
  {
    && w.tasks[id].phase.Resting?
    && forall later: real :: WakesAt(c, w, id, k, later) <==> w.now <= later && at + s <= later
  }

  ghost predicate WakesAt(c: Config, w: World, id: nat, k: Attempt, later: real)
    requires id < |w.tasks|
  {
    && Enabled(c, w, Event(later, Wake(id)))
    && id < |Step(c, w, Event(later, Wake(id))).tasks|
    && Step(c, w, Event(later, Wake(id))).tasks[id].phase == Ready(k + 1)
  }

  lemma RestEnds(c: Config, w: World, id: nat, k: Attempt, at: real, s: real)
    requires id < |w.tasks| && w.tasks[id].phase == Resting(k, at + s)
    ensures RestsFor(c, w, id, k, at, s)
  {
    forall later: real
      ensures WakesAt(c, w, id, k, later) <==> w.now <= later && at + s <= later
    {
      WakeExact(c, w, id, k, at + s, later);
    }
  }

  lemma WakeExact(c: Config, w: World, id: nat, k: Attempt, until: real, later: real)
    requires id < |w.tasks| && w.tasks[id].phase == Resting(k, until)
    ensures WakesAt(c, w, id, k, later) <==> w.now <= later && until <= later
  {
  }

  // ---------- first come, first served ----------

  /** A step keeps the order of those that stay queued, and lets nobody in past an earlier waiter. */
  lemma StepKeepsOrder(c: Config, w: World, e: Event, r: Resource, i: nat, j: nat)
    requires GatesOk(c, w) && Enabled(c, w, e) && Before(GateOf(w.gates, r).queue, i, j)
    ensures var w' := Step(c, w, e);
            && |w.tasks| <= |w'.tasks| && i < |w.tasks| && j < |w.tasks|
            && (i in GateOf(w'.gates, r).queue ==>
                  Before(GateOf(w'.gates, r).queue, i, j) || w'.tasks[j].phase.Done?)
  {
    var g := GateOf(w.gates, r);
    assert GateOk(g, ClaimsOf(r, w.tasks));
    BeforeMembers(g.queue, i, j);
    if !e.action.Spawn? {
      var id, w' := e.action.id, Step(c, w, e);
      StepMoves(c, w, e);
      var now := ClaimOn(r, w'.tasks[id].phase);
      ShiftKeepsOrder(g, ClaimsOf(r, w.tasks), id, now, i, j);
      assert GateOf(w'.gates, r) == Shift(g, id, ClaimOn(r, w.tasks[id].phase), now);
      if id == j && now != Waiting {
        WaiterLeaves(c, w, e, r);
      }
    }
  }

  /** A waiter leaves its queue by being let in or by being cancelled. */
  lemma WaiterLeaves(c: Config, w: World, e: Event, r: Resource)
    requires Enabled(c, w, e) && !e.action.Spawn? && ClaimOn(r, w.tasks[e.action.id].phase) == Waiting
    requires e.action.id < |Step(c, w, e).tasks|
    ensures var p := Step(c, w, e).tasks[e.action.id].phase;
            p.Done? || (match r
                        case Slot => e.action.GrantSlot?
                        case ProbeLock => e.action.GrantProbe?
                        case PaceLock => e.action.GrantPace?)
  {
  }

  /** The run leads from w to w' and never lets the task leave this queue. */
  ghost predicate StaysQueued(c: Config, w: World, run: seq<Event>, w': World, r: Resource, i: nat)
    decreases |run|
  {
    && i in GateOf(w.gates, r).queue
    && if run == [] then w' == w
       else Enabled(c, w, run[0]) && StaysQueued(c, Step(c, w, run[0]), run[1..], w', r, i)
  }

  lemma DoneStays(c: Config, w: World, e: Event, j: nat)
    requires Enabled(c, w, e) && j < |w.tasks| && w.tasks[j].phase.Done?
    ensures j < |Step(c, w, e).tasks| && Step(c, w, e).tasks[j] == w.tasks[j]
  {
    if !e.action.Spawn? {
      StepMoves(c, w, e);
    }
  }

  /**
   Of two waiters on one gate the one that queued first is let in first: as long as it stays queued, the
   other one is still behind it, or done by cancellation.
   */
  lemma {:induction false} FirstComeFirstServed(c: Config, w: World, run: seq<Event>, w': World, r: Resource, i: nat,
                                                j: nat)
    requires GatesOk(c, w) && StaysQueued(c, w, run, w', r, i)
    requires j < |w.tasks| && (Before(GateOf(w.gates, r).queue, i, j) || w.tasks[j].phase.Done?)
    ensures j < |w'.tasks| && ClaimOn(r, w'.tasks[j].phase) != Holding
    ensures Before(GateOf(w'.gates, r).queue, i, j) || w'.tasks[j].phase.Done?
    decreases |run|
  {
    if run == [] {
      if !w.tasks[j].phase.Done? {
        QueuedIsWaiting(c, w, r, i, j);
      }
    } else {
      var v := Step(c, w, run[0]);
      StepKeepsGates(c, w, run[0]);
      if w.tasks[j].phase.Done? {
        DoneStays(c, w, run[0], j);
      } else {
        StepKeepsOrder(c, w, run[0], r, i, j);
      }
      FirstComeFirstServed(c, v, run[1..], w', r, i, j);
    }
  }

  lemma QueuedIsWaiting(c: Config, w: World, r: Resource, i: nat, j: nat)
    requires GatesOk(c, w) && Before(GateOf(w.gates, r).queue, i, j)
    ensures j < |w.tasks| && ClaimOn(r, w.tasks[j].phase) == Waiting
  {
    assert GateOk(GateOf(w.gates, r), ClaimsOf(r, w.tasks));
    BeforeMembers(GateOf(w.gates, r).queue, i, j);
  }

  /** Who starts to wait goes to the end of the line. */
  lemma NewcomerIsLast(c: Config, w: World, e: Event, r: Resource, i: nat)
    requires GatesOk(c, w) && Enabled(c, w, e) && !e.action.Spawn? && i in GateOf(w.gates, r).queue
    requires e.action.id !in GateOf(w.gates, r).queue
    ensures var queue := GateOf(Step(c, w, e).gates, r).queue;
            e.action.id in queue ==> Before(queue, i, e.action.id)
  {
    var g, id, w' := GateOf(w.gates, r), e.action.id, Step(c, w, e);
    assert GateOk(g, ClaimsOf(r, w.tasks));
    StepMoves(c, w, e);
    StepKeepsGates(c, w, e);
    assert GateOk(GateOf(w'.gates, r), ClaimsOf(r, w'.tasks));
    if id in GateOf(w'.gates, r).queue {
      JoinsLast(g, id, ClaimOn(r, w.tasks[id].phase), ClaimOn(r, w'.tasks[id].phase), i);
    }
  }
}
