/** What holds in every world that any run can reach. */
module PipelineSafety {
  import opened Common
  import opened Records
  import opened CircuitBreakers
  import opened BreakerHistory
  import opened Retry
  import opened Gates
  import opened Pipeline
  import opened PipelineInvariant

  ghost predicate Reachable(c: Config, start: real, w: World) {
    exists run :: Leads(c, Init(c, start), run, w)
  }

  lemma LeadsFirst(c: Config, w: World, run: seq<Event>, w': World)
    requires run != [] && Enabled(c, w, run[0]) && Leads(c, Step(c, w, run[0]), run[1..], w')
    ensures Leads(c, w, run, w')
  {
  }

  lemma RestOf(run: seq<Event>, more: seq<Event>)
    requires run != []
    ensures run + more != [] && (run + more)[0] == run[0] && (run + more)[1..] == run[1..] + more
  {
  }

  lemma {:induction false} LeadsThen(c: Config, w: World, run: seq<Event>, v: World, more: seq<Event>, w': World)
    requires Leads(c, w, run, v) && Leads(c, v, more, w')
    ensures Leads(c, w, run + more, w')
    decreases |run|
  {
    if run == [] {
      assert run + more == more;
    } else {
      RestOf(run, more);
      LeadsThen(c, Step(c, w, run[0]), run[1..], v, more, w');
      LeadsFirst(c, w, run + more, w');
    }
  }

  lemma LeadsOn(c: Config, w: World, run: seq<Event>, v: World, e: Event)
    requires Leads(c, w, run, v) && Enabled(c, v, e)
    ensures Leads(c, w, run + [e], Step(c, v, e))
  {
    assert Leads(c, Step(c, v, e), [e][1..], Step(c, v, e));
    LeadsThen(c, w, run, v, [e], Step(c, v, e));
  }

  lemma ReachableOn(c: Config, start: real, w: World, e: Event)
    requires Reachable(c, start, w) && Enabled(c, w, e)
    ensures Reachable(c, start, Step(c, w, e))
  {
    var run :| Leads(c, Init(c, start), run, w);
    LeadsOn(c, Init(c, start), run, w, e);
  }

  lemma ReachableInv(c: Config, start: real, w: World)
    requires ConfigOk(c) && Reachable(c, start, w)
    ensures Inv(c, w)
  {
    InitInv(c, start);
    var run :| Leads(c, Init(c, start), run, w);
    RunKeepsInv(c, Init(c, start), run, w);
  }

  // ---------- the breaker ----------

  /**
   In every interleaving no wrapped call starts while Open, and none starts sooner than the
   recovery time after any opening, callers queued on the probe lock included.
   */
  lemma OpenDwell(c: Config, start: real, w: World, i: int, j: int)
    requires ConfigOk(c) && Reachable(c, start, w)
    requires 0 <= i < j < |w.traced.marks| && w.traced.marks[i].Opened? && w.traced.marks[j].Started?
    ensures w.traced.marks[j].during != Open
    ensures w.traced.marks[i].at + c.breaker.recovery <= w.traced.marks[j].at
  {
    ReachableInv(c, start, w);
  }

  /** At most one wrapped call is on the probe path, and it holds the probe lock, cancellations included. */
  lemma ProbeExclusive(c: Config, start: real, w: World, i: nat, j: nat)
    requires ConfigOk(c) && Reachable(c, start, w)
    requires i < |w.tasks| && j < |w.tasks| && OnProbe(w.tasks[i].phase) && OnProbe(w.tasks[j].phase)
    ensures i == j && w.gates.probe.holders == {i}
  {
    ReachableInv(c, start, w);
    SoleHolder(c, w, ProbeLock, i, j);
    ProbeHoldsLock(c, w, i);
  }

  lemma ProbeHoldsLock(c: Config, w: World, probe: nat)
    requires ConfigOk(c) && Inv(c, w) && probe < |w.tasks| && OnProbe(w.tasks[probe].phase)
    ensures w.gates.probe == Gate(1, {probe}, w.gates.probe.queue) && probe !in w.gates.probe.queue
  {
    var g := GateOf(w.gates, ProbeLock);
    assert GateOk(g, ClaimsOf(ProbeLock, w.tasks));
    forall h | h in g.holders
      ensures h == probe
    {
      SoleHolder(c, w, ProbeLock, probe, h);
    }
  }

  /** The instants at which probes started. */
  function ProbeTimes(marks: seq<Mark>): seq<real> {
    if marks == [] then []
    else
      var m := marks[|marks| - 1];
      ProbeTimes(marks[..|marks| - 1]) + (if m.Started? && m.during == HalfOpen then [m.at] else [])
  }

  ghost predicate NoneAbandoned(marks: seq<Mark>) {
    forall i :: 0 <= i < |marks| ==> !marks[i].Abandoned?
  }

  lemma {:induction false} LatestProbe(marks: seq<Mark>) returns (i: int)
    requires ProbeTimes(marks) != []
    ensures 0 <= i < |marks| && IsProbeStart(marks[i]) && marks[i].at == ProbeTimes(marks)[|ProbeTimes(marks)| - 1]
  {
    var n := |marks| - 1;
    if IsProbeStart(marks[n]) {
      i := n;
    } else {
      i := LatestProbe(marks[..n]);
    }
  }

  lemma {:induction false} ProbeTimesSpaced(s: Settings, marks: seq<Mark>)
    requires Dwells(s, marks) && ProbesSeparated(marks) && InOrder(marks) && NoneAbandoned(marks)
    ensures Spaced(ProbeTimes(marks), s.recovery)
  {
    if marks != [] {
      var n := |marks| - 1;
      var front := marks[..n];
      FrontSeparated(marks);
      ProbeTimesSpaced(s, front);
      if IsProbeStart(marks[n]) && ProbeTimes(front) != [] {
        var i := LatestProbe(front);
        ProbeGap(s, marks, i, n);
      }
    }
  }

  lemma FrontSeparated(marks: seq<Mark>)
    requires marks != [] && ProbesSeparated(marks)
    ensures ProbesSeparated(marks[..|marks| - 1])
  {
    var front := marks[..|marks| - 1];
    assert marks == front + [marks[|marks| - 1]];
    forall i, j | 0 <= i < j < |front| && IsProbeStart(front[i]) && IsProbeStart(front[j])
      ensures Interrupted(front, i, j)
    {
      assert IsProbeStart(marks[i]) && IsProbeStart(marks[j]);
      MarkAppended(front, marks[|marks| - 1], i, j);
    }
  }

  /**
   Over every run without a cancelled probe, a time span L sees at most floor(L / recovery) + 1
   calls started in Half-Open, even when stale completions end the episodes early.
   */
  lemma ProbeRateBound(c: Config, start: real, w: World, from: real, span: real)
    requires ConfigOk(c) && Reachable(c, start, w) && span >= 0.0
    requires NoneAbandoned(w.traced.marks)
    ensures Spaced(ProbeTimes(w.traced.marks), c.breaker.recovery)
    ensures CountWithin(ProbeTimes(w.traced.marks), from, from + span) <= (span / c.breaker.recovery).Floor + 1
  {
    ReachableInv(c, start, w);
    ProbeTimesSpaced(c.breaker, w.traced.marks);
    RateBound(ProbeTimes(w.traced.marks), c.breaker.recovery, from, span);
  }

  /** Between two probes, cancellations or not, the recovery time passes or a probe was cancelled. */
  lemma ProbesApartUnlessCancelled(c: Config, start: real, w: World, i: int, j: int)
    requires ConfigOk(c) && Reachable(c, start, w)
    requires 0 <= i < j < |w.traced.marks| && IsProbeStart(w.traced.marks[i]) && IsProbeStart(w.traced.marks[j])
    ensures
      || w.traced.marks[i].at + c.breaker.recovery <= w.traced.marks[j].at
      || exists m :: i < m < j && w.traced.marks[m].Abandoned?
  {
    ReachableInv(c, start, w);
    if forall m :: i < m < j ==> !w.traced.marks[m].Abandoned? {
      ProbeGap(c.breaker, w.traced.marks, i, j);
    }
  }

  /** A cancelled probe leaves Half-Open as it is, and the next in line starts at the same instant. */
  lemma CancelledProbeLeavesNoGap(c: Config, w: World, at: real, probe: nat, next: nat)
    requires ConfigOk(c) && Inv(c, w) && w.now <= at && w.traced.b.state == HalfOpen
    requires probe < |w.tasks| && OnProbe(w.tasks[probe].phase)
    requires w.gates.probe.queue != [] && w.gates.probe.queue[0] == next
    ensures var cancel, grant := Event(at, Cancel(probe, false)), Event(at, GrantProbe(next));
            && Enabled(c, w, cancel) && Enabled(c, Step(c, w, cancel), grant)
            && Step(c, Step(c, w, cancel), grant).traced.marks
                 == w.traced.marks + [Abandoned(at), Started(at, HalfOpen)]
  {
    NextIsWaiting(c, w, next);
    CancelFreesLock(c, w, at, probe);
    CancelThenGrant(c, w, at, probe, next);
  }

  lemma CancelledProbeRun(c: Config, start: real, w: World, at: real, probe: nat, next: nat) returns (w': World)
    requires ConfigOk(c) && Reachable(c, start, w) && w.now <= at && w.traced.b.state == HalfOpen
    requires probe < |w.tasks| && OnProbe(w.tasks[probe].phase)
    requires w.gates.probe.queue != [] && w.gates.probe.queue[0] == next
    ensures Reachable(c, start, w') && w'.traced.marks == w.traced.marks + [Abandoned(at), Started(at, HalfOpen)]
  {
    ReachableInv(c, start, w);
    CancelledProbeLeavesNoGap(c, w, at, probe, next);
    var cancel, grant := Event(at, Cancel(probe, false)), Event(at, GrantProbe(next));
    ReachableOn(c, start, w, cancel);
    ReachableOn(c, start, Step(c, w, cancel), grant);
    w' := Step(c, Step(c, w, cancel), grant);
  }

  lemma CancelThenGrant(c: Config, w: World, at: real, probe: nat, next: nat)
    requires w.now <= at && w.traced.b.state == HalfOpen
    requires probe < |w.tasks| && next < |w.tasks| && probe != next
    requires !w.tasks[probe].phase.Done? && w.tasks[next].phase.QueuedProbe?
    requires var w' := CancelStep(c, w, at, probe, false);
             && NextInLine(w'.gates.probe, next)
             && w'.traced == w.traced.(marks := w.traced.marks + [Abandoned(at)])
    ensures var cancel, grant := Event(at, Cancel(probe, false)), Event(at, GrantProbe(next));
            && Enabled(c, w, cancel) && Enabled(c, Step(c, w, cancel), grant)
            && Step(c, Step(c, w, cancel), grant).traced.marks
                 == w.traced.marks + [Abandoned(at), Started(at, HalfOpen)]
  {
    CancelIs(c, w, at, probe, next);
    GrantStarts(c, CancelStep(c, w, at, probe, false), at, next);
  }

  lemma CancelIs(c: Config, w: World, at: real, probe: nat, next: nat)
    requires w.now <= at && probe < |w.tasks| && next < |w.tasks| && probe != next && !w.tasks[probe].phase.Done?
    ensures var cancel, w' := Event(at, Cancel(probe, false)), CancelStep(c, w, at, probe, false);
            && Enabled(c, w, cancel) && Step(c, w, cancel) == w' && w'.now == at
            && |w'.tasks| == |w.tasks| && w'.tasks[next] == w.tasks[next]
  {
  }

  lemma GrantStarts(c: Config, w: World, at: real, next: nat)
    requires w.now <= at && w.traced.b.state == HalfOpen
    requires next < |w.tasks| && w.tasks[next].phase.QueuedProbe? && NextInLine(w.gates.probe, next)
    ensures Enabled(c, w, Event(at, GrantProbe(next)))
    ensures Step(c, w, Event(at, GrantProbe(next))).traced.marks == w.traced.marks + [Started(at, HalfOpen)]
  {
  }

  lemma NextIsWaiting(c: Config, w: World, next: nat)
    requires Inv(c, w) && w.gates.probe.queue != [] && w.gates.probe.queue[0] == next
    ensures next < |w.tasks| && w.tasks[next].phase.QueuedProbe?
  {
    var g := GateOf(w.gates, ProbeLock);
    assert GateOk(g, ClaimsOf(ProbeLock, w.tasks));
    assert next in g.queue;
    assert ClaimOn(ProbeLock, w.tasks[next].phase) == Waiting;
  }

  lemma CancelFreesLock(c: Config, w: World, at: real, probe: nat)
    requires ConfigOk(c) && Inv(c, w) && probe < |w.tasks| && OnProbe(w.tasks[probe].phase)
    ensures var w' := CancelStep(c, w, at, probe, false);
            && w'.gates.probe == Gate(1, {}, w.gates.probe.queue)
            && w'.traced == w.traced.(marks := w.traced.marks + [Abandoned(at)])
            && w'.tasks == w.tasks[probe := w'.tasks[probe]]
  {
    ProbeHoldsLock(c, w, probe);
    WithoutAbsent(w.gates.probe.queue, probe);
    assert {probe} - {probe} == {};
  }

  /** In every run the deque is the in-window part of the log, and Closed means below the threshold. */
  lemma WindowIsLog(c: Config, start: real, w: World)
    requires ConfigOk(c) && Reachable(c, start, w)
    ensures w.traced.b.failures == Since(w.traced.recorded, w.traced.cutoff)
    ensures Sorted(w.traced.recorded) && Sorted(w.traced.b.failures)
    ensures w.traced.b.state == Closed ==> |w.traced.b.failures| < c.breaker.threshold
    ensures w.traced.b.openedAt == None <==> w.traced.b.state == Closed
  {
    ReachableInv(c, start, w);
    SinceMembers(w.traced.recorded, w.traced.cutoff);
  }

  lemma FinishEdges(s: Settings, b: Breaker, path: Path, e: CircuitBreakers.Ending, r: Readings, again: Readings)
    ensures var b' := Finish(s, b, path, e, r, again);
            b'.state == b.state || Edge(b.state, b'.state)
  {
  }

  lemma AttemptEdges(c: Config, w: World, at: real, id: nat)
    requires id < |w.tasks| && w.tasks[id].phase.Ready?
    ensures var b' := AttemptStep(c, w, at, id).traced.b;
            b' == w.traced.b
            || (c.breakerOn && RecoveryDue(c.breaker, w.traced.b, at) && b' == w.traced.b.(state := HalfOpen))
  {
  }

  /** The actions that neither call the breaker nor end a wrapped call leave it alone. */
  lemma BreakerFrame(c: Config, w: World, e: Event)
    requires Enabled(c, w, e) && !e.action.Attempt? && !e.action.Answer? && !e.action.Cancel?
    ensures Step(c, w, e).traced.b == w.traced.b
  {
  }

  /**
   Only the four intended edges occur, and each has one cause: Open to Half-Open happens at a call
   once the recovery time is over, every other edge at the end of a wrapped call.
   */
  lemma OnlyFourEdges(c: Config, w: World, e: Event)
    requires Enabled(c, w, e)
    ensures var x, y := w.traced.b.state, Step(c, w, e).traced.b.state;
            x != y ==>
              && Edge(x, y)
              && (x == Open <==> e.action.Attempt?)
              && (x == Open ==> RecoveryDue(c.breaker, w.traced.b, e.at))
              && (x != Open ==> e.action.Answer?)
              && (y == Closed ==> e.action.outcome.Answered?)
              && (y == Open ==> !e.action.outcome.Answered?)
  {
    match e.action
    case Attempt(id) => AttemptEdges(c, w, e.at, id);
    case Answer(id, o, r, again) => AnswerEdges(c, w, e.at, e.action);
    case Cancel(id, written) => CancelEdges(c, w, e.at, id, written);
    case _ => BreakerFrame(c, w, e);
  }

  lemma AnswerEdges(c: Config, w: World, at: real, a: Action)
    requires a.Answer? && a.id < |w.tasks| && w.tasks[a.id].phase.InFlight?
    ensures var x, y := w.traced.b.state, AnswerStep(c, w, at, a).traced.b.state;
            x != y ==> Edge(x, y) && x != Open && (y == Closed <==> a.outcome.Answered?)
  {
    match w.tasks[a.id].phase.route
    case None =>
    case Some(path) => FinishEdges(c.breaker, w.traced.b, path, Pipeline.Ending(a.outcome), a.r, a.again);
  }

  lemma CancelEdges(c: Config, w: World, at: real, id: nat, written: bool)
    requires id < |w.tasks|
    ensures CancelStep(c, w, at, id, written).traced.b == w.traced.b
  {
  }

  /** A caller that arrives during a probe is not refused: it waits for the probe lock. */
  lemma ArrivalDuringProbeWaits(c: Config, w: World, at: real, id: nat, probe: nat)
    requires GatesOk(c, w) && c.breakerOn && w.traced.b.state == HalfOpen
    requires probe < |w.tasks| && OnProbe(w.tasks[probe].phase)
    requires id < |w.tasks| && w.tasks[id].phase.Ready?
    ensures AttemptStep(c, w, at, id).tasks[id].phase == QueuedProbe(w.tasks[id].phase.k)
  {
    NoRoomWhenHeld(c, w, ProbeLock, probe);
  }

  /** A waiter given the lock is refused if and only if the breaker is open again by then. */
  lemma WaiterRefusedIffOpen(c: Config, w: World, at: real, id: nat)
    requires id < |w.tasks| && w.tasks[id].phase.QueuedProbe?
    ensures var p := UnderLock(w, at, id).tasks[id].phase;
            && (p.Settled? && p.outcome == Refused <==> w.traced.b.state == Open)
            && (OnProbe(p) <==> w.traced.b.state == HalfOpen)
  {
  }

  // ---------- batches ----------

  /** A batch is submitted: its tickets join the machine in input order. */
  function Joined(w: World, at: real, tickets: seq<string>): World {
    w.(now := if tickets == [] then w.now else at,
       tasks := w.tasks + seq(|tickets|, i requires 0 <= i < |tickets| => NewTask(tickets[i])))
  }

  lemma SpawnIs(c: Config, w: World, at: real, ticket: string)
    requires w.now <= at
    ensures Enabled(c, w, Event(at, Spawn(ticket)))
    ensures Step(c, w, Event(at, Spawn(ticket))) == w.(now := at, tasks := w.tasks + [NewTask(ticket)])
  {
  }

  lemma JoinedMore(w: World, at: real, tickets: seq<string>)
    requires tickets != []
    ensures var n := |tickets| - 1;
            var v := Joined(w, at, tickets[..n]);
            Joined(w, at, tickets) == v.(now := at, tasks := v.tasks + [NewTask(tickets[n])])
  {
  }

  lemma {:induction false} JoinedIsReachable(c: Config, start: real, w: World, at: real, tickets: seq<string>)
    requires Reachable(c, start, w) && w.now <= at
    ensures Reachable(c, start, Joined(w, at, tickets))
  {
    if tickets == [] {
      assert Joined(w, at, tickets) == w;
    } else {
      var n := |tickets| - 1;
      var v := Joined(w, at, tickets[..n]);
      JoinedIsReachable(c, start, w, at, tickets[..n]);
      SpawnIs(c, v, at, tickets[n]);
      JoinedMore(w, at, tickets);
      ReachableOn(c, start, v, Event(at, Spawn(tickets[n])));
    }
  }

  lemma StepKeepsTickets(c: Config, w: World, e: Event)
    requires Enabled(c, w, e)
    ensures |w.tasks| <= |Step(c, w, e).tasks|
    ensures forall i :: 0 <= i < |w.tasks| ==> Step(c, w, e).tasks[i].ticket == w.tasks[i].ticket
  {
    if !e.action.Spawn? {
      StepMoves(c, w, e);
    }
  }

  /** Tickets keep their places, whatever else runs and arrives. */
  lemma {:induction false} RunKeepsTickets(c: Config, w: World, run: seq<Event>, w': World)
    requires Leads(c, w, run, w')
    ensures |w.tasks| <= |w'.tasks|
    ensures forall i :: 0 <= i < |w.tasks| ==> w'.tasks[i].ticket == w.tasks[i].ticket
    decreases |run|
  {
    if run != [] {
      StepKeepsTickets(c, w, run[0]);
      RunKeepsTickets(c, Step(c, w, run[0]), run[1..], w');
    }
  }

  lemma ReachableThen(c: Config, start: real, w: World, run: seq<Event>, w': World)
    requires Reachable(c, start, w) && Leads(c, w, run, w')
    ensures Reachable(c, start, w')
  {
    var before :| Leads(c, Init(c, start), before, w);
    LeadsThen(c, Init(c, start), before, w, run, w');
  }

  // ---------- the semaphore and the throttle ----------

  /** The tickets whose wrapped call has started and not ended. */
  ghost function Calling(tasks: seq<Task>): set<nat> {
    set i: nat | i < |tasks| && InCall(tasks[i].phase)
  }

  /** Across all jobs no more API calls are in flight than the semaphore has slots. */
  lemma ConcurrencyCap(c: Config, start: real, w: World)
    requires ConfigOk(c) && Reachable(c, start, w)
    ensures |Calling(w.tasks)| <= c.slots
  {
    ReachableInv(c, start, w);
    assert GateOk(GateOf(w.gates, Slot), ClaimsOf(Slot, w.tasks));
    assert Calling(w.tasks) <= w.gates.slot.holders;
    SubsetSmaller(Calling(w.tasks), w.gates.slot.holders);
  }

  /** In every interleaving throttled calls are spaced, so a window of length L holds few of them. */
  lemma ThrottleRateBound(c: Config, start: real, w: World, from: real, span: real)
    requires ConfigOk(c) && Reachable(c, start, w) && span >= 0.0 && c.minInterval > 0.0
    ensures Spaced(w.permits, c.minInterval)
    ensures CountWithin(w.permits, from, from + span) <= (span / c.minInterval).Floor + 1
  {
    ReachableInv(c, start, w);
    RateBound(w.permits, c.minInterval, from, span);
  }

  // ---------- the cache ----------

  lemma {:induction false} RunExtendsStore(c: Config, w: World, run: seq<Event>, w': World)
    requires ConfigOk(c) && Inv(c, w) && Leads(c, w, run, w')
    ensures Extends(w.store, w'.store)
    decreases |run|
  {
    if run != [] {
      StepKeepsStore(c, w, run[0]);
      StepKeepsInv(c, w, run[0]);
      RunExtendsStore(c, Step(c, w, run[0]), run[1..], w');
    }
  }

  /** A key's value never changes after its first write, over any continuation of any run. */
  lemma CacheValuesAreStable(c: Config, start: real, w: World, run: seq<Event>, w': World, key: string)
    requires ConfigOk(c) && Reachable(c, start, w) && Leads(c, w, run, w') && key in w.store
    ensures key in w'.store && w'.store[key] == w.store[key]
  {
    ReachableInv(c, start, w);
    RunExtendsStore(c, w, run, w');
  }

  lemma HitsAreStored(c: Config, start: real, w: World, id: nat)
    requires ConfigOk(c) && Reachable(c, start, w)
    requires id < |w.tasks| && w.tasks[id].phase.Done? && w.tasks[id].phase.origin == FromCache
    ensures HitOk(c, w.store, w.tasks[id])
  {
    ReachableInv(c, start, w);
  }

  /** Every hit is the first result stored for a ticket with the same normal form, and no error. */
  lemma HitsAreFirstSuccess(c: Config, start: real, w: World, id: nat)
    requires ConfigOk(c) && Reachable(c, start, w)
    requires id < |w.tasks| && w.tasks[id].phase.Done? && w.tasks[id].phase.origin == FromCache
    ensures exists i :: FirstWrite(c, w.writes, NormalForm(c, w.tasks[id].ticket), i)
                        && w.tasks[id].phase.out == Tagged(Value(w.writes[i].1), true)
                        && Lacks(w.writes[i].1, "error")
  {
    ReachableInv(c, start, w);
    assert HitOk(c, w.store, w.tasks[id]);
    var key := NormalForm(c, w.tasks[id].ticket);
    assert ExplainedBy(c, w.store, w.writes, key);
    var i :| FirstWrite(c, w.writes, key, i) && w.store[key] == w.writes[i].1;
  }

  // ---------- the machine and the sequential loop ----------

  /**
   However the tickets interleave, a ticket that was answered by calls got exactly the result, made
   exactly the attempts and took exactly the pauses that the sequential retry loop computes from the
   ticket's own outcomes and draws.
   */
  lemma InterleavingRefinesLoop(c: Config, start: real, w: World, id: nat, answers: seq<Outcome>, draws: seq<real>)
    requires ConfigOk(c) && Reachable(c, start, w)
    requires id < |w.tasks| && w.tasks[id].phase.Done? && w.tasks[id].phase.origin.FromCalls?
    requires |answers| == |draws| == c.retry.maxRetries
    requires w.tasks[id].trail <= answers && w.tasks[id].draws <= draws
    ensures var t := RunFrom(c.retry, w.tasks[id].ticket, answers, draws, 1);
            && t.attempts == |w.tasks[id].trail|
            && t.sleeps == w.tasks[id].pauses
            && t.raw == w.tasks[id].phase.origin.raw
            && w.tasks[id].phase.out == Tagged(t.raw, false)
  {
    ReachableTask(c, start, w, id);
    var task := w.tasks[id];
    VerdictIsLoop(c, task.ticket, task.trail, task.phase.origin.raw, answers, draws);
    PausesAreSleeps(c.retry, task.ticket, task.trail, task.draws, answers, draws);
  }

  lemma ReachableTask(c: Config, start: real, w: World, id: nat)
    requires ConfigOk(c) && Reachable(c, start, w) && id < |w.tasks|
    ensures TaskOk(c, w.tasks[id]) && PauseOk(c, w.tasks[id])
  {
    ReachableInv(c, start, w);
  }

  lemma PausesAreSleeps(c: RetrySettings, ticket: string, trail: seq<Outcome>, drawn: seq<real>,
                        answers: seq<Outcome>, draws: seq<real>)
    requires c.maxRetries >= 1 && |answers| == |draws| == c.maxRetries
    requires |trail| == |drawn| && trail <= answers && drawn <= draws
    requires RunFrom(c, ticket, answers, draws, 1).attempts == |trail|
    ensures RunFrom(c, ticket, answers, draws, 1).sleeps == PausesOf(c, ticket, trail, drawn)
  {
    SleepsArePauses(c, ticket, answers, draws, 1);
    PausesIgnoreTheRest(c, ticket, trail, answers, drawn);
    assert draws[..|trail|] == drawn;
  }

  /**
   The geometric time bound in every interleaving: a ticket answered by k attempts, none of which
   was given a delay to wait before the next, paused for at most 1.2 * base * (2^(k-1) - 1), and for
   at least 0.8 times that if every attempt but the last was one that pauses.
   */
  lemma PauseTimeBound(c: Config, start: real, w: World, id: nat)
    requires ConfigOk(c) && Reachable(c, start, w) && c.retry.backoffBase >= 0.0
    requires id < |w.tasks| && w.tasks[id].phase.Done? && w.tasks[id].phase.origin.FromCalls?
    requires NoDelayNamed(w.tasks[id].trail, 1, |w.tasks[id].trail|)
    ensures var t := w.tasks[id];
            && 1 <= |t.trail| <= c.retry.maxRetries
            && Sum(t.pauses) <= 1.2 * TotalBackoff(c.retry, |t.trail|)
                 <= 1.2 * TotalBackoff(c.retry, c.retry.maxRetries)
            && (AllPause(t.trail, 1, |t.trail|) ==>
                  Sum(t.pauses) >= 0.8 * TotalBackoff(c.retry, |t.trail|))
  {
    ReachableTask(c, start, w, id);
    var t := w.tasks[id];
    var rest := c.retry.maxRetries - |t.trail|;
    var answers := t.trail + seq(rest, _ => Unexpected);
    var draws := t.draws + seq(rest, _ => 0.0);
    InterleavingRefinesLoop(c, start, w, id, answers, draws);
    PaddedBound(c.retry, t, answers, draws);
  }

  lemma PaddedBound(c: RetrySettings, t: Task, answers: seq<Outcome>, draws: seq<real>)
    requires c.maxRetries >= 1 && c.backoffBase >= 0.0 && |answers| == |draws| == c.maxRetries
    requires t.trail <= answers && NoDelayNamed(t.trail, 1, |t.trail|)
    requires forall k :: 0 <= k < |draws| ==> IsDraw(draws[k])
    requires var r := RunFrom(c, t.ticket, answers, draws, 1); r.attempts == |t.trail| && r.sleeps == t.pauses
    ensures 1 <= |t.trail| <= c.maxRetries
    ensures Sum(t.pauses) <= 1.2 * TotalBackoff(c, |t.trail|) <= 1.2 * TotalBackoff(c, c.maxRetries)
    ensures AllPause(t.trail, 1, |t.trail|) ==>
              Sum(t.pauses) >= 0.8 * TotalBackoff(c, |t.trail|)
  {
    var n := |t.trail|;
    assert forall k :: 0 <= k < n ==> answers[k] == t.trail[k];
    RetryTimeBound(c, t.ticket, answers, draws);
  }

  lemma VerdictIsLoop(c: Config, ticket: string, trail: seq<Outcome>, raw: Raw, answers: seq<Outcome>, draws: seq<real>)
    requires ConfigOk(c) && Verdict(c, ticket, trail, raw)
    requires |answers| == |draws| == c.retry.maxRetries && trail <= answers
    ensures var t := RunFrom(c.retry, ticket, answers, draws, 1);
            t.attempts == |trail| && t.raw == raw
  {
    var n := |trail|;
    if Decisive(c.retry, n, trail[n - 1]) {
      TrailIsUndecided(c, trail, answers, n);
      FirstDecisiveFrom(c.retry, ticket, answers, draws, 1, n);
      ReturnIgnoresDraw(c.retry, ticket, n, answers[n - 1], draws[n - 1]);
    } else {
      TrailIsUndecided(c, trail, answers, n + 1);
      FirstDecisiveFrom(c.retry, ticket, answers, draws, 1, n + 1);
    }
  }

  lemma TrailIsUndecided(c: Config, trail: seq<Outcome>, answers: seq<Outcome>, first: nat)
    requires 1 <= |trail| <= c.retry.maxRetries == |answers| && trail <= answers
    requires Undecided(c, trail[..|trail| - 1])
    requires first == (if Decisive(c.retry, |trail|, trail[|trail| - 1]) then |trail| else |trail| + 1)
    requires first == |trail| + 1 ==> |trail| == c.retry.maxRetries
    ensures FirstDecisive(c.retry, answers, 1, first)
  {
    var n := |trail|;
    forall k | 0 <= k < first - 1
      ensures !Decisive(c.retry, k + 1, answers[k])
    {
      assert answers[k] == trail[k];
      if k < n - 1 {
        assert trail[..n - 1][k] == trail[k];
      }
    }
  }
}
