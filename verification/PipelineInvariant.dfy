/** What every step of the machine keeps. */
module PipelineInvariant {
  import opened Common
  import opened Records
  import opened CircuitBreakers
  import opened BreakerHistory
  import opened Retry
  import opened Gates
  import opened Pipeline
  import Cache

  // ---------- gates ----------

  function ClaimsOf(r: Resource, tasks: seq<Task>): (claims: seq<Claim>)
    ensures |claims| == |tasks|
    ensures forall i :: 0 <= i < |tasks| ==> claims[i] == ClaimOn(r, tasks[i].phase)
  {
    seq(|tasks|, i requires 0 <= i < |tasks| => ClaimOn(r, tasks[i].phase))
  }

  ghost predicate GatesOk(c: Config, w: World) {
    && w.gates.slot.capacity == c.slots && w.gates.probe.capacity == 1 && w.gates.pace.capacity == 1
    && (forall r: Resource :: GateOk(GateOf(w.gates, r), ClaimsOf(r, w.tasks)))
  }

  predicate MayMove(w: World, id: nat, p: Phase)
    requires id < |w.tasks|
  {
    var before := w.tasks[id].phase;
    && MayShift(w.gates.slot, id, ClaimOn(Slot, before), ClaimOn(Slot, p))
    && MayShift(w.gates.probe, id, ClaimOn(ProbeLock, before), ClaimOn(ProbeLock, p))
    && MayShift(w.gates.pace, id, ClaimOn(PaceLock, before), ClaimOn(PaceLock, p))
  }

  /** Only the gates and the phases matter: `w'` differs from `w` by one permitted move. */
  ghost predicate Moved(w: World, w': World, id: nat) {
    && id < |w.tasks| == |w'.tasks|
    && (forall i :: 0 <= i < |w.tasks| && i != id ==> w'.tasks[i] == w.tasks[i])
    && w'.tasks[id].ticket == w.tasks[id].ticket
    && MayMove(w, id, w'.tasks[id].phase)
    && w'.gates == ShiftAll(w.gates, id, w.tasks[id].phase, w'.tasks[id].phase)
  }

  lemma MovedKeepsGates(c: Config, w: World, w': World, id: nat)
    requires GatesOk(c, w) && Moved(w, w', id)
    ensures GatesOk(c, w')
  {
    forall r: Resource
      ensures GateOk(GateOf(w'.gates, r), ClaimsOf(r, w'.tasks))
    {
      var claims := ClaimsOf(r, w.tasks);
      var now := ClaimOn(r, w'.tasks[id].phase);
      assert GateOk(GateOf(w.gates, r), claims);
      ShiftKeepsOk(GateOf(w.gates, r), claims, id, now);
      assert ClaimsOf(r, w'.tasks) == claims[id := now];
    }
  }

  /** The same worlds, as far as gates and phases go. */
  ghost predicate Alike(w: World, v: World, id: nat) {
    && v.gates == w.gates && id < |w.tasks| == |v.tasks| && v.tasks == w.tasks[id := v.tasks[id]]
    && v.tasks[id].ticket == w.tasks[id].ticket && v.tasks[id].phase == w.tasks[id].phase
  }

  lemma MoveIsMoved(w: World, v: World, at: real, id: nat, p: Phase)
    requires Alike(w, v, id) && MayMove(w, id, p)
    ensures Moved(w, Move(v, at, id, p), id)
  {
  }

  lemma SettleIsMoved(w: World, v: World, at: real, id: nat, o: Outcome)
    requires v.tasks == w.tasks && v.gates == w.gates && id < |w.tasks|
    requires InCall(w.tasks[id].phase) || w.tasks[id].phase.Ready? || w.tasks[id].phase.QueuedProbe?
    ensures Moved(w, Settle(v, at, id, o), id)
  {
    MoveIsMoved(w, v, at, id, Settled(w.tasks[id].phase.k, o));
  }

  lemma UnderLockMoves(w: World, v: World, at: real, id: nat)
    requires v.tasks == w.tasks && v.gates == w.gates && id < |w.tasks|
    requires w.tasks[id].phase.Ready? || w.tasks[id].phase.QueuedProbe?
    requires if w.tasks[id].phase.Ready? then FreeFor(w.gates.probe) else NextInLine(w.gates.probe, id)
    ensures Moved(w, UnderLock(v, at, id), id)
  {
    match AdmitUnderLock(v.traced.b)
    case Start(path) =>
      MoveIsMoved(w, v.(traced := NoteStart(v.traced, at)), at, id, Launched(w.tasks[id].phase.k, Some(path)));
    case _ => SettleIsMoved(w, v, at, id, Refused);
  }

  lemma AttemptMoves(c: Config, w: World, at: real, id: nat)
    requires id < |w.tasks| && w.tasks[id].phase.Ready?
    ensures Moved(w, AttemptStep(c, w, at, id), id)
  {
    var k := w.tasks[id].phase.k;
    if !c.breakerOn {
      MoveIsMoved(w, w, at, id, Launched(k, None));
    } else {
      var t := NoteEntry(c.breaker, w.traced, at);
      match Admit(t.b)
      case Refuse => SettleIsMoved(w, w.(traced := t), at, id, Refused);
      case Start(path) => MoveIsMoved(w, w.(traced := NoteStart(t, at)), at, id, Launched(k, Some(path)));
      case Contend =>
        if FreeFor(w.gates.probe) {
          UnderLockMoves(w, w.(traced := t), at, id);
        } else {
          MoveIsMoved(w, w.(traced := t), at, id, QueuedProbe(k));
        }
    }
  }

  lemma AnswerMoves(c: Config, w: World, at: real, a: Action)
    requires a.Answer? && a.id < |w.tasks| && w.tasks[a.id].phase.InFlight?
    ensures Moved(w, AnswerStep(c, w, at, a), a.id)
  {
    match w.tasks[a.id].phase.route
    case None => SettleIsMoved(w, w, at, a.id, a.outcome);
    case Some(path) =>
      var e := Pipeline.Ending(a.outcome);
      var t := NoteFinish(c.breaker, w.traced, at, path, e, a.r, a.again);
      SettleIsMoved(w, w.(traced := t), LastReading(at, path, e, a.r, a.again), a.id, a.outcome);
  }

  lemma PostMoves(w: World, at: real, id: nat)
    requires id < |w.tasks| && w.tasks[id].phase.Pacing?
    ensures Moved(w, PostStep(w, at, id), id)
  {
    var p := w.tasks[id].phase;
    MoveIsMoved(w, w.(lastCall := at, permits := w.permits + [at]), at, id, InFlight(p.k, p.route));
  }

  lemma SaveMoves(c: Config, w: World, at: real, id: nat, reply: Reply)
    requires id < |w.tasks| && w.tasks[id].phase.Storing?
    ensures Moved(w, SaveStep(c, w, at, id, reply), id)
  {
  }

  lemma CancelMoves(c: Config, w: World, at: real, id: nat, written: bool)
    requires id < |w.tasks|
    ensures Moved(w, CancelStep(c, w, at, id, written), id)
  {
  }

  lemma PlainMayMove(c: Config, w: World, at: real, a: Action)
    requires IsPlain(a) && a.id < |w.tasks| && EnabledFor(c, w, at, a, w.tasks[a.id].phase)
    ensures MayMove(w, a.id, NextPhase(c, w, at, a, w.tasks[a.id]))
  {
  }

  /** Every action but `Spawn` is one permitted move of its own task. */
  lemma StepMoves(c: Config, w: World, e: Event)
    requires Enabled(c, w, e) && !e.action.Spawn?
    ensures Moved(w, Step(c, w, e), e.action.id)
  {
    var at, a := e.at, e.action;
    if IsPlain(a) {
      PlainMayMove(c, w, at, a);
      MoveIsMoved(w, Recorded(c, w, a), at, a.id, NextPhase(c, w, at, a, w.tasks[a.id]));
    } else {
      match a
      case Attempt(id) => AttemptMoves(c, w, at, id);
      case GrantProbe(id) => UnderLockMoves(w, w, at, id);
      case Post(id) => PostMoves(w, at, id);
      case Answer(_, _, _, _) => AnswerMoves(c, w, at, a);
      case Save(id, reply) => SaveMoves(c, w, at, id, reply);
      case Cancel(id, written) => CancelMoves(c, w, at, id, written);
    }
  }

  lemma StepKeepsGates(c: Config, w: World, e: Event)
    requires GatesOk(c, w) && Enabled(c, w, e)
    ensures GatesOk(c, Step(c, w, e))
  {
    if e.action.Spawn? {
      var w' := Step(c, w, e);
      forall r: Resource
        ensures GateOk(GateOf(w'.gates, r), ClaimsOf(r, w'.tasks))
      {
        assert GateOk(GateOf(w.gates, r), ClaimsOf(r, w.tasks));
        GateOkMore(GateOf(w.gates, r), ClaimsOf(r, w.tasks));
        assert ClaimsOf(r, w'.tasks) == ClaimsOf(r, w.tasks) + [Idle];
      }
    } else {
      StepMoves(c, w, e);
      MovedKeepsGates(c, w, Step(c, w, e), e.action.id);
    }
  }

  /** The holder of a lock is the only task whose place in the code claims it. */
  lemma SoleHolder(c: Config, w: World, r: Resource, i: nat, j: nat)
    requires GatesOk(c, w) && r != Slot && i < |w.tasks| && j < |w.tasks|
    requires ClaimOn(r, w.tasks[i].phase) == Holding && ClaimOn(r, w.tasks[j].phase) == Holding
    ensures i == j
  {
    var g := GateOf(w.gates, r);
    assert GateOk(g, ClaimsOf(r, w.tasks));
    assert i in g.holders && j in g.holders;
    SubsetSmaller({i, j}, g.holders);
    assert i != j ==> |{i, j}| == 2;
  }

  lemma NoRoomWhenHeld(c: Config, w: World, r: Resource, i: nat)
    requires GatesOk(c, w) && r != Slot && i < |w.tasks| && ClaimOn(r, w.tasks[i].phase) == Holding
    ensures !HasRoom(GateOf(w.gates, r))
  {
    var g := GateOf(w.gates, r);
    assert GateOk(g, ClaimsOf(r, w.tasks));
    SubsetSmaller({i}, g.holders);
  }

  // ---------- the breaker ----------

  ghost predicate ProbeAlive(tasks: seq<Task>) {
    exists i :: 0 <= i < |tasks| && OnProbe(tasks[i].phase)
  }

  ghost predicate BreakerOk(c: Config, w: World) {
    && Sound(c.breaker, w.traced, w.now)
    && (w.traced.b.state == HalfOpen && Probing(w.traced.marks) ==> ProbeAlive(w.tasks))
  }

  lemma AliveElsewhere(tasks: seq<Task>, id: nat, t: Task)
    requires id < |tasks| && ProbeAlive(tasks) && (OnProbe(tasks[id].phase) ==> OnProbe(t.phase))
    ensures ProbeAlive(tasks[id := t])
  {
    var i :| 0 <= i < |tasks| && OnProbe(tasks[i].phase);
    assert OnProbe(tasks[id := t][i].phase);
  }

  /** A free probe lock means that the current Half-Open episode has had no probe yet. */
  lemma FreeLockNotProbing(c: Config, w: World)
    requires GatesOk(c, w) && BreakerOk(c, w) && HasRoom(w.gates.probe)
    ensures w.traced.b.state == HalfOpen ==> !Probing(w.traced.marks)
  {
    if w.traced.b.state == HalfOpen && Probing(w.traced.marks) {
      var i :| 0 <= i < |w.tasks| && OnProbe(w.tasks[i].phase);
      NoRoomWhenHeld(c, w, ProbeLock, i);
    }
  }

  lemma AttemptKeepsBreaker(c: Config, w: World, at: real, id: nat)
    requires ConfigOk(c) && GatesOk(c, w) && BreakerOk(c, w)
    requires id < |w.tasks| && w.tasks[id].phase.Ready? && w.now <= at
    ensures BreakerOk(c, AttemptStep(c, w, at, id))
  {
    SoundLater(c.breaker, w.traced, w.now, at);
    EntryKeepsSound(c.breaker, w.traced, at);
    var t := NoteEntry(c.breaker, w.traced, at);
    var w' := AttemptStep(c, w, at, id);
    if c.breakerOn && Admit(t.b) == Contend && FreeFor(w.gates.probe) {
      FreeLockNotProbing(c, w);
      StartKeepsSound(c.breaker, t, at);
      assert OnProbe(w'.tasks[id].phase);
    } else {
      if Admit(t.b).Start? {
        StartKeepsSound(c.breaker, t, at);
      }
      if w.traced.b.state == HalfOpen && Probing(w.traced.marks) {
        AliveElsewhere(w.tasks, id, w'.tasks[id]);
        assert w'.tasks == w.tasks[id := w'.tasks[id]];
      }
    }
  }

  lemma GrantProbeKeepsBreaker(c: Config, w: World, at: real, id: nat)
    requires ConfigOk(c) && GatesOk(c, w) && BreakerOk(c, w)
    requires id < |w.tasks| && w.tasks[id].phase.QueuedProbe? && w.now <= at && NextInLine(w.gates.probe, id)
    ensures BreakerOk(c, UnderLock(w, at, id))
  {
    SoundLater(c.breaker, w.traced, w.now, at);
    FreeLockNotProbing(c, w);
    if w.traced.b.state != Open {
      StartKeepsSound(c.breaker, w.traced, at);
    }
    assert w.traced.b.state == HalfOpen ==> OnProbe(UnderLock(w, at, id).tasks[id].phase);
  }

  lemma AnswerKeepsBreaker(c: Config, w: World, at: real, a: Action)
    requires ConfigOk(c) && GatesOk(c, w) && BreakerOk(c, w)
    requires a.Answer? && Enabled(c, w, Event(at, a))
    ensures BreakerOk(c, AnswerStep(c, w, at, a))
  {
    SoundLater(c.breaker, w.traced, w.now, at);
    var p := w.tasks[a.id].phase;
    var w' := AnswerStep(c, w, at, a);
    assert w'.tasks == w.tasks[a.id := w'.tasks[a.id]];
    match p.route
    case None =>
      if w.traced.b.state == HalfOpen && Probing(w.traced.marks) {
        AliveElsewhere(w.tasks, a.id, w'.tasks[a.id]);
      }
    case Some(path) =>
      var e := Pipeline.Ending(a.outcome);
      FinishKeepsSound(c.breaker, w.traced, at, path, e, a.r, a.again);
      EndingLeavesHalfOpen(c.breaker, w.traced.b, path, e, a.r, a.again);
  }

  lemma EndingLeavesHalfOpen(s: Settings, b: Breaker, path: Path, e: CircuitBreakers.Ending, r: Readings,
                             again: Readings)
    requires e == Succeeds || e == Fails
    ensures Finish(s, b, path, e, r, again).state != HalfOpen
  {
  }

  lemma CancelKeepsBreaker(c: Config, w: World, at: real, id: nat, written: bool)
    requires ConfigOk(c) && GatesOk(c, w) && BreakerOk(c, w)
    requires id < |w.tasks| && w.now <= at
    ensures BreakerOk(c, CancelStep(c, w, at, id, written))
  {
    SoundLater(c.breaker, w.traced, w.now, at);
    var p := w.tasks[id].phase;
    var w' := CancelStep(c, w, at, id, written);
    assert w'.tasks == w.tasks[id := w'.tasks[id]];
    if OnProbe(p) {
      AbandonKeepsSound(c.breaker, w.traced, at);
      InterruptionRecorded(w.traced.marks, Abandoned(at));
    } else if w.traced.b.state == HalfOpen && Probing(w.traced.marks) {
      AliveElsewhere(w.tasks, id, w'.tasks[id]);
    }
  }

  lemma MoveKeepsBreaker(c: Config, w: World, at: real, id: nat, p: Phase)
    requires BreakerOk(c, w) && id < |w.tasks| && w.now <= at
    requires OnProbe(w.tasks[id].phase) ==> OnProbe(p)
    ensures BreakerOk(c, Move(w, at, id, p))
  {
    SoundLater(c.breaker, w.traced, w.now, at);
    if ProbeAlive(w.tasks) {
      AliveElsewhere(w.tasks, id, w.tasks[id].(phase := p));
    }
  }

  lemma RecordedKeepsBreaker(c: Config, w: World, a: Action)
    requires BreakerOk(c, w) && IsPlain(a) && a.id < |w.tasks| && (a.Resolve? ==> w.tasks[a.id].phase.Settled?)
    ensures BreakerOk(c, Recorded(c, w, a))
  {
    if ProbeAlive(w.tasks) {
      AliveElsewhere(w.tasks, a.id, Recorded(c, w, a).tasks[a.id]);
    }
  }

  lemma SpawnKeepsBreaker(c: Config, w: World, at: real, t: Task)
    requires BreakerOk(c, w) && w.now <= at
    ensures BreakerOk(c, w.(now := at, tasks := w.tasks + [t]))
  {
    SoundLater(c.breaker, w.traced, w.now, at);
    if ProbeAlive(w.tasks) {
      var i :| 0 <= i < |w.tasks| && OnProbe(w.tasks[i].phase);
      assert OnProbe((w.tasks + [t])[i].phase);
    }
  }

  lemma StepKeepsBreaker(c: Config, w: World, e: Event)
    requires ConfigOk(c) && GatesOk(c, w) && BreakerOk(c, w) && Enabled(c, w, e)
    ensures BreakerOk(c, Step(c, w, e))
  {
    var at, a := e.at, e.action;
    if IsPlain(a) {
      RecordedKeepsBreaker(c, w, a);
      MoveKeepsBreaker(c, Recorded(c, w, a), at, a.id, NextPhase(c, w, at, a, w.tasks[a.id]));
    } else {
      match a
      case Spawn(ticket) => SpawnKeepsBreaker(c, w, at, NewTask(ticket));
      case Attempt(id) => AttemptKeepsBreaker(c, w, at, id);
      case GrantProbe(id) => GrantProbeKeepsBreaker(c, w, at, id);
      case Post(id) => MoveKeepsBreaker(c, w, at, id, InFlight(w.tasks[id].phase.k, w.tasks[id].phase.route));
      case Answer(_, _, _, _) => AnswerKeepsBreaker(c, w, at, a);
      case Save(id, reply) => MoveKeepsBreaker(c, w, at, id, SaveStep(c, w, at, id, reply).tasks[id].phase);
      case Cancel(id, written) => CancelKeepsBreaker(c, w, at, id, written);
    }
  }

  // ---------- the throttle ----------

  ghost predicate PaceOk(c: Config, w: World) {
    && Spaced(w.permits, c.minInterval)
    && w.lastCall == (if w.permits == [] then 0.0 else w.permits[|w.permits| - 1])
    && (forall i :: 0 <= i < |w.tasks| && w.tasks[i].phase.Pacing? ==> DueBy(c, w, w.now, w.tasks[i].phase.until))
  }

  /** The interval since the latest call is over at `until`, and not before unless that is past already. */
  ghost predicate DueBy(c: Config, w: World, now: real, until: real) {
    w.lastCall + c.minInterval <= until && (until <= now || until == w.lastCall + c.minInterval)
  }

  lemma PostKeepsPace(c: Config, w: World, at: real, id: nat)
    requires GatesOk(c, w) && PaceOk(c, w) && id < |w.tasks|
    requires w.tasks[id].phase.Pacing? && w.tasks[id].phase.until <= at
    ensures PaceOk(c, PostStep(w, at, id))
  {
    var w' := PostStep(w, at, id);
    forall i | 0 <= i < |w'.tasks| && i != id
      ensures !w'.tasks[i].phase.Pacing?
    {
      if w.tasks[i].phase.Pacing? {
        SoleHolder(c, w, PaceLock, i, id);
      }
    }
  }

  lemma PlainKeepsPace(c: Config, w: World, at: real, a: Action, t: Task)
    requires IsPlain(a) && EnabledFor(c, w, at, a, t.phase)
    ensures var p := NextPhase(c, w, at, a, t);
            p.Pacing? ==> DueBy(c, w, at, p.until)
  {
  }

  /** The steps other than `Post` leave the throttle's variables alone and start no pacing early. */
  lemma OtherStepsPace(c: Config, w: World, e: Event)
    requires Enabled(c, w, e) && !e.action.Spawn? && !e.action.Post?
    ensures Step(c, w, e).lastCall == w.lastCall && Step(c, w, e).permits == w.permits
    ensures e.action.id < |Step(c, w, e).tasks|
    ensures var p := Step(c, w, e).tasks[e.action.id].phase;
            p.Pacing? ==> DueBy(c, w, e.at, p.until)
  {
    var at, a := e.at, e.action;
    if IsPlain(a) {
      PlainKeepsPace(c, w, at, a, w.tasks[a.id]);
    } else {
      match a
      case Attempt(id) => AttemptStepFrame(c, w, at, id);
      case _ =>
    }
  }

  lemma OthersStayDue(c: Config, w: World, w': World, e: Event)
    requires PaceOk(c, w) && !e.action.Spawn? && Moved(w, w', e.action.id)
    requires w'.lastCall == w.lastCall && w'.permits == w.permits && w.now <= w'.now && e.at <= w'.now
    requires var p := w'.tasks[e.action.id].phase; p.Pacing? ==> DueBy(c, w, e.at, p.until)
    ensures PaceOk(c, w')
  {
  }

  /** No step goes back in time. */
  lemma StepAdvances(c: Config, w: World, e: Event)
    requires Enabled(c, w, e)
    ensures w.now <= e.at <= Step(c, w, e).now
  {
    match e.action
    case Attempt(id) => AttemptKeepsTime(c, w, e.at, id);
    case _ =>
  }

  lemma AttemptKeepsTime(c: Config, w: World, at: real, id: nat)
    requires id < |w.tasks| && w.tasks[id].phase.Ready?
    ensures AttemptStep(c, w, at, id).now == at
  {
  }

  lemma StepKeepsPace(c: Config, w: World, e: Event)
    requires GatesOk(c, w) && PaceOk(c, w) && Enabled(c, w, e)
    ensures PaceOk(c, Step(c, w, e))
  {
    if e.action.Post? {
      PostKeepsPace(c, w, e.at, e.action.id);
    } else if !e.action.Spawn? {
      OtherStepsPace(c, w, e);
      StepMoves(c, w, e);
      StepAdvances(c, w, e);
      OthersStayDue(c, w, Step(c, w, e), e);
    }
  }

  // ---------- each ticket's own history ----------

  lemma ReturnIgnoresDraw(c: RetrySettings, ticket: string, k: nat, o: Outcome, draw: real)
    requires k >= 1
    ensures Decisive(c, k, o) <==> Decide(c, ticket, k, o, draw).Return?
    ensures Decisive(c, k, o) ==> Decide(c, ticket, k, o, draw) == Decide(c, ticket, k, o, 0.0)
  {
  }

  lemma SettleKeepsTask(c: Config, w: World, at: real, id: nat, o: Outcome)
    requires id < |w.tasks| && TaskOk(c, w.tasks[id])
    requires InCall(w.tasks[id].phase) || w.tasks[id].phase.Ready? || w.tasks[id].phase.QueuedProbe?
    ensures TaskOk(c, Settle(w, at, id, o).tasks[id])
  {
    var t := w.tasks[id];
    assert (t.trail + [o])[..|t.trail|] == t.trail;
  }

  lemma AttemptKeepsTask(c: Config, w: World, at: real, id: nat)
    requires id < |w.tasks| && TaskOk(c, w.tasks[id]) && w.tasks[id].phase.Ready?
    ensures TaskOk(c, AttemptStep(c, w, at, id).tasks[id])
  {
    var t := NoteEntry(c.breaker, w.traced, at);
    SettleKeepsTask(c, w.(traced := t), at, id, Refused);
  }

  lemma UnderLockKeepsTask(c: Config, w: World, at: real, id: nat)
    requires id < |w.tasks| && TaskOk(c, w.tasks[id]) && w.tasks[id].phase.QueuedProbe?
    ensures TaskOk(c, UnderLock(w, at, id).tasks[id])
  {
    SettleKeepsTask(c, w, at, id, Refused);
  }

  lemma SaveKeepsTask(c: Config, w: World, at: real, id: nat, reply: Reply)
    requires id < |w.tasks| && TaskOk(c, w.tasks[id]) && w.tasks[id].phase.Storing?
    ensures TaskOk(c, SaveStep(c, w, at, id, reply).tasks[id])
  {
  }

  lemma ResolveKeepsTask(c: Config, t: Task, at: real, draw: real)
    requires TaskOk(c, t) && t.phase.Settled?
    ensures TaskOk(c, t.(phase := AfterOutcome(c, t.ticket, at, t.phase.k, t.phase.outcome, draw)))
  {
    ReturnIgnoresDraw(c.retry, t.ticket, t.phase.k, t.phase.outcome, draw);
    assert t.trail == t.trail[..|t.trail| - 1] + [t.phase.outcome];
  }

  lemma PlainKeepsTask(c: Config, w: World, at: real, a: Action, t: Task)
    requires ConfigOk(c) && IsPlain(a) && EnabledFor(c, w, at, a, t.phase) && TaskOk(c, t)
    ensures TaskOk(c, t.(phase := NextPhase(c, w, at, a, t)))
  {
    if a.Resolve? {
      ResolveKeepsTask(c, t, at, a.draw);
    }
  }

  lemma OtherKeepsTask(c: Config, w: World, e: Event)
    requires Enabled(c, w, e) && !IsPlain(e.action) && !e.action.Spawn? && TaskOk(c, w.tasks[e.action.id])
    ensures e.action.id < |Step(c, w, e).tasks| && TaskOk(c, Step(c, w, e).tasks[e.action.id])
  {
    var at, a := e.at, e.action;
    match a
    case Attempt(id) => AttemptKeepsTask(c, w, at, id);
    case GrantProbe(id) => UnderLockKeepsTask(c, w, at, id);
    case Post(_) =>
    case Answer(_, _, _, _) => AnswerKeepsTask(c, w, at, a);
    case Save(id, reply) => SaveKeepsTask(c, w, at, id, reply);
    case Cancel(_, _) =>
  }

  lemma StepKeepsTask(c: Config, w: World, e: Event)
    requires ConfigOk(c) && Enabled(c, w, e) && !e.action.Spawn? && TaskOk(c, w.tasks[e.action.id])
    ensures e.action.id < |Step(c, w, e).tasks| && TaskOk(c, Step(c, w, e).tasks[e.action.id])
  {
    if IsPlain(e.action) {
      PlainKeepsTask(c, w, e.at, e.action, w.tasks[e.action.id]);
    } else {
      OtherKeepsTask(c, w, e);
    }
  }

  lemma ResolveKeepsPauses(c: Config, t: Task, p: Phase, draw: real)
    requires TaskOk(c, t) && PauseOk(c, t) && t.phase.Settled? && IsDraw(draw) && !p.Settled?
    ensures PauseOk(c, Paused(c, t, draw).(phase := p))
  {
    assert (t.draws + [draw])[..|t.draws|] == t.draws;
  }

  lemma OutcomeKeepsPauses(c: Config, t: Task, k: Attempt, o: Outcome)
    requires PauseOk(c, t) && |t.draws| == |t.trail|
    ensures PauseOk(c, t.(phase := Settled(k, o), trail := t.trail + [o]))
  {
    PausesIgnoreTheRest(c.retry, t.ticket, t.trail, t.trail + [o], t.draws);
  }

  lemma MoveKeepsPauses(c: Config, t: Task, p: Phase)
    requires PauseOk(c, t) && !p.Settled? && ((p.Done? && p.origin == Broken) || |t.draws| == |t.trail|)
    ensures PauseOk(c, t.(phase := p))
  {
  }

  lemma AttemptKeepsPauses(c: Config, w: World, at: real, id: nat)
    requires id < |w.tasks| && w.tasks[id].phase.Ready? && PauseOk(c, w.tasks[id])
    ensures PauseOk(c, AttemptStep(c, w, at, id).tasks[id])
  {
    OutcomeKeepsPauses(c, w.tasks[id], w.tasks[id].phase.k, Refused);
  }

  lemma UnderLockKeepsPauses(c: Config, w: World, at: real, id: nat)
    requires id < |w.tasks| && w.tasks[id].phase.QueuedProbe? && PauseOk(c, w.tasks[id])
    ensures PauseOk(c, UnderLock(w, at, id).tasks[id])
  {
    OutcomeKeepsPauses(c, w.tasks[id], w.tasks[id].phase.k, Refused);
  }

  lemma AnswerKeepsPauses(c: Config, w: World, at: real, a: Action)
    requires a.Answer? && a.id < |w.tasks| && w.tasks[a.id].phase.InFlight? && PauseOk(c, w.tasks[a.id])
    ensures PauseOk(c, AnswerStep(c, w, at, a).tasks[a.id])
  {
    OutcomeKeepsPauses(c, w.tasks[a.id], w.tasks[a.id].phase.k, a.outcome);
  }

  lemma PlainKeepsPauses(c: Config, w: World, at: real, a: Action)
    requires IsPlain(a) && a.id < |w.tasks| && EnabledFor(c, w, at, a, w.tasks[a.id].phase)
    requires TaskOk(c, w.tasks[a.id]) && PauseOk(c, w.tasks[a.id])
    ensures PauseOk(c, Recorded(c, w, a).tasks[a.id].(phase := NextPhase(c, w, at, a, w.tasks[a.id])))
  {
    var t := w.tasks[a.id];
    var p := NextPhase(c, w, at, a, t);
    if a.Resolve? {
      ResolveKeepsPauses(c, t, p, a.draw);
    } else {
      MoveKeepsPauses(c, t, p);
    }
  }

  lemma OtherKeepsPause(c: Config, w: World, e: Event)
    requires Enabled(c, w, e) && !IsPlain(e.action) && !e.action.Spawn? && PauseOk(c, w.tasks[e.action.id])
    ensures e.action.id < |Step(c, w, e).tasks| && PauseOk(c, Step(c, w, e).tasks[e.action.id])
  {
    var at, a := e.at, e.action;
    var t := w.tasks[a.id];
    match a
    case Attempt(id) => AttemptKeepsPauses(c, w, at, id);
    case GrantProbe(id) => UnderLockKeepsPauses(c, w, at, id);
    case Post(id) => MoveKeepsPauses(c, t, InFlight(t.phase.k, t.phase.route));
    case Answer(_, _, _, _) => AnswerKeepsPauses(c, w, at, a);
    case Save(id, reply) => MoveKeepsPauses(c, t, SaveStep(c, w, at, id, reply).tasks[id].phase);
    case Cancel(id, written) => MoveKeepsPauses(c, t, CancelStep(c, w, at, id, written).tasks[id].phase);
  }

  lemma StepKeepsPause(c: Config, w: World, e: Event)
    requires Enabled(c, w, e) && !e.action.Spawn?
    requires TaskOk(c, w.tasks[e.action.id]) && PauseOk(c, w.tasks[e.action.id])
    ensures e.action.id < |Step(c, w, e).tasks| && PauseOk(c, Step(c, w, e).tasks[e.action.id])
  {
    if IsPlain(e.action) {
      PlainKeepsPauses(c, w, e.at, e.action);
    } else {
      OtherKeepsPause(c, w, e);
    }
  }

  lemma StepKeepsPauses(c: Config, w: World, e: Event)
    requires TasksOk(c, w) && PausesOk(c, w) && Enabled(c, w, e)
    ensures PausesOk(c, Step(c, w, e))
  {
    if !e.action.Spawn? {
      assert TaskOk(c, w.tasks[e.action.id]) && PauseOk(c, w.tasks[e.action.id]);
      StepMoves(c, w, e);
      StepKeepsPause(c, w, e);
    }
  }

  lemma AnswerKeepsTask(c: Config, w: World, at: real, a: Action)
    requires a.Answer? && a.id < |w.tasks| && TaskOk(c, w.tasks[a.id]) && w.tasks[a.id].phase.InFlight?
    ensures TaskOk(c, AnswerStep(c, w, at, a).tasks[a.id])
  {
    var t := w.tasks[a.id];
    assert (t.trail + [a.outcome])[..|t.trail|] == t.trail;
  }

  lemma StepKeepsTasks(c: Config, w: World, e: Event)
    requires ConfigOk(c) && TasksOk(c, w) && Enabled(c, w, e)
    ensures TasksOk(c, Step(c, w, e))
  {
    if !e.action.Spawn? {
      StepMoves(c, w, e);
      StepKeepsTask(c, w, e);
    }
  }

  // ---------- the cache ----------

  ghost predicate FirstWrite(c: Config, writes: seq<(string, Dict)>, key: string, i: int) {
    && 0 <= i < |writes| && NormalForm(c, writes[i].0) == key
    && (forall j :: 0 <= j < i ==> NormalForm(c, writes[j].0) != key)
  }

  /** A hit shows the value now in the store, tagged. */
  ghost predicate HitOk(c: Config, store: map<string, Dict>, t: Task) {
    t.phase.Done? && t.phase.origin == FromCache ==>
      && NormalForm(c, t.ticket) in store
      && t.phase.out == Tagged(Value(store[NormalForm(c, t.ticket)]), true)
  }

  /** Results without an error, with a count that can be added up. */
  predicate Storable(d: Dict) {
    Lacks(d, "error") && AddsUp(d)
  }

  ghost predicate StoreOk(c: Config, store: map<string, Dict>, writes: seq<(string, Dict)>) {
    && (forall i :: 0 <= i < |writes| ==> Storable(writes[i].1) && NormalForm(c, writes[i].0) in store)
    && (forall key :: key in store ==> ExplainedBy(c, store, writes, key))
  }

  ghost predicate ExplainedBy(c: Config, store: map<string, Dict>, writes: seq<(string, Dict)>, key: string)
    requires key in store
  {
    exists i :: FirstWrite(c, writes, key, i) && store[key] == writes[i].1
  }

  /** Every key holds the first result ever sent for it, and no result with an error was sent. */
  ghost predicate CacheOk(c: Config, w: World) {
    && StoreOk(c, w.store, w.writes)
    && (forall i :: 0 <= i < |w.tasks| ==> HitOk(c, w.store, w.tasks[i]))
  }

  lemma WriteKeepsStore(c: Config, store: map<string, Dict>, writes: seq<(string, Dict)>, ticket: string, d: Dict)
    requires StoreOk(c, store, writes) && Storable(d)
    ensures StoreOk(c, Cache.SetIfAbsent(store, NormalForm(c, ticket), d), writes + [(ticket, d)])
  {
    var key' := NormalForm(c, ticket);
    var store' := Cache.SetIfAbsent(store, key', d);
    var writes' := writes + [(ticket, d)];
    forall key | key in store'
      ensures ExplainedBy(c, store', writes', key)
    {
      if key in store {
        StillExplained(c, store, writes, key, store', (ticket, d));
      } else {
        assert FirstWrite(c, writes', key, |writes|);
      }
    }
  }

  lemma StillExplained(c: Config, store: map<string, Dict>, writes: seq<(string, Dict)>, key: string,
                       store': map<string, Dict>, more: (string, Dict))
    requires key in store && key in store' && store'[key] == store[key] && ExplainedBy(c, store, writes, key)
    ensures ExplainedBy(c, store', writes + [more], key)
  {
    var i :| FirstWrite(c, writes, key, i) && store[key] == writes[i].1;
    assert FirstWrite(c, writes + [more], key, i);
  }

  /** Every result of the retry loop has a count that can be added up. */
  lemma VerdictAddsUp(c: Config, ticket: string, trail: seq<Outcome>, raw: Raw)
    requires Verdict(c, ticket, trail, raw) && raw.Value?
    ensures AddsUp(raw.dict)
  {
  }

  lemma WrittenKeepsStore(c: Config, w: World, id: nat)
    requires StoreOk(c, w.store, w.writes) && id < |w.tasks| && w.tasks[id].phase.Storing? && TaskOk(c, w.tasks[id])
    ensures var w' := Written(c, w, id); StoreOk(c, w'.store, w'.writes) && Extends(w.store, w'.store)
  {
    var t := w.tasks[id];
    VerdictAddsUp(c, t.ticket, t.trail, Value(t.phase.dict));
    WriteKeepsStore(c, w.store, w.writes, t.ticket, t.phase.dict - {"cache_hit"});
  }

  /** Every key keeps its value. */
  ghost predicate Extends(store: map<string, Dict>, store': map<string, Dict>) {
    forall key :: key in store ==> key in store' && store'[key] == store[key]
  }

  /** Only a save, or its cancellation, writes to the store. */
  lemma StepStore(c: Config, w: World, e: Event)
    requires Enabled(c, w, e)
    ensures var w' := Step(c, w, e);
            || (w'.store == w.store && w'.writes == w.writes)
            || (!e.action.Spawn? && w.tasks[e.action.id].phase.Storing?
                && w'.store == Written(c, w, e.action.id).store && w'.writes == Written(c, w, e.action.id).writes)
  {
    match e.action
    case Attempt(id) => AttemptStepFrame(c, w, e.at, id);
    case _ =>
  }

  /** No step changes the value of a key. */
  lemma StepKeepsStore(c: Config, w: World, e: Event)
    requires StoreOk(c, w.store, w.writes) && TasksOk(c, w) && Enabled(c, w, e)
    ensures StoreOk(c, Step(c, w, e).store, Step(c, w, e).writes)
    ensures Extends(w.store, Step(c, w, e).store)
  {
    StepStore(c, w, e);
    if !e.action.Spawn? && w.tasks[e.action.id].phase.Storing? {
      assert TaskOk(c, w.tasks[e.action.id]);
      WrittenKeepsStore(c, w, e.action.id);
    }
  }

  lemma AttemptStepFrame(c: Config, w: World, at: real, id: nat)
    requires id < |w.tasks| && w.tasks[id].phase.Ready?
    ensures var w' := AttemptStep(c, w, at, id);
            && w'.store == w.store && w'.writes == w.writes && w'.lastCall == w.lastCall && w'.permits == w.permits
            && !w'.tasks[id].phase.Done? && !w'.tasks[id].phase.Pacing?
  {
  }

  lemma StepKeepsHit(c: Config, w: World, e: Event)
    requires Enabled(c, w, e) && !e.action.Spawn?
    ensures e.action.id < |Step(c, w, e).tasks| && HitOk(c, w.store, Step(c, w, e).tasks[e.action.id])
  {
    var at, a := e.at, e.action;
    if IsPlain(a) {
      PlainKeepsHit(c, w, at, a, w.tasks[a.id]);
    } else {
      match a
      case Attempt(id) => AttemptStepFrame(c, w, at, id);
      case _ =>
    }
  }

  lemma PlainKeepsHit(c: Config, w: World, at: real, a: Action, t: Task)
    requires IsPlain(a) && EnabledFor(c, w, at, a, t.phase)
    ensures HitOk(c, w.store, t.(phase := NextPhase(c, w, at, a, t)))
  {
  }

  lemma StepKeepsCache(c: Config, w: World, e: Event)
    requires CacheOk(c, w) && TasksOk(c, w) && Enabled(c, w, e)
    ensures CacheOk(c, Step(c, w, e))
  {
    var w' := Step(c, w, e);
    StepKeepsStore(c, w, e);
    if !e.action.Spawn? {
      StepMoves(c, w, e);
      StepKeepsHit(c, w, e);
      forall i | 0 <= i < |w'.tasks|
        ensures HitOk(c, w'.store, w'.tasks[i])
      {
        if i != e.action.id {
          assert HitOk(c, w.store, w.tasks[i]);
        }
      }
    }
  }

  /** A ticket that calls have answered without an error has its result among the writes. */
  ghost predicate TaskSaved(writes: seq<(string, Dict)>, t: Task) {
    t.phase.Done? && t.phase.origin.FromCalls? && t.phase.origin.raw.Value? && Lacks(t.phase.origin.raw.dict,
    "error") ==>
      (t.ticket, t.phase.origin.raw.dict - {"cache_hit"}) in writes
  }

  ghost predicate SavedOk(w: World) {
    forall i :: 0 <= i < |w.tasks| ==> TaskSaved(w.writes, w.tasks[i])
  }

  lemma PlainKeepsSaved(c: Config, w: World, at: real, a: Action, t: Task)
    requires IsPlain(a) && EnabledFor(c, w, at, a, t.phase)
    ensures TaskSaved(w.writes, t.(phase := NextPhase(c, w, at, a, t)))
  {
  }

  lemma SaveKeepsSaved(c: Config, w: World, at: real, id: nat, reply: Reply)
    requires id < |w.tasks| && w.tasks[id].phase.Storing?
    ensures TaskSaved(SaveStep(c, w, at, id, reply).writes, SaveStep(c, w, at, id, reply).tasks[id])
  {
  }

  /** The step's own task: done by calls only with its result sent. */
  lemma StepSaves(c: Config, w: World, e: Event)
    requires Enabled(c, w, e) && !e.action.Spawn?
    ensures e.action.id < |Step(c, w, e).tasks| && TaskSaved(Step(c, w, e).writes, Step(c, w, e).tasks[e.action.id])
  {
    var at, a := e.at, e.action;
    if IsPlain(a) {
      PlainKeepsSaved(c, w, at, a, w.tasks[a.id]);
    } else {
      match a
      case Attempt(id) => AttemptStepFrame(c, w, at, id);
      case Save(id, reply) => SaveKeepsSaved(c, w, at, id, reply);
      case _ =>
    }
  }

  lemma StepKeepsSaved(c: Config, w: World, e: Event)
    requires SavedOk(w) && Enabled(c, w, e)
    ensures SavedOk(Step(c, w, e))
  {
    var w' := Step(c, w, e);
    StepStore(c, w, e);
    if !e.action.Spawn? {
      StepMoves(c, w, e);
      StepSaves(c, w, e);
      forall i | 0 <= i < |w'.tasks|
        ensures TaskSaved(w'.writes, w'.tasks[i])
      {
        if i != e.action.id {
          assert TaskSaved(w.writes, w.tasks[i]);
        }
      }
    }
  }

  // ---------- all of it ----------

  ghost predicate Inv(c: Config, w: World) {
    GatesOk(c, w) && BreakerOk(c, w) && PaceOk(c, w) && TasksOk(c, w) && PausesOk(c, w) && CacheOk(c, w) && SavedOk(w)
  }

  lemma InitInv(c: Config, now: real)
    requires ConfigOk(c)
    ensures Inv(c, Init(c, now))
  {
    NewTraceSound(c.breaker, now);
  }

  lemma StepKeepsInv(c: Config, w: World, e: Event)
    requires ConfigOk(c) && Inv(c, w) && Enabled(c, w, e)
    ensures Inv(c, Step(c, w, e))
  {
    StepKeepsGates(c, w, e);
    StepKeepsBreaker(c, w, e);
    StepKeepsPace(c, w, e);
    StepKeepsTasks(c, w, e);
    StepKeepsPauses(c, w, e);
    StepKeepsCache(c, w, e);
    StepKeepsSaved(c, w, e);
  }

  lemma {:induction false} RunKeepsInv(c: Config, w: World, run: seq<Event>, w': World)
    requires ConfigOk(c) && Inv(c, w) && Leads(c, w, run, w')
    ensures Inv(c, w')
    decreases |run|
  {
    if run != [] {
      StepKeepsInv(c, w, run[0]);
      RunKeepsInv(c, Step(c, w, run[0]), run[1..], w');
    }
  }
}
