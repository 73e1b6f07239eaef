/** Every run of the tickets at hand ends, and it ends only when all of them are done. */
module PipelineProgress {
  import opened Common
  import opened CircuitBreakers
  import opened Retry
  import opened Gates
  import opened Pipeline
  import opened PipelineInvariant

  // ---------- the measure ----------

  function AttemptsLeft(c: Config, k: nat): nat {
    if k <= c.retry.maxRetries then c.retry.maxRetries - k else 0
  }

  /** How far a ticket still has to go, by attempts and then by places in the code. */
  function Rank(c: Config, p: Phase): nat {
    match p
    case Fresh => 8 * c.retry.maxRetries + 5
    case Missed => 8 * c.retry.maxRetries + 4
    case QueuedSlot => 8 * c.retry.maxRetries + 3
    case Ready(k) => 8 * AttemptsLeft(c, k) + 10
    case QueuedProbe(k) => 8 * AttemptsLeft(c, k) + 9
    case Launched(k, _) => 8 * AttemptsLeft(c, k) + 8
    case QueuedPace(k, _) => 8 * AttemptsLeft(c, k) + 7
    case Pacing(k, _, _) => 8 * AttemptsLeft(c, k) + 6
    case InFlight(k, _) => 8 * AttemptsLeft(c, k) + 5
    case Settled(k, _) => 8 * AttemptsLeft(c, k) + 4
    case Resting(k, _) => 8 * AttemptsLeft(c, k) + 3
    case Returning(_) => 2
    case Storing(_) => 1
    case Done(_, _) => 0
  }

  function Remaining(c: Config, tasks: seq<Task>): nat {
    if tasks == [] then 0 else Remaining(c, tasks[..|tasks| - 1]) + Rank(c, tasks[|tasks| - 1].phase)
  }

  lemma {:induction false} RemainingUpdate(c: Config, tasks: seq<Task>, id: nat, t: Task)
    requires id < |tasks|
    ensures Remaining(c, tasks[id := t]) + Rank(c, tasks[id].phase) == Remaining(c, tasks) + Rank(c, t.phase)
  {
    var n := |tasks| - 1;
    var front := tasks[..n];
    if id == n {
      assert tasks[id := t][..n] == front;
    } else {
      assert tasks[id := t][..n] == front[id := t];
      RemainingUpdate(c, front, id, t);
    }
  }

  lemma PlainRankDrops(c: Config, w: World, at: real, a: Action, t: Task)
    requires ConfigOk(c) && IsPlain(a) && EnabledFor(c, w, at, a, t.phase) && TaskOk(c, t)
    ensures Rank(c, NextPhase(c, w, at, a, t)) < Rank(c, t.phase)
  {
  }

  lemma AttemptRankDrops(c: Config, w: World, at: real, id: nat)
    requires id < |w.tasks| && w.tasks[id].phase.Ready?
    ensures Rank(c, AttemptStep(c, w, at, id).tasks[id].phase) < Rank(c, w.tasks[id].phase)
  {
  }

  lemma UnderLockRankDrops(c: Config, w: World, at: real, id: nat)
    requires id < |w.tasks| && w.tasks[id].phase.QueuedProbe?
    ensures Rank(c, UnderLock(w, at, id).tasks[id].phase) < Rank(c, w.tasks[id].phase)
  {
  }

  lemma AnswerRankDrops(c: Config, w: World, at: real, a: Action)
    requires a.Answer? && a.id < |w.tasks| && w.tasks[a.id].phase.InFlight?
    ensures Rank(c, AnswerStep(c, w, at, a).tasks[a.id].phase) < Rank(c, w.tasks[a.id].phase)
  {
  }

  lemma LastRankDrops(c: Config, w: World, at: real, id: nat, reply: Reply, written: bool)
    requires id < |w.tasks| && !w.tasks[id].phase.Done?
    ensures Rank(c, CancelStep(c, w, at, id, written).tasks[id].phase) < Rank(c, w.tasks[id].phase)
    ensures w.tasks[id].phase.Storing? ==>
              Rank(c, SaveStep(c, w, at, id, reply).tasks[id].phase) < Rank(c, w.tasks[id].phase)
  {
  }

  lemma StepRankDrops(c: Config, w: World, e: Event)
    requires ConfigOk(c) && Enabled(c, w, e) && !e.action.Spawn? && TaskOk(c, w.tasks[e.action.id])
    ensures e.action.id < |Step(c, w, e).tasks|
    ensures Rank(c, Step(c, w, e).tasks[e.action.id].phase) < Rank(c, w.tasks[e.action.id].phase)
  {
    var at, a := e.at, e.action;
    if IsPlain(a) {
      PlainRankDrops(c, w, at, a, w.tasks[a.id]);
    } else {
      match a
      case Attempt(id) => AttemptRankDrops(c, w, at, id);
      case GrantProbe(id) => UnderLockRankDrops(c, w, at, id);
      case Post(_) =>
      case Answer(_, _, _, _) => AnswerRankDrops(c, w, at, a);
      case Save(id, reply) => LastRankDrops(c, w, at, id, reply, false);
      case Cancel(id, written) => LastRankDrops(c, w, at, id, Lost, written);
    }
  }

  /** Every step but the arrival of a new ticket brings the whole system nearer to its end. */
  lemma StepDecreases(c: Config, w: World, e: Event)
    requires ConfigOk(c) && TasksOk(c, w) && Enabled(c, w, e) && !e.action.Spawn?
    ensures Remaining(c, Step(c, w, e).tasks) < Remaining(c, w.tasks)
  {
    var id := e.action.id;
    var w' := Step(c, w, e);
    StepMoves(c, w, e);
    assert TaskOk(c, w.tasks[id]);
    StepRankDrops(c, w, e);
    assert w'.tasks == w.tasks[id := w'.tasks[id]];
    RemainingUpdate(c, w.tasks, id, w'.tasks[id]);
  }

  ghost predicate NoArrivals(run: seq<Event>) {
    forall i :: 0 <= i < |run| ==> !run[i].action.Spawn?
  }

  /** A run without new arrivals is no longer than the measure of the world it starts from. */
  lemma {:induction false} RunsAreBounded(c: Config, w: World, run: seq<Event>, w': World)
    requires ConfigOk(c) && TasksOk(c, w) && Leads(c, w, run, w') && NoArrivals(run)
    ensures |run| + Remaining(c, w'.tasks) <= Remaining(c, w.tasks)
    decreases |run|
  {
    if run != [] {
      StepDecreases(c, w, run[0]);
      StepKeepsTasks(c, w, run[0]);
      RunsAreBounded(c, Step(c, w, run[0]), run[1..], w');
    }
  }

  // ---------- no deadlock ----------

  /** An event that makes some ticket go on by itself. */
  ghost predicate Progress(c: Config, w: World, e: Event) {
    Enabled(c, w, e) && !e.action.Spawn? && !e.action.Cancel?
  }

  ghost predicate CanGoOn(c: Config, w: World) {
    exists e :: Progress(c, w, e)
  }

  /** A ticket that is not waiting for a gate can always take its next step. */
  lemma UnblockedGoesOn(c: Config, w: World, id: nat)
    requires id < |w.tasks|
    requires var p := w.tasks[id].phase; !p.Done? && !p.QueuedSlot? && !p.QueuedProbe? && !p.QueuedPace?
    ensures CanGoOn(c, w)
  {
    var p := w.tasks[id].phase;
    var now := w.now;
    var r := Readings(now, now, now);
    var e := match p
      case Fresh => Event(now, Lookup(id, true))
      case Missed => Event(now, AskSlot(id))
      case Ready(_) => Event(now, Attempt(id))
      case Launched(_, _) => Event(now, AskPace(id))
      case Pacing(_, _, until) => Event(Max(now, until), Post(id))
      case InFlight(_, _) => Event(now, Answer(id, Unexpected, r, r))
      case Settled(_, _) => Event(now, Resolve(id, 0.0))
      case Resting(_, until) => Event(Max(now, until), Wake(id))
      case Returning(_) => Event(now, LeaveSlot(id))
      case _ => Event(now, Save(id, Acknowledged));
    assert Progress(c, w, e);
  }

  /** A queue in front of a gate with room lets its first ticket in. */
  lemma QueueMoves(c: Config, w: World, r: Resource, id: nat)
    requires GatesOk(c, w) && id < |w.tasks| && ClaimOn(r, w.tasks[id].phase) == Waiting && HasRoom(GateOf(w.gates, r))
    ensures CanGoOn(c, w)
  {
    var g := GateOf(w.gates, r);
    assert GateOk(g, ClaimsOf(r, w.tasks));
    assert id in g.queue;
    var first := g.queue[0];
    assert first in g.queue;
    assert ClaimOn(r, w.tasks[first].phase) == Waiting;
    var e := Event(w.now,
                   match r case Slot => GrantSlot(first) case ProbeLock => GrantProbe(first)
                           case PaceLock => GrantPace(first));
    assert Progress(c, w, e);
  }

  /** A gate without room has a holder. */
  lemma FullHasHolder(c: Config, w: World, r: Resource) returns (id: nat)
    requires ConfigOk(c) && GatesOk(c, w) && !HasRoom(GateOf(w.gates, r))
    ensures id < |w.tasks| && ClaimOn(r, w.tasks[id].phase) == Holding
  {
    var g := GateOf(w.gates, r);
    assert GateOk(g, ClaimsOf(r, w.tasks));
    assert g.holders != {};
    id :| id in g.holders;
  }

  /** Locks are taken in the order semaphore, probe lock, rate-limit lock; so the last one moves first. */
  lemma PaceQueueMoves(c: Config, w: World, id: nat)
    requires ConfigOk(c) && GatesOk(c, w) && id < |w.tasks| && w.tasks[id].phase.QueuedPace?
    ensures CanGoOn(c, w)
  {
    if HasRoom(w.gates.pace) {
      QueueMoves(c, w, PaceLock, id);
    } else {
      var holder := FullHasHolder(c, w, PaceLock);
      UnblockedGoesOn(c, w, holder);
    }
  }

  lemma ProbeQueueMoves(c: Config, w: World, id: nat)
    requires ConfigOk(c) && GatesOk(c, w) && id < |w.tasks| && w.tasks[id].phase.QueuedProbe?
    ensures CanGoOn(c, w)
  {
    if HasRoom(w.gates.probe) {
      QueueMoves(c, w, ProbeLock, id);
    } else {
      var holder := FullHasHolder(c, w, ProbeLock);
      if w.tasks[holder].phase.QueuedPace? {
        PaceQueueMoves(c, w, holder);
      } else {
        UnblockedGoesOn(c, w, holder);
      }
    }
  }

  lemma SlotQueueMoves(c: Config, w: World, id: nat)
    requires ConfigOk(c) && GatesOk(c, w) && id < |w.tasks| && w.tasks[id].phase.QueuedSlot?
    ensures CanGoOn(c, w)
  {
    if HasRoom(w.gates.slot) {
      QueueMoves(c, w, Slot, id);
    } else {
      var holder := FullHasHolder(c, w, Slot);
      AnyoneGoesOn(c, w, holder);
    }
  }

  lemma AnyoneGoesOn(c: Config, w: World, id: nat)
    requires ConfigOk(c) && GatesOk(c, w) && id < |w.tasks|
             && !w.tasks[id].phase.Done? && !w.tasks[id].phase.QueuedSlot?
    ensures CanGoOn(c, w)
  {
    match w.tasks[id].phase
    case QueuedProbe(_) => ProbeQueueMoves(c, w, id);
    case QueuedPace(_, _) => PaceQueueMoves(c, w, id);
    case _ => UnblockedGoesOn(c, w, id);
  }

  /** Deadlock freedom: while any ticket is unfinished, some ticket can go on. */
  lemma NoDeadlock(c: Config, w: World, id: nat)
    requires ConfigOk(c) && GatesOk(c, w) && id < |w.tasks| && !w.tasks[id].phase.Done?
    ensures CanGoOn(c, w)
  {
    if w.tasks[id].phase.QueuedSlot? {
      SlotQueueMoves(c, w, id);
    } else {
      AnyoneGoesOn(c, w, id);
    }
  }

  /** Some continuation without arrivals finishes every ticket. */
  ghost predicate CanFinish(c: Config, w: World) {
    exists run, w' :: Finishes(c, w, run, w')
  }

  ghost predicate Finishes(c: Config, w: World, run: seq<Event>, w': World) {
    Leads(c, w, run, w') && NoArrivals(run) && AllDone(w')
  }

  lemma OneStepMore(c: Config, w: World, e: Event)
    requires Enabled(c, w, e) && !e.action.Spawn? && CanFinish(c, Step(c, w, e))
    ensures CanFinish(c, w)
  {
    var v := Step(c, w, e);
    var run, w' :| Finishes(c, v, run, w');
    assert ([e] + run)[1..] == run;
    assert Finishes(c, w, [e] + run, w');
  }

  /** From every world with its gates and tasks in order some continuation finishes every ticket. */
  lemma {:induction false} EveryBatchCanFinish(c: Config, w: World)
    requires ConfigOk(c) && GatesOk(c, w) && TasksOk(c, w)
    ensures CanFinish(c, w)
    decreases Remaining(c, w.tasks)
  {
    if AllDone(w) {
      assert Finishes(c, w, [], w);
    } else {
      var id: nat :| id < |w.tasks| && !w.tasks[id].phase.Done?;
      NoDeadlock(c, w, id);
      var e :| Progress(c, w, e);
      StepDecreases(c, w, e);
      StepKeepsGates(c, w, e);
      StepKeepsTasks(c, w, e);
      EveryBatchCanFinish(c, Step(c, w, e));
      OneStepMore(c, w, e);
    }
  }

  ghost predicate AllDone(w: World) {
    forall i :: 0 <= i < |w.tasks| ==> w.tasks[i].phase.Done?
  }

  /**
   Termination: a run without arrivals that cannot be continued has finished every ticket, and no
   run without arrivals goes on for ever.
   */
  lemma StuckMeansDone(c: Config, w: World, run: seq<Event>, w': World)
    requires ConfigOk(c) && GatesOk(c, w) && TasksOk(c, w) && Leads(c, w, run, w') && NoArrivals(run)
    ensures |run| <= Remaining(c, w.tasks)
    ensures !CanGoOn(c, w') <==> AllDone(w')
  {
    RunsAreBounded(c, w, run, w');
    RunKeepsGates(c, w, run, w');
    StuckIffDone(c, w');
  }

  lemma {:induction false} RunKeepsGates(c: Config, w: World, run: seq<Event>, w': World)
    requires GatesOk(c, w) && Leads(c, w, run, w')
    ensures GatesOk(c, w')
    decreases |run|
  {
    if run != [] {
      StepKeepsGates(c, w, run[0]);
      RunKeepsGates(c, Step(c, w, run[0]), run[1..], w');
    }
  }

  lemma StuckIffDone(c: Config, w: World)
    requires ConfigOk(c) && GatesOk(c, w)
    ensures !CanGoOn(c, w) <==> AllDone(w)
  {
    if !AllDone(w) {
      var id: nat :| id < |w.tasks| && !w.tasks[id].phase.Done?;
      NoDeadlock(c, w, id);
    }
  }
}
