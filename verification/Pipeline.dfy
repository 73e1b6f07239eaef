/**
 The concurrent call path as one step machine: any number of tickets, each running
 `process_ticket`, interleave at their suspension points.  They share the semaphore, the breaker
 and its probe lock, the rate-limit lock, the clock and the result cache.

 Code between two suspension points is split into several steps here only where that adds
 interleavings; the breaker's check-and-start and its bookkeeping at the end are single steps.
 */
module Pipeline {
  import opened Common
  import opened Records
  import Cache
  import opened CircuitBreakers
  import opened BreakerHistory
  import opened Retry
  import opened Gates

  datatype Config = Config(
    breaker: Settings, breakerOn: bool, retry: RetrySettings, minInterval: real, slots: nat,
    lower: string -> string)

  ghost predicate ConfigOk(c: Config) {
    Sensible(c.breaker) && c.retry.maxRetries >= 1 && c.slots >= 1 && c.minInterval >= 0.0
  }

  /** The text whose digest is the cache key; distinct texts are taken to have distinct digests. */
  function NormalForm(c: Config, ticket: string): string {
    Cache.Normalised(c.lower, ticket)
  }

  // ---------- where a ticket's coroutine is ----------

  /** Whether a finished ticket was answered from the cache, by calls, or not at all. */
  datatype Origin = FromCache | FromCalls(raw: Raw) | Broken

  type Attempt = k: nat | k >= 1 witness 1

  /** `k` is the attempt; `route` is the way past the breaker, `None` when it is switched off. */
  datatype Phase =
    | Fresh
    | Missed
    | QueuedSlot
    | Ready(k: Attempt)
    | QueuedProbe(k: Attempt)
    | Launched(k: Attempt, route: Option<Path>)
    | QueuedPace(k: Attempt, route: Option<Path>)
    | Pacing(k: Attempt, route: Option<Path>, until: real)
    | InFlight(k: Attempt, route: Option<Path>)
    | Settled(k: Attempt, outcome: Outcome)
    | Resting(k: Attempt, until: real)
    | Returning(raw: Raw)
    | Storing(dict: Dict)
    | Done(out: Raw, origin: Origin)

  /**
   `trail` records the outcomes of the attempts made so far, `draws` the jitter drawn after each,
   and `pauses` the sleeps that followed; no step looks at them.
   */
  datatype Task = Task(ticket: string, phase: Phase, trail: seq<Outcome>, draws: seq<real>, pauses: seq<real>)

  function NewTask(ticket: string): Task {
    Task(ticket, Fresh, [], [], [])
  }

  predicate InCall(p: Phase) {
    p.Launched? || p.QueuedPace? || p.Pacing? || p.InFlight?
  }

  predicate OnProbe(p: Phase) {
    InCall(p) && p.route == Some(Probe)
  }

  datatype Resource = Slot | ProbeLock | PaceLock

  /** Every gate is held by an `async with` block, so a claim follows from the place in the code. */
  function ClaimOn(r: Resource, p: Phase): Claim {
    match r
    case Slot =>
      if p.QueuedSlot? then Waiting
      else if p.Ready? || p.QueuedProbe? || InCall(p) || p.Settled? || p.Resting? || p.Returning? then Holding
      else Idle
    case ProbeLock =>
      if p.QueuedProbe? then Waiting
      else if InCall(p) && (p.route == Some(Probe) || p.route == Some(Locked)) then Holding
      else Idle
    case PaceLock =>
      if p.QueuedPace? then Waiting else if p.Pacing? then Holding else Idle
  }

  // ---------- the shared state ----------

  datatype GateSet = GateSet(slot: Gate, probe: Gate, pace: Gate)

  function GateOf(gs: GateSet, r: Resource): Gate {
    match r case Slot => gs.slot case ProbeLock => gs.probe case PaceLock => gs.pace
  }

  /**
   `permits` records every value given to `_last_call_ts`, `writes` every result sent to the cache;
   neither influences a step.
   */
  datatype World = World(
    now: real, traced: Traced, gates: GateSet, lastCall: real, permits: seq<real>,
    store: map<string, Dict>, writes: seq<(string, Dict)>, tasks: seq<Task>)

  function Init(c: Config, now: real): World {
    World(now, NewTrace(c.breaker, now), GateSet(NewGate(c.slots), NewGate(1), NewGate(1)),
          0.0, [], map[], [], [])
  }

  function ShiftAll(gs: GateSet, id: nat, before: Phase, after: Phase): GateSet {
    GateSet(
      Shift(gs.slot, id, ClaimOn(Slot, before), ClaimOn(Slot, after)),
      Shift(gs.probe, id, ClaimOn(ProbeLock, before), ClaimOn(ProbeLock, after)),
      Shift(gs.pace, id, ClaimOn(PaceLock, before), ClaimOn(PaceLock, after)))
  }

  /** One task moves to another place in the code, taking, joining or leaving gates on the way. */
  function Move(w: World, at: real, id: nat, p: Phase): World
    requires id < |w.tasks|
  {
    w.(now := at,
       gates := ShiftAll(w.gates, id, w.tasks[id].phase, p),
       tasks := w.tasks[id := w.tasks[id].(phase := p)])
  }

  /** One task learns the outcome of its current attempt. */
  function Settle(w: World, at: real, id: nat, o: Outcome): World
    requires id < |w.tasks| && (InCall(w.tasks[id].phase) || w.tasks[id].phase.Ready? || w.tasks[id].phase.QueuedProbe?)
  {
    var w' := Move(w, at, id, Settled(w.tasks[id].phase.k, o));
    w'.(tasks := w'.tasks[id := w'.tasks[id].(trail := w.tasks[id].trail + [o])])
  }

  // ---------- the steps ----------

  datatype Action =
    | Spawn(ticket: string)
    | Lookup(id: nat, answered: bool)
    | AskSlot(id: nat)
    | GrantSlot(id: nat)
    | Attempt(id: nat)
    | GrantProbe(id: nat)
    | AskPace(id: nat)
    | GrantPace(id: nat)
    | Post(id: nat)
    | Answer(id: nat, outcome: Outcome, r: Readings, again: Readings)
    | Resolve(id: nat, draw: real)
    | Wake(id: nat)
    | LeaveSlot(id: nat)
    | Save(id: nat, reply: Reply)
    | Cancel(id: nat, written: bool)

  datatype Event = Event(at: real, action: Action)

  function Ending(o: Outcome): CircuitBreakers.Ending {
    if o.Answered? then Succeeds else Fails
  }

  predicate Enabled(c: Config, w: World, e: Event) {
    && w.now <= e.at
    && (e.action.Spawn? ||
        (e.action.id < |w.tasks| && EnabledFor(c, w, e.at, e.action, w.tasks[e.action.id].phase)))
  }

  predicate EnabledFor(c: Config, w: World, at: real, a: Action, p: Phase)
    requires !a.Spawn?
  {
    match a
    case Lookup(_, _) => p.Fresh?
    case AskSlot(_) => p.Missed?
    case GrantSlot(id) => p.QueuedSlot? && NextInLine(w.gates.slot, id)
    case Attempt(_) => p.Ready?
    case GrantProbe(id) => p.QueuedProbe? && NextInLine(w.gates.probe, id)
    case AskPace(_) => p.Launched?
    case GrantPace(id) => p.QueuedPace? && NextInLine(w.gates.pace, id)
    case Post(_) => p.Pacing? && p.until <= at
    case Answer(_, o, r, again) =>
      p.InFlight? && !o.Refused? && (p.route.Some? ==> ReadingsInOrder(at, p.route.value, Ending(o), r, again))
    case Resolve(_, draw) => p.Settled? && IsDraw(draw)
    case Wake(_) => p.Resting? && p.until <= at
    case LeaveSlot(_) => p.Returning?
    case Save(_, _) => p.Storing?
    case Cancel(_, _) => !p.Done?
  }

  function Max(x: real, y: real): real {
    if x >= y then x else y
  }

  /** The instant at which the holder of the rate-limit lock may go on. */
  function PaceUntil(c: Config, w: World, at: real): real {
    Max(at, w.lastCall + c.minInterval)
  }

  /** A call at the breaker: refused, started, or contending for the probe lock. */
  function AttemptStep(c: Config, w: World, at: real, id: nat): World
    requires id < |w.tasks| && w.tasks[id].phase.Ready?
  {
    var k := w.tasks[id].phase.k;
    if !c.breakerOn then Move(w, at, id, Launched(k, None))
    else
      var t := NoteEntry(c.breaker, w.traced, at);
      match Admit(t.b)
      case Refuse => Settle(w.(traced := t), at, id, Refused)
      case Start(path) => Move(w.(traced := NoteStart(t, at)), at, id, Launched(k, Some(path)))
      case Contend =>
        if FreeFor(w.gates.probe)
        then UnderLock(w.(traced := t), at, id)
        else Move(w.(traced := t), at, id, QueuedProbe(k))
  }

  /** A call that has the probe lock: the state is looked at again. */
  function UnderLock(w: World, at: real, id: nat): World
    requires id < |w.tasks| && (w.tasks[id].phase.Ready? || w.tasks[id].phase.QueuedProbe?)
  {
    match AdmitUnderLock(w.traced.b)
    case Start(path) => Move(w.(traced := NoteStart(w.traced, at)), at, id, Launched(w.tasks[id].phase.k, Some(path)))
    case _ => Settle(w, at, id, Refused)
  }

  function AnswerStep(c: Config, w: World, at: real, a: Action): World
    requires a.Answer? && a.id < |w.tasks| && w.tasks[a.id].phase.InFlight?
  {
    match w.tasks[a.id].phase.route
    case None => Settle(w, at, a.id, a.outcome)
    case Some(path) =>
      var e := Ending(a.outcome);
      Settle(w.(traced := NoteFinish(c.breaker, w.traced, at, path, e, a.r, a.again)),
             LastReading(at, path, e, a.r, a.again), a.id, a.outcome)
  }

  function Tagged(raw: Raw, hit: bool): Raw {
    match raw
    case Value(d) => Value(d["cache_hit" := Boolean(hit)])
    case Raised(_, _) => raw
  }

  function AfterLookup(c: Config, w: World, ticket: string, answered: bool): Phase {
    var key := NormalForm(c, ticket);
    if !answered then Done(Raised("RedisError", ""), Broken)
    else if key in w.store then Done(Tagged(Value(w.store[key]), true), FromCache)
    else Missed
  }

  /** The retry policy's answer to an outcome: return, sleep, or go straight to the next attempt. */
  function AfterOutcome(c: Config, ticket: string, at: real, k: Attempt, o: Outcome, draw: real): Phase {
    match Decide(c.retry, ticket, k, o, draw)
    case Return(raw) => Returning(raw)
    case Sleep(seconds) => Resting(k, at + seconds)
    case Again => if k == c.retry.maxRetries then Returning(Exhausted(ticket)) else Ready(k + 1)
  }

  function AfterSlot(raw: Raw): Phase {
    if raw.Value? && Lacks(raw.dict, "error") then Storing(raw.dict) else Done(Tagged(raw, false), FromCalls(raw))
  }

  /** The actions that touch nothing but their own task and the gates. */
  predicate IsPlain(a: Action) {
    || a.Lookup? || a.AskSlot? || a.GrantSlot? || a.AskPace? || a.GrantPace? || a.Resolve? || a.Wake? || a.LeaveSlot?
  }

  function NextPhase(c: Config, w: World, at: real, a: Action, t: Task): Phase
    requires IsPlain(a) && EnabledFor(c, w, at, a, t.phase)
  {
    var p := t.phase;
    match a
    case Lookup(_, answered) => AfterLookup(c, w, t.ticket, answered)
    case AskSlot(_) => if FreeFor(w.gates.slot) then Ready(1) else QueuedSlot
    case GrantSlot(_) => Ready(1)
    case AskPace(_) =>
      if c.minInterval <= 0.0 then InFlight(p.k, p.route)
      else if FreeFor(w.gates.pace) then Pacing(p.k, p.route, PaceUntil(c, w, at))
      else QueuedPace(p.k, p.route)
    case GrantPace(_) => Pacing(p.k, p.route, PaceUntil(c, w, at))
    case Resolve(_, draw) => AfterOutcome(c, t.ticket, at, p.k, p.outcome, draw)
    case Wake(_) => Ready(p.k + 1)
    case LeaveSlot(_) => AfterSlot(p.raw)
  }

  /** The draw, and the pause it leads to, go on the task's record. */
  function Recorded(c: Config, w: World, a: Action): World
    requires IsPlain(a) && a.id < |w.tasks| && (a.Resolve? ==> w.tasks[a.id].phase.Settled?)
  {
    if a.Resolve? then w.(tasks := w.tasks[a.id := Paused(c, w.tasks[a.id], a.draw)]) else w
  }

  function Paused(c: Config, t: Task, draw: real): Task
    requires t.phase.Settled?
  {
    var d := Decide(c.retry, t.ticket, t.phase.k, t.phase.outcome, draw);
    t.(draws := t.draws + [draw], pauses := t.pauses + PauseOf(d))
  }

  function PostStep(w: World, at: real, id: nat): World
    requires id < |w.tasks| && w.tasks[id].phase.Pacing?
  {
    var p := w.tasks[id].phase;
    Move(w.(lastCall := at, permits := w.permits + [at]), at, id, InFlight(p.k, p.route))
  }

  /** The cache after the result of a task has been sent to it. */
  function Written(c: Config, w: World, id: nat): World
    requires id < |w.tasks| && w.tasks[id].phase.Storing?
  {
    var ticket, kept := w.tasks[id].ticket, w.tasks[id].phase.dict - {"cache_hit"};
    w.(store := Cache.SetIfAbsent(w.store, NormalForm(c, ticket), kept), writes := w.writes + [(ticket, kept)])
  }

  function SaveStep(c: Config, w: World, at: real, id: nat, reply: Reply): World
    requires id < |w.tasks| && w.tasks[id].phase.Storing?
  {
    var raw := Value(w.tasks[id].phase.dict);
    Move(if reply == Lost then w else Written(c, w, id), at, id,
         if reply == Acknowledged then Done(Tagged(raw, false), FromCalls(raw)) else Done(Raised("RedisError", ""),
         Broken))
  }

  /**
   Cancellation unwinds the coroutine; a cancelled wrapped call leaves no failure record, and a write to
   the cache that was under way may have arrived.
   */
  function CancelStep(c: Config, w: World, at: real, id: nat, written: bool): World
    requires id < |w.tasks|
  {
    var p := w.tasks[id].phase;
    var t := if InCall(p) && p.route.Some?
             then NoteFinish(c.breaker, w.traced, at, p.route.value, IsCancelled,
                             Readings(at, at, at), Readings(at, at, at))
             else w.traced;
    var v := if p.Storing? && written then Written(c, w, id) else w;
    Move(v.(traced := t), at, id, Done(Raised("CancelledError", ""), Broken))
  }

  function Step(c: Config, w: World, e: Event): World
    requires Enabled(c, w, e)
  {
    var at, a := e.at, e.action;
    if IsPlain(a) then Move(Recorded(c, w, a), at, a.id, NextPhase(c, w, at, a, w.tasks[a.id]))
    else
      match a
      case Spawn(ticket) => w.(now := at, tasks := w.tasks + [NewTask(ticket)])
      case Attempt(id) => AttemptStep(c, w, at, id)
      case GrantProbe(id) => UnderLock(w, at, id)
      case Post(id) => PostStep(w, at, id)
      case Answer(_, _, _, _) => AnswerStep(c, w, at, a)
      case Save(id, reply) => SaveStep(c, w, at, id, reply)
      case Cancel(id, written) => CancelStep(c, w, at, id, written)
  }

  // ---------- what each ticket's own history says ----------

  /** None of the outcomes so far was decisive. */
  predicate Undecided(c: Config, trail: seq<Outcome>) {
    forall j :: 0 <= j < |trail| ==> !Decisive(c.retry, j + 1, trail[j])
  }

  /** `raw` is what the retry loop returns after exactly these outcomes. */
  predicate Verdict(c: Config, ticket: string, trail: seq<Outcome>, raw: Raw) {
    && 1 <= |trail| <= c.retry.maxRetries
    && Undecided(c, trail[..|trail| - 1])
    && var n := |trail|;
       if Decisive(c.retry, n, trail[n - 1])
       then Decide(c.retry, ticket, n, trail[n - 1], 0.0) == Return(raw)
       else n == c.retry.maxRetries && raw == Exhausted(ticket)
  }

  predicate TaskOk(c: Config, t: Task) {
    var n := |t.trail|;
    match t.phase
    case Fresh => n == 0
    case Missed => n == 0
    case QueuedSlot => n == 0
    case Settled(k, o) => k == n && k <= c.retry.maxRetries && t.trail[n - 1] == o && Undecided(c, t.trail[..n - 1])
    case Resting(k, _) => k == n && k < c.retry.maxRetries && Undecided(c, t.trail)
    case Returning(raw) => Verdict(c, t.ticket, t.trail, raw)
    case Storing(d) => Lacks(d, "error") && Verdict(c, t.ticket, t.trail, Value(d))
    case Done(out, FromCalls(raw)) => out == Tagged(raw, false) && Verdict(c, t.ticket, t.trail, raw)
    case Done(out, Broken) => out.Raised?
    case Done(out, FromCache) => n == 0
    case _ => t.phase.k == n + 1 && t.phase.k <= c.retry.maxRetries && Undecided(c, t.trail)
  }

  /** The pauses so far are those that the retry policy takes after these outcomes, with these draws. */
  ghost predicate PauseOk(c: Config, t: Task) {
    && (match t.phase
        case Settled(_, _) => |t.draws| + 1 == |t.trail|
        case Done(_, Broken) => |t.draws| <= |t.trail|
        case _ => |t.draws| == |t.trail|)
    && (forall k :: 0 <= k < |t.draws| ==> IsDraw(t.draws[k]))
    && t.pauses == PausesOf(c.retry, t.ticket, t.trail, t.draws)
  }

  ghost predicate PausesOk(c: Config, w: World) {
    forall i :: 0 <= i < |w.tasks| ==> PauseOk(c, w.tasks[i])
  }

  ghost predicate TasksOk(c: Config, w: World) {
    forall i :: 0 <= i < |w.tasks| ==> TaskOk(c, w.tasks[i])
  }

  // ---------- runs ----------

  /** Every event of the run is enabled in its turn, and the last one leaves the world at `w'`. */
  ghost predicate Leads(c: Config, w: World, run: seq<Event>, w': World)
    decreases |run|
  {
    if run == [] then w' == w
    else
      && Enabled(c, w, run[0])
      && Leads(c, Step(c, w, run[0]), run[1..], w')
  }
}
