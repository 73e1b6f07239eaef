/**
 Why the spacing of probes needs the condition that none is cancelled: a run of fifteen events in
 which two probes of one Half-Open episode start at the same instant.
 */
module CloseProbes {
  import opened Common
  import opened CircuitBreakers
  import opened BreakerHistory
  import opened Retry
  import opened Gates
  import opened Pipeline
  import opened PipelineSafety

  /** One failure opens the breaker for one second; two attempts, two slots, no throttle. */
  function Small(): (c: Config)
    ensures ConfigOk(c)
  {
    Config(Settings(1, 10.0, 1.0), true, RetrySettings(2, 1.0), 0.0, 2, s => s)
  }

  /** The breaker before anything, after the first start, once open, and probed. */
  function Fine(): Traced {
    NewTrace(Small().breaker, 0.0)
  }

  function Called(): Traced {
    Fine().(marks := [Started(0.0, Closed)])
  }

  function Tripped(): Traced {
    Traced(Breaker(Open, [0.0], Some(0.0)), [0.0], -10.0, [Started(0.0, Closed), Opened(0.0)])
  }

  function Probed(): Traced {
    Tripped().(b := Breaker(HalfOpen, [0.0], Some(0.0)),
               marks := [Started(0.0, Closed), Opened(0.0), Started(1.0, HalfOpen)])
  }

  /** The first ticket before and after its first attempt has failed, and the second one. */
  function Early(p: Phase): Task {
    Task("a", p, [], [], [])
  }

  function Late(p: Phase): Task {
    Task("a", p, [Unexpected], [0.0], [1.0])
  }

  function Other(p: Phase): Task {
    Task("b", p, [], [], [])
  }

  /** The world with this clock, breaker, gates and tasks, and nothing stored or throttled. */
  function At(now: real, t: Traced, slots: set<nat>, probe: set<nat>, waiting: seq<nat>, tasks: seq<Task>): World {
    World(now, t, GateSet(Gate(2, slots, []), Gate(1, probe, waiting), Gate(1, {}, [])), 0.0, [], map[], [], tasks)
  }

  /** The worlds of the run: one call opens the breaker, and two callers meet in Half-Open. */
  function Stage(k: nat): World
    requires k <= 13
  {
    match k
    case 0 => Init(Small(), 0.0)
    case 1 => At(0.0, Fine(), {}, {}, [], [Early(Fresh)])
    case 2 => At(0.0, Fine(), {}, {}, [], [Early(Missed)])
    case 3 => At(0.0, Fine(), {0}, {}, [], [Early(Ready(1))])
    case 4 => At(0.0, Called(), {0}, {}, [], [Early(Launched(1, Some(Plain)))])
    case 5 => At(0.0, Called(), {0}, {}, [], [Early(InFlight(1, Some(Plain)))])
    case 6 => At(0.0, Tripped(), {0}, {}, [], [Task("a", Settled(1, Unexpected), [Unexpected], [], [])])
    case 7 => At(0.0, Tripped(), {0}, {}, [], [Late(Resting(1, 1.0))])
    case 8 => At(0.0, Tripped(), {0}, {}, [], [Late(Resting(1, 1.0)), Other(Fresh)])
    case 9 => At(0.0, Tripped(), {0}, {}, [], [Late(Resting(1, 1.0)), Other(Missed)])
    case 10 => At(0.0, Tripped(), {0, 1}, {}, [], [Late(Resting(1, 1.0)), Other(Ready(1))])
    case 11 => At(1.0, Tripped(), {0, 1}, {}, [], [Late(Ready(2)), Other(Ready(1))])
    case 12 => At(1.0, Probed(), {0, 1}, {0}, [], [Late(Launched(2, Some(Probe))), Other(Ready(1))])
    case 13 => At(1.0, Probed(), {0, 1}, {0}, [1], [Late(Launched(2, Some(Probe))), Other(QueuedProbe(1))])
  }

  ghost predicate Reached(w: World) {
    Reachable(Small(), 0.0, w)
  }

  lemma Onward(w: World, e: Event, w': World)
    requires Reached(w) && Enabled(Small(), w, e) && Step(Small(), w, e) == w'
    ensures Reached(w')
  {
    ReachableOn(Small(), 0.0, w, e);
  }

  lemma OnwardPlain(w: World, at: real, a: Action, w': World)
    requires Reached(w) && w.now <= at
    requires IsPlain(a) && a.id < |w.tasks| && EnabledFor(Small(), w, at, a, w.tasks[a.id].phase)
    requires w' == Move(Recorded(Small(), w, a), at, a.id, NextPhase(Small(), w, at, a, w.tasks[a.id]))
    ensures Reached(w')
  {
    Onward(w, Event(at, a), w');
  }

  lemma OnwardMiss(w: World, at: real, id: nat, w': World)
    requires Reached(w) && w.now <= at && id < |w.tasks| && w.tasks[id].phase.Fresh? && w.store == map[]
    requires w' == Move(w, at, id, Missed)
    ensures Reached(w')
  {
    OnwardPlain(w, at, Lookup(id, true), w');
  }

  lemma OnwardSlot(w: World, at: real, id: nat, w': World)
    requires Reached(w) && w.now <= at && id < |w.tasks| && w.tasks[id].phase.Missed? && FreeFor(w.gates.slot)
    requires w' == Move(w, at, id, Ready(1))
    ensures Reached(w')
  {
    OnwardPlain(w, at, AskSlot(id), w');
  }

  lemma OnwardStart(w: World, at: real, id: nat, w': World)
    requires Reached(w) && w.now <= at && id < |w.tasks| && w.tasks[id].phase.Ready? && w.traced.b.state == Closed
    requires w' == Move(w.(traced := NoteStart(w.traced, at)), at, id, Launched(w.tasks[id].phase.k, Some(Plain)))
    ensures Reached(w')
  {
    Onward(w, Event(at, Attempt(id)), w');
  }

  lemma OnwardFail(w: World, id: nat, w': World)
    requires Reached(w) && id < |w.tasks| && w.tasks[id].phase.InFlight? && w.tasks[id].phase.route == Some(Plain)
    requires var r := Readings(w.now, w.now, w.now);
             w' == Settle(w.(traced := NoteFailure(Small().breaker, w.traced, r)), w.now, id, Unexpected)
    ensures Reached(w')
  {
    var r := Readings(w.now, w.now, w.now);
    Onward(w, Event(w.now, Answer(id, Unexpected, r, r)), w');
  }

  /** The first caller after the recovery time takes the probe lock. */
  lemma OnwardProbe(w: World, at: real, id: nat, w': World)
    requires Reached(w) && w.now <= at && id < |w.tasks| && w.tasks[id].phase.Ready? && FreeFor(w.gates.probe)
    requires RecoveryDue(Small().breaker, w.traced.b, at)
    requires var t := w.traced.(b := w.traced.b.(state := HalfOpen), marks := w.traced.marks + [Started(at, HalfOpen)]);
             w' == Move(w.(traced := t), at, id, Launched(w.tasks[id].phase.k, Some(Probe)))
    ensures Reached(w')
  {
    Onward(w, Event(at, Attempt(id)), w');
  }

  lemma OnwardWait(w: World, at: real, id: nat, w': World)
    requires Reached(w) && w.now <= at && id < |w.tasks| && w.tasks[id].phase.Ready? && !FreeFor(w.gates.probe)
    requires w.traced.b.state == HalfOpen && w' == Move(w, at, id, QueuedProbe(w.tasks[id].phase.k))
    ensures Reached(w')
  {
    Onward(w, Event(at, Attempt(id)), w');
  }

  lemma FirstArrives()
    requires Reached(Stage(0))
    ensures Reached(Stage(1))
  {
    Onward(Stage(0), Event(0.0, Spawn("a")), Stage(1));
  }

  lemma FirstMisses()
    requires Reached(Stage(1))
    ensures Reached(Stage(2))
  {
    OnwardMiss(Stage(1), 0.0, 0, Stage(2));
  }

  lemma FirstGetsSlot()
    requires Reached(Stage(2))
    ensures Reached(Stage(3))
  {
    OnwardSlot(Stage(2), 0.0, 0, Stage(3));
  }

  lemma FirstStarts()
    requires Reached(Stage(3))
    ensures Reached(Stage(4))
  {
    OnwardStart(Stage(3), 0.0, 0, Stage(4));
  }

  lemma FirstPosts()
    requires Reached(Stage(4))
    ensures Reached(Stage(5))
  {
    OnwardPlain(Stage(4), 0.0, AskPace(0), Stage(5));
  }

  lemma FirstFails()
    requires Reached(Stage(5))
    ensures Reached(Stage(6))
  {
    assert [] + [0.0] == [0.0] && Evict([0.0], -10.0) == [0.0];
    assert [] + [Unexpected] == [Unexpected];
    assert NoteFailure(Small().breaker, Called(), Readings(0.0, 0.0, 0.0)) == Tripped();
    OnwardFail(Stage(5), 0, Stage(6));
  }

  lemma FirstRests()
    requires Reached(Stage(6))
    ensures Reached(Stage(7))
  {
    assert Backoff(Small().retry, 1) == 1.0 * Pow2(0) as real == 1.0;
    assert Decide(Small().retry, "a", 1, Unexpected, 0.0) == Sleep(1.0);
    assert Paused(Small(), Stage(6).tasks[0], 0.0).(phase := Resting(1, 1.0)) == Late(Resting(1, 1.0));
    OnwardPlain(Stage(6), 0.0, Resolve(0, 0.0), Stage(7));
  }

  lemma OtherArrives()
    requires Reached(Stage(7))
    ensures Reached(Stage(8))
  {
    Onward(Stage(7), Event(0.0, Spawn("b")), Stage(8));
  }

  lemma OtherMisses()
    requires Reached(Stage(8))
    ensures Reached(Stage(9))
  {
    OnwardMiss(Stage(8), 0.0, 1, Stage(9));
  }

  lemma OtherTakesSlot()
    ensures Move(Stage(9), 0.0, 1, Ready(1)) == Stage(10)
  {
  }

  lemma OtherGetsSlot()
    requires Reached(Stage(9))
    ensures Reached(Stage(10))
  {
    OtherTakesSlot();
    OnwardSlot(Stage(9), 0.0, 1, Stage(10));
  }

  lemma FirstWakes()
    requires Reached(Stage(10))
    ensures Reached(Stage(11))
  {
    OnwardPlain(Stage(10), 1.0, Wake(0), Stage(11));
  }

  lemma FirstProbes()
    requires Reached(Stage(11))
    ensures Reached(Stage(12))
  {
    OnwardProbe(Stage(11), 1.0, 0, Stage(12));
  }

  lemma OtherQueues()
    ensures Move(Stage(12), 1.0, 1, QueuedProbe(1)) == Stage(13)
  {
  }

  lemma OtherWaits()
    requires Reached(Stage(12))
    ensures Reached(Stage(13))
  {
    OtherQueues();
    OnwardWait(Stage(12), 1.0, 1, Stage(13));
  }

  lemma BothCallersMeet()
    ensures Reached(Stage(13))
  {
    assert Leads(Small(), Stage(0), [], Stage(0));
    FirstArrives();
    FirstMisses();
    FirstGetsSlot();
    FirstStarts();
    FirstPosts();
    FirstFails();
    FirstRests();
    OtherArrives();
    OtherMisses();
    OtherGetsSlot();
    FirstWakes();
    FirstProbes();
    OtherWaits();
  }

  /**
   A reachable world with a live probe and a waiter, and one step later, still in the same instant, two
   probe starts: neither the spacing nor the rate bound holds.
   */
  lemma ProbesCanBeClose() returns (w: World)
    ensures ConfigOk(Small()) && Reachable(Small(), 0.0, Stage(13)) && Reachable(Small(), 0.0, w)
    ensures var v := Stage(13);
            v.traced.b.state == HalfOpen && OnProbe(v.tasks[0].phase) && v.gates.probe.queue == [1]
    ensures var times := ProbeTimes(w.traced.marks);
            && times == [1.0, 1.0] && !Spaced(times, Small().breaker.recovery)
            && CountWithin(times, 1.0, 1.0 + 0.0) > (0.0 / Small().breaker.recovery).Floor + 1
  {
    BothCallersMeet();
    w := CancelledProbeRun(Small(), 0.0, Stage(13), 1.0, 0, 1);
    TwoProbesAtOnce();
    assert w.traced.marks == TwiceProbed();
  }

  function TwiceProbed(): seq<Mark> {
    [Started(0.0, Closed), Opened(0.0), Started(1.0, HalfOpen), Abandoned(1.0), Started(1.0, HalfOpen)]
  }

  lemma TwoProbesAtOnce()
    ensures var times := ProbeTimes(TwiceProbed());
            times == [1.0, 1.0] && !Spaced(times, 1.0) && CountWithin(times, 1.0, 1.0) == 2
  {
    var marks := TwiceProbed();
    ProbeTimesMore(marks[..4], marks[4]);
    ProbeTimesMore(marks[..3], marks[3]);
    ProbeTimesMore(marks[..2], marks[2]);
    ProbeTimesMore(marks[..1], marks[1]);
    ProbeTimesMore(marks[..0], marks[0]);
    assert marks == marks[..4] + [marks[4]] && marks[..4] == marks[..3] + [marks[3]];
    assert marks[..3] == marks[..2] + [marks[2]] && marks[..2] == marks[..1] + [marks[1]];
    assert marks[..1] == marks[..0] + [marks[0]];
    var times := ProbeTimes(marks);
    assert times[..1] == [1.0] && times[..1][..0] == [];
    assert times[0] + 1.0 > times[1];
  }

  lemma ProbeTimesMore(marks: seq<Mark>, m: Mark)
    ensures ProbeTimes(marks + [m]) == ProbeTimes(marks) + (if IsProbeStart(m) then [m.at] else [])
  {
    assert (marks + [m])[..|marks|] == marks;
  }
}
