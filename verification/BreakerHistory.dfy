/**
 The breaker together with what an observer has seen it do, and the laws every history obeys.

 `recorded` holds the failures recorded since the breaker last closed, `cutoff` the bound of the
 latest eviction, and `marks` the openings, the starts of wrapped calls and the cancelled probes.
 */
module BreakerHistory {
  import opened Common
  import opened CircuitBreakers

  datatype Mark =
    | Opened(at: real)
    | Started(at: real, during: State)
    | Abandoned(at: real)

  datatype Traced = Traced(b: Breaker, recorded: seq<real>, cutoff: real, marks: seq<Mark>)

  function NewTrace(s: Settings, now: real): Traced {
    Traced(INITIAL, [], now - s.window, [])
  }

  function NoteSuccess(t: Traced): Traced {
    t.(b := OnSuccess(t.b), recorded := if t.b.state == HalfOpen then [] else t.recorded)
  }

  function NoteFailure(s: Settings, t: Traced, r: Readings): Traced {
    var b := OnFailure(s, t.b, r);
    Traced(b, t.recorded + [r.stamp], r.sweep - s.window,
           if t.b.state != Open && b.state == Open then t.marks + [Opened(r.change)] else t.marks)
  }

  function NoteFinish(s: Settings, t: Traced, at: real, path: Path, e: Ending, r: Readings,
                      again: Readings): (t': Traced)
    ensures t'.b == Finish(s, t.b, path, e, r, again)
  {
    match e
    case Succeeds => if path == Probe then NoteSuccess(NoteSuccess(t)) else NoteSuccess(t)
    case Fails => if path == Probe then NoteFailure(s, NoteFailure(s, t, r), again) else NoteFailure(s, t, r)
    case RaisesOpenError => if path == Probe then NoteFailure(s, t, r) else t
    case IsCancelled => if path == Probe then t.(marks := t.marks + [Abandoned(at)]) else t
  }

  function NoteEntry(s: Settings, t: Traced, at: real): Traced {
    t.(b := MaybeTransition(s, t.b, at))
  }

  function NoteStart(t: Traced, at: real): Traced {
    t.(marks := t.marks + [Started(at, t.b.state)])
  }

  // ---------- the sliding window ----------

  ghost predicate Sorted(ts: seq<real>) {
    forall i, j :: 0 <= i < j < |ts| ==> ts[i] <= ts[j]
  }

  /** The timestamps at or after `cutoff`, by a full scan. */
  function Since(ts: seq<real>, cutoff: real): (r: seq<real>)
    ensures |r| <= |ts|
  {
    if ts == [] then []
    else Since(ts[..|ts| - 1], cutoff) + (if ts[|ts| - 1] >= cutoff then [ts[|ts| - 1]] else [])
  }

  lemma {:induction false} SinceKeepsRecent(ts: seq<real>, cutoff: real)
    requires forall i :: 0 <= i < |ts| ==> ts[i] >= cutoff
    ensures Since(ts, cutoff) == ts
  {
    if ts != [] {
      SinceKeepsRecent(ts[..|ts| - 1], cutoff);
      assert ts == ts[..|ts| - 1] + [ts[|ts| - 1]];
    }
  }

  lemma {:induction false} SinceDropsOldFirst(ts: seq<real>, cutoff: real)
    requires ts != [] && ts[0] < cutoff
    ensures Since(ts, cutoff) == Since(ts[1..], cutoff)
  {
    var n := |ts| - 1;
    if n == 0 {
      assert ts[..0] == [];
    } else {
      SinceDropsOldFirst(ts[..n], cutoff);
      assert ts[..n][1..] == ts[1..][..n - 1];
    }
  }

  /** Popping from the front agrees with the full scan, because the timestamps are in order. */
  lemma {:induction false} EvictIsFullScan(ts: seq<real>, cutoff: real)
    requires Sorted(ts)
    ensures Evict(ts, cutoff) == Since(ts, cutoff)
    decreases |ts|
  {
    if ts != [] && ts[0] < cutoff {
      EvictIsFullScan(ts[1..], cutoff);
      SinceDropsOldFirst(ts, cutoff);
    } else {
      SinceKeepsRecent(ts, cutoff);
    }
  }

  lemma {:induction false} SinceMembers(ts: seq<real>, cutoff: real)
    requires Sorted(ts)
    ensures Sorted(Since(ts, cutoff))
    ensures Since(ts, cutoff) != [] ==> ts != [] && Since(ts, cutoff)[|Since(ts, cutoff)| - 1] <= ts[|ts| - 1]
  {
    if ts != [] {
      var front := ts[..|ts| - 1];
      SinceMembers(front, cutoff);
      SortedAppend(Since(front, cutoff), ts[|ts| - 1]);
    }
  }

  lemma SortedAppend(ts: seq<real>, x: real)
    requires Sorted(ts) && (ts != [] ==> ts[|ts| - 1] <= x)
    ensures Sorted(ts + [x])
  {
    forall i, j | 0 <= i < j < |ts + [x]|
      ensures (ts + [x])[i] <= (ts + [x])[j]
    {
      assert ts[i] <= ts[|ts| - 1] <= x;
    }
  }

  lemma SinceAppend(ts: seq<real>, x: real, cutoff: real)
    ensures Since(ts + [x], cutoff) == Since(ts, cutoff) + (if x >= cutoff then [x] else [])
  {
    assert (ts + [x])[..|ts|] == ts;
  }

  lemma {:induction false} SinceTwice(ts: seq<real>, early: real, late: real)
    requires early <= late
    ensures Since(Since(ts, early), late) == Since(ts, late)
  {
    if ts != [] {
      var n := |ts| - 1;
      SinceTwice(ts[..n], early, late);
      if ts[n] >= early {
        SinceAppend(Since(ts[..n], early), ts[n], late);
      } else {
        assert Since(ts, early) == Since(ts[..n], early);
      }
    }
  }

  /** Evicting an already evicted window plus one new failure is scanning the whole log once. */
  lemma WindowAdvances(recorded: seq<real>, early: real, late: real, stamp: real)
    requires Sorted(recorded) && (recorded != [] ==> recorded[|recorded| - 1] <= stamp) && early <= late
    ensures Sorted(recorded + [stamp])
    ensures Evict(Since(recorded, early) + [stamp], late) == Since(recorded + [stamp], late)
  {
    var kept := Since(recorded, early);
    SinceMembers(recorded, early);
    SortedAppend(recorded, stamp);
    SortedAppend(kept, stamp);
    EvictIsFullScan(kept + [stamp], late);
    SinceTwice(recorded, early, late);
    SinceAppend(kept, stamp, late);
    SinceAppend(recorded, stamp, late);
  }

  // ---------- the invariant of a history ----------

  /** The deque is exactly the in-window part of the failures recorded since the last close. */
  ghost predicate WindowExact(s: Settings, t: Traced, now: real) {
    && Sorted(t.recorded)
    && (t.recorded != [] ==> t.recorded[|t.recorded| - 1] <= now)
    && t.cutoff <= now - s.window
    && t.b.failures == Since(t.recorded, t.cutoff)
  }

  ghost predicate StateExact(s: Settings, t: Traced, now: real) {
    && (t.b.state == Closed ==> |t.b.failures| < s.threshold)
    && (t.b.openedAt == None <==> t.b.state == Closed)
    && (t.b.openedAt.Some? ==> t.b.openedAt.value <= now)
  }

  ghost predicate MarksPast(t: Traced, now: real) {
    && (forall i :: 0 <= i < |t.marks| ==> t.marks[i].at <= now)
    && InOrder(t.marks)
  }

  ghost predicate InOrder(marks: seq<Mark>) {
    forall i, j :: 0 <= i < j < |marks| ==> marks[i].at <= marks[j].at
  }

  /** Outside Open the recovery time has passed since every opening; in Open the last one is known. */
  ghost predicate OpeningsAged(s: Settings, t: Traced, now: real) {
    forall i :: 0 <= i < |t.marks| && t.marks[i].Opened? ==>
      if t.b.state == Open
      then t.b.openedAt.Some? && t.marks[i].at <= t.b.openedAt.value
      else t.marks[i].at + s.recovery <= now
  }

  /** No wrapped call starts while Open, nor sooner than the recovery time after any opening. */
  ghost predicate Dwells(s: Settings, marks: seq<Mark>) {
    && (forall j :: 0 <= j < |marks| && marks[j].Started? ==> marks[j].during != Open)
    && (forall i, j :: 0 <= i < j < |marks| && marks[i].Opened? && marks[j].Started? ==>
          marks[i].at + s.recovery <= marks[j].at)
  }

  ghost predicate IsProbeStart(m: Mark) {
    m.Started? && m.during == HalfOpen
  }

  /** Some mark strictly between i and j ends the Half-Open episode of i, or is a cancelled probe. */
  ghost predicate Interrupted(marks: seq<Mark>, i: int, j: int) {
    exists m :: 0 <= i < m < j <= |marks| && !marks[m].Started?
  }

  ghost predicate ProbesSeparated(marks: seq<Mark>) {
    forall i, j :: 0 <= i < j < |marks| && IsProbeStart(marks[i]) && IsProbeStart(marks[j]) ==>
      Interrupted(marks, i, j)
  }

  /** A probe has started and since then the breaker has neither opened nor lost the probe. */
  ghost predicate Probing(marks: seq<Mark>) {
    exists i :: 0 <= i < |marks| && IsProbeStart(marks[i]) && !Interrupted(marks, i, |marks|)
  }

  /** The instant of the latest opening. */
  function LastOpened(marks: seq<Mark>): Option<real> {
    if marks == [] then None
    else if marks[|marks| - 1].Opened? then Some(marks[|marks| - 1].at)
    else LastOpened(marks[..|marks| - 1])
  }

  lemma LastOpenedMore(marks: seq<Mark>, m: Mark)
    ensures LastOpened(marks + [m]) == if m.Opened? then Some(m.at) else LastOpened(marks)
  {
    assert (marks + [m])[..|marks|] == marks;
  }

  /** What the invariant says of the marks. */
  ghost predicate MarksSound(s: Settings, t: Traced, now: real) {
    && MarksPast(t, now)
    && OpeningsAged(s, t, now)
    && Dwells(s, t.marks)
    && ProbesSeparated(t.marks)
    && (t.b.state == Open ==> !Probing(t.marks))
    && (t.b.openedAt.Some? ==> t.b.openedAt == LastOpened(t.marks))
  }

  ghost predicate Sound(s: Settings, t: Traced, now: real) {
    WindowExact(s, t, now) && StateExact(s, t, now) && MarksSound(s, t, now)
  }

  lemma NewTraceSound(s: Settings, now: real)
    requires Sensible(s)
    ensures Sound(s, NewTrace(s, now), now)
  {
  }

  lemma SoundLater(s: Settings, t: Traced, now: real, later: real)
    requires Sound(s, t, now) && now <= later
    ensures Sound(s, t, later)
  {
  }

  // ---------- marks ----------

  lemma MarkAppended(marks: seq<Mark>, m: Mark, i: int, j: int)
    requires 0 <= i < j <= |marks|
    ensures Interrupted(marks, i, j) <==> Interrupted(marks + [m], i, j)
  {
    if Interrupted(marks, i, j) {
      var k :| 0 <= i < k < j <= |marks| && !marks[k].Started?;
      assert !(marks + [m])[k].Started?;
    }
    if Interrupted(marks + [m], i, j) {
      var k :| 0 <= i < k < j <= |marks + [m]| && !(marks + [m])[k].Started?;
      assert !marks[k].Started?;
    }
  }

  /** An opening or a cancelled probe ends probing and keeps the separation. */
  lemma InterruptionRecorded(marks: seq<Mark>, m: Mark)
    requires !m.Started? && ProbesSeparated(marks)
    ensures !Probing(marks + [m]) && ProbesSeparated(marks + [m])
  {
    var more := marks + [m];
    forall i | 0 <= i < |more| && IsProbeStart(more[i])
      ensures Interrupted(more, i, |more|)
    {
      assert !more[|marks|].Started?;
    }
    forall i, j | 0 <= i < j < |more| && IsProbeStart(more[i]) && IsProbeStart(more[j])
      ensures Interrupted(more, i, j)
    {
      MarkAppended(marks, m, i, j);
    }
  }

  /** A start keeps the separation provided that it is not a second probe of one episode. */
  lemma StartRecorded(marks: seq<Mark>, m: Mark)
    requires m.Started? && ProbesSeparated(marks)
    requires IsProbeStart(m) ==> !Probing(marks)
    ensures ProbesSeparated(marks + [m])
    ensures !IsProbeStart(m) && !Probing(marks) ==> !Probing(marks + [m])
  {
    var more := marks + [m];
    forall i, j | 0 <= i < j < |more| && IsProbeStart(more[i]) && IsProbeStart(more[j])
      ensures Interrupted(more, i, j)
    {
      if j == |marks| {
        assert Interrupted(marks, i, |marks|);
      }
      MarkAppended(marks, m, i, j);
    }
    if !IsProbeStart(m) && !Probing(marks) {
      forall i | 0 <= i < |more| && IsProbeStart(more[i])
        ensures Interrupted(more, i, |more|)
      {
        assert Interrupted(marks, i, |marks|);
        MarkAppended(marks, m, i, |marks|);
      }
    }
  }

  // ---------- every stretch of breaker code keeps the invariant ----------

  lemma EntryKeepsSound(s: Settings, t: Traced, at: real)
    requires Sensible(s) && Sound(s, t, at)
    ensures Sound(s, NoteEntry(s, t, at), at)
  {
  }

  lemma StartKeepsSound(s: Settings, t: Traced, at: real)
    requires Sensible(s) && Sound(s, t, at) && t.b.state != Open
    requires t.b.state == HalfOpen ==> !Probing(t.marks)
    ensures Sound(s, NoteStart(t, at), at)
  {
    StartRecorded(t.marks, Started(at, t.b.state));
    LastOpenedMore(t.marks, Started(at, t.b.state));
  }

  lemma SuccessKeepsSound(s: Settings, t: Traced, now: real)
    requires Sensible(s) && Sound(s, t, now)
    ensures Sound(s, NoteSuccess(t), now)
  {
  }

  lemma FailureEvicts(s: Settings, t: Traced, r: Readings)
    ensures var t' := NoteFailure(s, t, r);
            && t'.recorded == t.recorded + [r.stamp] && t'.cutoff == r.sweep - s.window
            && t'.b.failures == Evict(t.b.failures + [r.stamp], t'.cutoff)
  {
  }

  lemma FailureKeepsWindow(s: Settings, t: Traced, r: Readings, now: real)
    requires WindowExact(s, t, now) && Ordered(r, now)
    ensures WindowExact(s, NoteFailure(s, t, r), r.change)
  {
    FailureEvicts(s, t, r);
    WindowAdvances(t.recorded, t.cutoff, r.sweep - s.window, r.stamp);
  }

  lemma FailureKeepsState(s: Settings, t: Traced, r: Readings, now: real)
    requires Sensible(s) && StateExact(s, t, now) && Ordered(r, now)
    ensures StateExact(s, NoteFailure(s, t, r), r.change)
  {
  }

  lemma FailureKeepsMarks(s: Settings, t: Traced, r: Readings, now: real)
    requires Sensible(s) && MarksSound(s, t, now) && Ordered(r, now)
    requires t.b.openedAt.Some? ==> t.b.openedAt.value <= now
    ensures MarksSound(s, NoteFailure(s, t, r), r.change)
  {
    if NoteFailure(s, t, r).marks != t.marks {
      InterruptionRecorded(t.marks, Opened(r.change));
      LastOpenedMore(t.marks, Opened(r.change));
    }
  }

  lemma FailureKeepsSound(s: Settings, t: Traced, r: Readings, now: real)
    requires Sensible(s) && Sound(s, t, now) && Ordered(r, now)
    ensures Sound(s, NoteFailure(s, t, r), r.change)
  {
    FailureKeepsWindow(s, t, r, now);
    FailureKeepsState(s, t, r, now);
    FailureKeepsMarks(s, t, r, now);
  }

  lemma AbandonKeepsSound(s: Settings, t: Traced, at: real)
    requires Sensible(s) && Sound(s, t, at)
    ensures Sound(s, t.(marks := t.marks + [Abandoned(at)]), at)
  {
    InterruptionRecorded(t.marks, Abandoned(at));
    LastOpenedMore(t.marks, Abandoned(at));
  }

  /** The instant of the last clock reading taken when a wrapped call ends. */
  function LastReading(at: real, path: Path, e: Ending, r: Readings, again: Readings): real {
    match e
    case Fails => if path == Probe then again.change else r.change
    case RaisesOpenError => if path == Probe then r.change else at
    case _ => at
  }

  predicate ReadingsInOrder(at: real, path: Path, e: Ending, r: Readings, again: Readings) {
    match e
    case Fails => Ordered(r, at) && (path == Probe ==> Ordered(again, r.change))
    case RaisesOpenError => path == Probe ==> Ordered(r, at)
    case _ => true
  }

  lemma FinishKeepsSound(s: Settings, t: Traced, at: real, path: Path, e: Ending, r: Readings, again: Readings)
    requires Sensible(s) && Sound(s, t, at) && ReadingsInOrder(at, path, e, r, again)
    ensures Sound(s, NoteFinish(s, t, at, path, e, r, again), LastReading(at, path, e, r, again))
  {
    match e
    case Succeeds =>
      SuccessKeepsSound(s, t, at);
      SuccessKeepsSound(s, NoteSuccess(t), at);
    case Fails =>
      FailureKeepsSound(s, t, r, at);
      if path == Probe {
        FailureKeepsSound(s, NoteFailure(s, t, r), again, r.change);
      }
    case RaisesOpenError =>
      if path == Probe {
        FailureKeepsSound(s, t, r, at);
      }
    case IsCancelled =>
      if path == Probe {
        AbandonKeepsSound(s, t, at);
      }
  }

  // ---------- what the invariant says ----------

  /**
   Closed goes to Open exactly when the failures recorded since the last close that lie inside the
   window reach the threshold, and then there are exactly that many of them.
   */
  lemma TripExact(s: Settings, t: Traced, r: Readings, now: real)
    requires Sensible(s) && Sound(s, t, now) && Ordered(r, now) && t.b.state == Closed
    ensures var inWindow := Since(t.recorded + [r.stamp], r.sweep - s.window);
            var b := OnFailure(s, t.b, r);
            && (b.state == Open <==> |inWindow| >= s.threshold)
            && (b.state != Open ==> b.state == Closed)
            && (b.state == Open ==> |inWindow| == s.threshold && b.failures == inWindow && b.openedAt == Some(r.change))
  {
    WindowAdvances(t.recorded, t.cutoff, r.sweep - s.window, r.stamp);
  }

  /**
   A failing call that started before the trip counts once; one that runs on the probe path counts
   twice, even after a stale success has closed the breaker under it.  Exactly when Closed trips:
   */
  lemma FailingCallTrips(s: Settings, t: Traced, at: real, path: Path, r: Readings, again: Readings)
    requires Sensible(s) && Sound(s, t, at) && t.b.state == Closed && ReadingsInOrder(at, path, Fails, r, again)
    ensures var once := Since(t.recorded + [r.stamp], r.sweep - s.window);
            var twice := Since(t.recorded + [r.stamp, again.stamp], again.sweep - s.window);
            && (Finish(s, t.b, path, Fails, r, again).state == Open <==>
                (|once| >= s.threshold || (path == Probe && |twice| >= s.threshold)))
  {
    TripExact(s, t, r, at);
    if path == Probe && NoteFailure(s, t, r).b.state == Closed {
      FailureKeepsSound(s, t, r, at);
      TripExact(s, NoteFailure(s, t, r), again, r.change);
      assert t.recorded + [r.stamp] + [again.stamp] == t.recorded + [r.stamp, again.stamp];
    }
  }

  /** A failed probe leaves two records and, from Half-Open, one opening. */
  lemma FailedProbeRecordsTwice(s: Settings, t: Traced, at: real, r: Readings, again: Readings)
    requires t.b.state == HalfOpen
    ensures var t' := NoteFinish(s, t, at, Probe, Fails, r, again);
            && t'.recorded == t.recorded + [r.stamp, again.stamp]
            && t'.marks == t.marks + [Opened(r.change)]
            && t'.b.state == Open && t'.b.openedAt == Some(r.change)
  {
    assert t.recorded + [r.stamp] + [again.stamp] == t.recorded + [r.stamp, again.stamp];
  }

  /** Half-Open is resolved by whichever wrapped call ends first, on whatever path it started. */
  lemma AnyEndingResolvesHalfOpen(s: Settings, b: Breaker, path: Path, e: Ending, r: Readings, again: Readings)
    requires b.state == HalfOpen
    ensures var b' := Finish(s, b, path, e, r, again);
            && (b'.state == Closed <==> e == Succeeds)
            && (b'.state == Open <==> e == Fails || (e == RaisesOpenError && path == Probe))
            && (b'.state == Closed ==> b' == INITIAL)
            && (b'.state == Open ==> b'.openedAt == Some(r.change))
  {
  }

  /** The four edges of the state diagram. */
  predicate Edge(x: State, y: State) {
    || (x == Closed && y == Open)
    || (x == Open && y == HalfOpen)
    || (x == HalfOpen && (y == Closed || y == Open))
  }

  /** Two probes with no cancelled probe between them are at least the recovery time apart. */
  lemma ProbeGap(s: Settings, marks: seq<Mark>, i: int, j: int)
    requires Dwells(s, marks) && ProbesSeparated(marks)
    requires InOrder(marks)
    requires 0 <= i < j < |marks| && IsProbeStart(marks[i]) && IsProbeStart(marks[j])
    requires forall m :: i < m < j ==> !marks[m].Abandoned?
    ensures marks[i].at + s.recovery <= marks[j].at
  {
    var m :| 0 <= i < m < j && !marks[m].Started?;
    assert marks[m].Opened?;
  }
}
