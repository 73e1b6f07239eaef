/**
 The sliding-window circuit breaker.

 `Breaker` is the breaker as a value and the functions on it say what each stretch of code
 between two suspension points does; class `CircuitBreaker` is the object itself, each of whose
 methods is proved to realise one of those functions.  The monotonic clock is read several times
 in one stretch; every reading is a parameter, and readings never decrease.
 */
module CircuitBreakers {
  import opened Common

  datatype State = Closed | Open | HalfOpen

  datatype Settings = Settings(threshold: nat, window: real, recovery: real)

  ghost predicate Sensible(s: Settings) {
    s.threshold >= 1 && s.window >= 0.0 && s.recovery > 0.0
  }

  datatype Breaker = Breaker(state: State, failures: seq<real>, openedAt: Option<real>)

  const INITIAL := Breaker(Closed, [], None)

  /** The three clock readings of one failure record: the timestamp, the eviction, the transition. */
  datatype Readings = Readings(stamp: real, sweep: real, change: real)

  predicate Ordered(r: Readings, since: real) {
    since <= r.stamp <= r.sweep <= r.change
  }

  /** How the wrapped coroutine ends. */
  datatype Ending = Succeeds | Fails | RaisesOpenError | IsCancelled

  /** How a call got past the breaker: no lock, under the probe lock, or as the probe. */
  datatype Path = Plain | Locked | Probe

  datatype Admission = Refuse | Contend | Start(path: Path)

  // ---------- the breaker as a value ----------

  function Evict(failures: seq<real>, cutoff: real): (r: seq<real>)
    ensures |r| <= |failures|
  {
    if failures != [] && failures[0] < cutoff then Evict(failures[1..], cutoff) else failures
  }

  function Transition(b: Breaker, to: State, at: real): Breaker {
    Breaker(to, b.failures,
            match to case Open => Some(at) case HalfOpen => b.openedAt case Closed => None)
  }

  function OnSuccess(b: Breaker): Breaker {
    if b.state == HalfOpen then Breaker(Closed, [], None) else b
  }

  function OnFailure(s: Settings, b: Breaker, r: Readings): Breaker {
    var recorded := b.(failures := Evict(b.failures + [r.stamp], r.sweep - s.window));
    if b.state == HalfOpen || (b.state == Closed && |recorded.failures| >= s.threshold)
    then Transition(recorded, Open, r.change)
    else recorded
  }

  predicate RecoveryDue(s: Settings, b: Breaker, at: real) {
    b.state == Open && b.openedAt.Some? && at - b.openedAt.value >= s.recovery
  }

  /** The breaker after the recovery check with which every call begins. */
  function MaybeTransition(s: Settings, b: Breaker, at: real): Breaker {
    if RecoveryDue(s, b, at) then Transition(b, HalfOpen, at) else b
  }

  /** What a call does next, given the state the recovery check leaves. */
  function Admit(b: Breaker): Admission {
    match b.state case Open => Refuse case HalfOpen => Contend case Closed => Start(Plain)
  }

  /** What a call does once it holds the probe lock. */
  function AdmitUnderLock(b: Breaker): Admission {
    match b.state case Open => Refuse case HalfOpen => Start(Probe) case Closed => Start(Locked)
  }

  /** The bookkeeping at the end of a wrapped call.  A failed probe records its failure twice. */
  function Finish(s: Settings, b: Breaker, path: Path, e: Ending, r: Readings, again: Readings): Breaker {
    match e
    case Succeeds => if path == Probe then OnSuccess(OnSuccess(b)) else OnSuccess(b)
    case Fails => if path == Probe then OnFailure(s, OnFailure(s, b, r), again) else OnFailure(s, b, r)
    case RaisesOpenError => if path == Probe then OnFailure(s, b, r) else b
    case IsCancelled => b
  }

  // ---------- the breaker object ----------

  class CircuitBreaker {
    const settings: Settings
    var state: State
    var failures: seq<real>
    var openedAt: Option<real>

    function View(): Breaker
      reads this
    {
      Breaker(state, failures, openedAt)
    }

    constructor (settings: Settings)
      ensures this.settings == settings && View() == INITIAL
    {
      this.settings := settings;
      state, failures, openedAt := Closed, [], None;
    }

    method EvictOldFailures(sweep: real)
      modifies this`failures
      ensures failures == Evict(old(failures), sweep - settings.window)
    {
      var cutoff := sweep - settings.window;
      while failures != [] && failures[0] < cutoff
        invariant Evict(failures, cutoff) == Evict(old(failures), cutoff)
        decreases |failures|
      {
        failures := failures[1..];
      }
    }

    method FailureCount(sweep: real) returns (count: nat)
      modifies this`failures
      ensures failures == Evict(old(failures), sweep - settings.window) && count == |failures|
    {
      EvictOldFailures(sweep);
      count := |failures|;
    }

    method TransitionTo(to: State, at: real)
      modifies this
      ensures View() == Transition(old(View()), to, at)
    {
      state := to;
      if to == Open {
        openedAt := Some(at);
      } else if to == Closed {
        openedAt := None;
      }
    }

    method RecordSuccess()
      modifies this
      ensures View() == OnSuccess(old(View()))
    {
      if state == HalfOpen {
        failures := [];
        TransitionTo(Closed, 0.0);
      }
    }

    method RecordFailure(r: Readings)
      modifies this
      ensures View() == OnFailure(settings, old(View()), r)
    {
      failures := failures + [r.stamp];
      EvictOldFailures(r.sweep);
      if state == HalfOpen {
        TransitionTo(Open, r.change);
        return;
      }
      if state == Closed && |failures| >= settings.threshold {
        TransitionTo(Open, r.change);
      }
    }

    /** A call up to its first possible suspension. */
    method Enter(at: real) returns (a: Admission)
      modifies this
      ensures View() == MaybeTransition(settings, old(View()), at)
      ensures a == Admit(View())
    {
      if state == Open && openedAt.Some? {
        var elapsed := at - openedAt.value;
        if elapsed >= settings.recovery {
          TransitionTo(HalfOpen, at);
        }
      }
      if state == Open {
        return Refuse;
      }
      if state == HalfOpen {
        return Contend;
      }
      return Start(Plain);
    }

    /** A call that has just been given the probe lock. */
    method EnterUnderLock() returns (a: Admission)
      ensures a == AdmitUnderLock(View())
    {
      if state != HalfOpen {
        if state == Open {
          return Refuse;
        }
        return Start(Locked);
      }
      return Start(Probe);
    }

    /** The wrapped call has ended: first the inner handler's bookkeeping, then the probe's own. */
    method Conclude(path: Path, e: Ending, r: Readings, again: Readings)
      modifies this
      ensures View() == Finish(settings, old(View()), path, e, r, again)
    {
      match e
      case Succeeds =>
        RecordSuccess();
        if path == Probe {
          RecordSuccess();
        }
      case Fails =>
        RecordFailure(r);
        if path == Probe {
          RecordFailure(again);
        }
      case RaisesOpenError =>
        if path == Probe {
          RecordFailure(r);
        }
      case IsCancelled =>
    }
  }
}
