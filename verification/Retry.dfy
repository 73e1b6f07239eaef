/**
 One ticket's retry loop: which outcomes of an attempt are final, which are tried again, how long
 the loop sleeps in between.  The outcome of each attempt and the jitter draws are parameters.
 */
module Retry {
  import opened Records

  /** The `Retry-After` header: missing or empty, a number of seconds, or anything else. */
  datatype RetryAfter = Absent | Seconds(s: real) | Unreadable(text: string)

  /** How one attempt at the API ends, as the loop sees it. */
  datatype Outcome =
    | Answered(body: Json, tokens: Count)
    | Refused
    | Status(code: nat, retryAfter: RetryAfter)
    | MalformedJson
    | Unexpected

  const FATAL_STATUS_CODES: set<nat> := {400, 401, 403, 422}
  const RETRYABLE_STATUS_CODES: set<nat> := {429, 500, 503}

  datatype RetrySettings = RetrySettings(maxRetries: nat, backoffBase: real)

  function Pow2(n: nat): (p: nat)
    ensures p >= 1
  {
    if n == 0 then 1 else 2 * Pow2(n - 1)
  }

  function Backoff(c: RetrySettings, attempt: nat): real
    requires attempt >= 1
  {
    c.backoffBase * Pow2(attempt - 1) as real
  }

  function Jittered(base: real, draw: real): real {
    base * (1.0 + draw)
  }

  predicate IsDraw(draw: real) {
    -0.2 <= draw <= 0.2
  }

  function Decimal(n: nat): string {
    if n < 10 then [DIGITS[n]] else Decimal(n / 10) + [DIGITS[n % 10]]
  }

  const DIGITS := "0123456789"

  /** The number that a text of digits denotes. */
  function ValueOf(digits: string): nat
    requires forall i :: 0 <= i < |digits| ==> '0' <= digits[i] <= '9'
  {
    if digits == "" then 0
    else 10 * ValueOf(digits[..|digits| - 1]) + (digits[|digits| - 1] as int - '0' as int)
  }

  /** The decimal text of a number: digits that denote it, without a leading zero. */
  lemma {:induction false} DecimalDenotes(n: nat)
    ensures var s := Decimal(n);
            && s != "" && (forall i :: 0 <= i < |s| ==> '0' <= s[i] <= '9')
            && ValueOf(s) == n && (|s| > 1 ==> s[0] != '0')
    decreases n
  {
    DigitsInOrder(n % 10);
    if n >= 10 {
      DecimalDenotes(n / 10);
      assert Decimal(n)[..|Decimal(n)| - 1] == Decimal(n / 10);
      if |Decimal(n / 10)| == 1 {
        assert Decimal(n / 10)[..0] == "";
        assert ValueOf(Decimal(n / 10)) == Decimal(n / 10)[0] as int - '0' as int;
      }
    } else {
      assert Decimal(n)[..0] == "";
    }
  }

  lemma DigitsInOrder(d: nat)
    requires d < 10
    ensures '0' <= DIGITS[d] <= '9' && DIGITS[d] as int - '0' as int == d
  {
  }

  // ---------- what one attempt leads to ----------

  datatype Decision = Return(raw: Raw) | Sleep(seconds: real) | Again

  /** The retry policy: `Again` after the last attempt means that the loop is exhausted. */
  function Decide(c: RetrySettings, ticket: string, attempt: nat, o: Outcome, draw: real): Decision
    requires attempt >= 1
  {
    var pause := if attempt < c.maxRetries then Sleep(Jittered(Backoff(c, attempt), draw)) else Again;
    match o
    case Answered(Object(fields), tokens) => Return(Value(fields["tokens" := tokens]))
    case Answered(_, _) => pause
    case Refused => Return(Value(FailureResult(ticket, "circuit_breaker_open")))
    case Status(code, retryAfter) =>
      if code in FATAL_STATUS_CODES then Return(Value(FailureResult(ticket, "http_" + Decimal(code))))
      else if code == 429 && attempt < c.maxRetries && retryAfter.Seconds? then Sleep(retryAfter.s)
      else if code == 429 && attempt < c.maxRetries && retryAfter.Unreadable?
        then Return(Raised("ValueError", retryAfter.text))
      else if code in RETRYABLE_STATUS_CODES then pause
      else Again
    case MalformedJson => pause
    case Unexpected => pause
  }

  function Exhausted(ticket: string): Raw {
    Value(FailureResult(ticket, "max_retries_exceeded"))
  }

  // ---------- the loop ----------

  datatype Trail = Trail(raw: Raw, attempts: nat, sleeps: seq<real>)

  /** The loop from a given attempt on. */
  function RunFrom(c: RetrySettings, ticket: string, answers: seq<Outcome>, draws: seq<real>, attempt: nat): (t: Trail)
    requires |answers| == |draws| == c.maxRetries && 1 <= attempt <= c.maxRetries
    decreases c.maxRetries - attempt
  {
    match Decide(c, ticket, attempt, answers[attempt - 1], draws[attempt - 1])
    case Return(raw) => Trail(raw, attempt, [])
    case Sleep(seconds) =>
      if attempt == c.maxRetries then Trail(Exhausted(ticket), attempt, [])
      else
        var rest := RunFrom(c, ticket, answers, draws, attempt + 1);
        rest.(sleeps := [seconds] + rest.sleeps)
    case Again =>
      if attempt == c.maxRetries then Trail(Exhausted(ticket), attempt, [])
      else RunFrom(c, ticket, answers, draws, attempt + 1)
  }

  lemma SleepsOnlyBetween(c: RetrySettings, ticket: string, attempt: nat, o: Outcome, draw: real)
    requires attempt >= 1 && Decide(c, ticket, attempt, o, draw).Sleep?
    ensures attempt < c.maxRetries
  {
  }

  /** An attempt that does not return hands over to the next one, with its sleep if any. */
  lemma GoesOn(c: RetrySettings, ticket: string, answers: seq<Outcome>, draws: seq<real>, attempt: nat,
               before: seq<real>)
    requires |answers| == |draws| == c.maxRetries && 1 <= attempt <= c.maxRetries
    requires !Decide(c, ticket, attempt, answers[attempt - 1], draws[attempt - 1]).Return?
    ensures var d := Decide(c, ticket, attempt, answers[attempt - 1], draws[attempt - 1]);
            var slept := before + (if d.Sleep? then [d.seconds] else []);
            var t := RunFrom(c, ticket, answers, draws, attempt);
            t.(sleeps := before + t.sleeps) ==
              if attempt == c.maxRetries then Trail(Exhausted(ticket), attempt, slept)
              else var rest := RunFrom(c, ticket, answers, draws, attempt + 1); rest.(sleeps := slept + rest.sleeps)
  {
    var d := Decide(c, ticket, attempt, answers[attempt - 1], draws[attempt - 1]);
    if d.Sleep? {
      SleepsOnlyBetween(c, ticket, attempt, answers[attempt - 1], draws[attempt - 1]);
      var rest := RunFrom(c, ticket, answers, draws, attempt + 1);
      assert before + ([d.seconds] + rest.sleeps) == before + [d.seconds] + rest.sleeps;
    }
  }

  /** The loop as written: one branch per exception handler. */
  method CallWithRetry(c: RetrySettings, ticket: string, answers: seq<Outcome>, draws: seq<real>)
    returns (raw: Raw, attempts: nat, sleeps: seq<real>)
    requires c.maxRetries >= 1 && |answers| == |draws| == c.maxRetries
    ensures Trail(raw, attempts, sleeps) == RunFrom(c, ticket, answers, draws, 1)
  {
    sleeps := [];
    ghost var whole := RunFrom(c, ticket, answers, draws, 1);
    for attempt := 1 to c.maxRetries + 1
      invariant attempt <= c.maxRetries ==>
        (var rest := RunFrom(c, ticket, answers, draws, attempt);
         whole == rest.(sleeps := sleeps + rest.sleeps))
      invariant attempt == c.maxRetries + 1 ==> whole == Trail(Exhausted(ticket), c.maxRetries, sleeps)
    {
      ghost var d := Decide(c, ticket, attempt, answers[attempt - 1], draws[attempt - 1]);
      ghost var before := sleeps;
      var o := answers[attempt - 1];
      var wait := Jittered(Backoff(c, attempt), draws[attempt - 1]);
      var final := attempt == c.maxRetries;
      match o {
        case Answered(body, tokens) =>
          if body.Object? {
            return Value(body.fields["tokens" := tokens]), attempt, sleeps;
          }
          if !final {
            sleeps := sleeps + [wait];
          }
        case Refused =>
          return Value(FailureResult(ticket, "circuit_breaker_open")), attempt, sleeps;
        case Status(code, retryAfter) =>
          if code in FATAL_STATUS_CODES {
            return Value(FailureResult(ticket, "http_" + Decimal(code))), attempt, sleeps;
          }
          if code == 429 && !final {
            match retryAfter {
              case Seconds(s) => sleeps := sleeps + [s];
              case Unreadable(text) => return Raised("ValueError", text), attempt, sleeps;
              case Absent => sleeps := sleeps + [wait];
            }
          } else if code in RETRYABLE_STATUS_CODES && !final {
            sleeps := sleeps + [wait];
          }
        case MalformedJson =>
          if !final {
            sleeps := sleeps + [wait];
          }
        case Unexpected =>
          if !final {
            sleeps := sleeps + [wait];
          }
      }
      assert !d.Return? && sleeps == before + (if d.Sleep? then [d.seconds] else []);
      GoesOn(c, ticket, answers, draws, attempt, before);
    }
    return Exhausted(ticket), c.maxRetries, sleeps;
  }

  // ---------- which answer decides ----------

  /** An outcome after which the loop stops at this attempt, described without the policy's code. */
  predicate Decisive(c: RetrySettings, attempt: nat, o: Outcome) {
    || (o.Answered? && o.body.Object?)
    || o.Refused?
    || (o.Status? && o.code in FATAL_STATUS_CODES)
    || (o.Status? && o.code == 429 && attempt < c.maxRetries && o.retryAfter.Unreadable?)
  }

  /** The index of the first decisive answer at or after `attempt`, or `maxRetries` + 1. */
  ghost predicate FirstDecisive(c: RetrySettings, answers: seq<Outcome>, attempt: nat, first: nat) {
    && 1 <= attempt <= first <= |answers| + 1
    && (forall k :: attempt - 1 <= k < first - 1 ==> !Decisive(c, k + 1, answers[k]))
    && (first <= |answers| ==> Decisive(c, first, answers[first - 1]))
  }

  lemma {:induction false} SomeFirstDecisive(c: RetrySettings, answers: seq<Outcome>, attempt: nat)
    requires 1 <= attempt <= |answers| + 1
    ensures exists first :: FirstDecisive(c, answers, attempt, first)
    decreases |answers| + 1 - attempt
  {
    if attempt == |answers| + 1 || Decisive(c, attempt, answers[attempt - 1]) {
      assert FirstDecisive(c, answers, attempt, attempt);
    } else {
      SomeFirstDecisive(c, answers, attempt + 1);
      var first :| FirstDecisive(c, answers, attempt + 1, first);
      assert FirstDecisive(c, answers, attempt, first);
    }
  }

  lemma {:induction false} FirstDecisiveFrom(c: RetrySettings, ticket: string, answers: seq<Outcome>,
                                             draws: seq<real>, attempt: nat, first: nat)
    requires |answers| == |draws| == c.maxRetries && 1 <= attempt <= c.maxRetries
    requires FirstDecisive(c, answers, attempt, first)
    ensures var t := RunFrom(c, ticket, answers, draws, attempt);
            if first <= c.maxRetries
            then t.attempts == first && Decide(c, ticket, first, answers[first - 1], draws[first - 1]) == Return(t.raw)
            else t.attempts == c.maxRetries && t.raw == Exhausted(ticket)
    decreases c.maxRetries - attempt
  {
    if attempt < first && attempt < c.maxRetries {
      FirstDecisiveFrom(c, ticket, answers, draws, attempt + 1, first);
    }
  }

  /** The result that a decisive answer stands for. */
  predicate ResultOf(ticket: string, o: Outcome, raw: Raw) {
    && (o.Answered? ==> o.body.Object? && raw == Value(o.body.fields["tokens" := o.tokens]))
    && (o.Refused? ==> raw == Value(FailureResult(ticket, "circuit_breaker_open")))
    && (o.Status? && o.code != 429 ==> raw == Value(FailureResult(ticket, "http_" + Decimal(o.code))))
    && (o.Status? && o.code == 429 ==> o.retryAfter.Unreadable? && raw == Raised("ValueError", o.retryAfter.text))
    && (o.Answered? || o.Refused? || o.Status?)
  }

  /**
   There is a first decisive answer, and it decides the ticket, whatever the draws; with none, all
   attempts are made and the ticket fails as exhausted.
   */
  lemma FirstDecisiveAnswerWins(c: RetrySettings, ticket: string, answers: seq<Outcome>, draws: seq<real>)
    returns (first: nat)
    requires c.maxRetries >= 1 && |answers| == |draws| == c.maxRetries
    ensures FirstDecisive(c, answers, 1, first)
    ensures var t := RunFrom(c, ticket, answers, draws, 1);
            && t.attempts == (if first <= c.maxRetries then first else c.maxRetries)
            && (t.raw.Raised? <==>
                  first <= c.maxRetries && answers[first - 1].Status? && answers[first - 1].code == 429)
            && (t.raw.Value? && Lacks(t.raw.dict, "error") ==> first <= c.maxRetries && answers[first - 1].Answered?)
            && (if first <= c.maxRetries then ResultOf(ticket, answers[first - 1], t.raw)
                else t.raw == Exhausted(ticket))
  {
    SomeFirstDecisive(c, answers, 1);
    first :| FirstDecisive(c, answers, 1, first);
    FirstDecisiveFrom(c, ticket, answers, draws, 1, first);
  }

  // ---------- how long it sleeps ----------

  function PauseOf(d: Decision): seq<real> {
    if d.Sleep? then [d.seconds] else []
  }

  /** The pauses after the attempts that have been resolved, one draw each. */
  function PausesOf(c: RetrySettings, ticket: string, trail: seq<Outcome>, draws: seq<real>): seq<real>
    requires |draws| <= |trail|
  {
    var k := |draws|;
    if k == 0 then []
    else PausesOf(c, ticket, trail, draws[..k - 1]) + PauseOf(Decide(c, ticket, k, trail[k - 1], draws[k - 1]))
  }

  lemma {:induction false} PausesIgnoreTheRest(c: RetrySettings, ticket: string, trail: seq<Outcome>,
                                               more: seq<Outcome>,
                                              draws: seq<real>)
    requires |draws| <= |trail| && trail <= more
    ensures PausesOf(c, ticket, trail, draws) == PausesOf(c, ticket, more, draws)
    decreases |draws|
  {
    if draws != [] {
      PausesIgnoreTheRest(c, ticket, trail, more, draws[..|draws| - 1]);
    }
  }

  /** The pauses up to an attempt, and the one after it. */
  lemma PausesMore(c: RetrySettings, ticket: string, answers: seq<Outcome>, draws: seq<real>, attempt: nat)
    requires 1 <= attempt <= |draws| && attempt <= |answers|
    ensures PausesOf(c, ticket, answers, draws[..attempt])
         == PausesOf(c, ticket, answers, draws[..attempt - 1])
            + PauseOf(Decide(c, ticket, attempt, answers[attempt - 1], draws[attempt - 1]))
  {
    assert draws[..attempt][..attempt - 1] == draws[..attempt - 1];
  }

  /** The sleeps of the loop are the pauses after its attempts, the last one included. */
  lemma {:induction false} SleepsArePauses(c: RetrySettings, ticket: string, answers: seq<Outcome>, draws: seq<real>,
                                          attempt: nat)
    requires |answers| == |draws| == c.maxRetries && 1 <= attempt <= c.maxRetries
    ensures var t := RunFrom(c, ticket, answers, draws, attempt);
            && attempt <= t.attempts <= c.maxRetries
            && PausesOf(c, ticket, answers, draws[..t.attempts])
                 == PausesOf(c, ticket, answers, draws[..attempt - 1]) + t.sleeps
    decreases c.maxRetries - attempt
  {
    PausesMore(c, ticket, answers, draws, attempt);
    var d := Decide(c, ticket, attempt, answers[attempt - 1], draws[attempt - 1]);
    if d.Sleep? {
      SleepsOnlyBetween(c, ticket, attempt, answers[attempt - 1], draws[attempt - 1]);
    }
    if !d.Return? && attempt < c.maxRetries {
      SleepsArePauses(c, ticket, answers, draws, attempt + 1);
      GoesOn(c, ticket, answers, draws, attempt, PausesOf(c, ticket, answers, draws[..attempt - 1]));
    }
  }

  function Sum(xs: seq<real>): real {
    if xs == [] then 0.0 else xs[0] + Sum(xs[1..])
  }

  predicate NamesNoDelay(o: Outcome) {
    o.Status? && o.code == 429 ==> !o.retryAfter.Seconds?
  }

  /** None of the attempts from `attempt` on that were followed by another one was given a delay to wait. */
  predicate NoDelayNamed(answers: seq<Outcome>, attempt: nat, last: nat)
    requires attempt >= 1
  {
    forall k :: attempt - 1 <= k < last - 1 && k < |answers| ==> NamesNoDelay(answers[k])
  }

  lemma JitterBounds(base: real, draw: real)
    requires base >= 0.0 && IsDraw(draw)
    ensures 0.8 * base <= Jittered(base, draw) <= 1.2 * base
  {
    assert Jittered(base, draw) - 0.8 * base == base * (draw + 0.2);
    assert 1.2 * base - Jittered(base, draw) == base * (0.2 - draw);
  }

  /** Every factor between 0.8 and 1.2 occurs, and a larger draw means a longer pause. */
  lemma JitterSpreads(base: real, factor: real)
    requires 0.8 <= factor <= 1.2
    ensures IsDraw(factor - 1.0) && Jittered(base, factor - 1.0) == factor * base
  {
    assert base * factor == factor * base;
  }

  lemma BackoffStarts(c: RetrySettings)
    ensures Backoff(c, 1) == c.backoffBase
  {
    assert Pow2(0) == 1;
  }

  lemma BackoffDoubles(c: RetrySettings, attempt: nat)
    requires attempt >= 1
    ensures Backoff(c, attempt + 1) == 2.0 * Backoff(c, attempt)
    ensures c.backoffBase >= 0.0 ==> Backoff(c, attempt) >= 0.0
  {
    assert Pow2(attempt) == 2 * Pow2(attempt - 1);
    var p := Pow2(attempt - 1) as real;
    assert c.backoffBase * (2.0 * p) == 2.0 * (c.backoffBase * p);
  }

  lemma {:induction false} SleepUpTo(c: RetrySettings, ticket: string, answers: seq<Outcome>, draws: seq<real>,
                                     attempt: nat)
    requires |answers| == |draws| == c.maxRetries && 1 <= attempt <= c.maxRetries
    requires c.backoffBase >= 0.0 && (forall k :: 0 <= k < |draws| ==> IsDraw(draws[k]))
    requires NoDelayNamed(answers, attempt, RunFrom(c, ticket, answers, draws, attempt).attempts)
    ensures var t := RunFrom(c, ticket, answers, draws, attempt);
            && attempt <= t.attempts <= c.maxRetries
            && 0.0 <= Sum(t.sleeps) <= 1.2 * (Backoff(c, t.attempts) - Backoff(c, attempt))
    decreases c.maxRetries - attempt
  {
    BackoffDoubles(c, attempt);
    var d := Decide(c, ticket, attempt, answers[attempt - 1], draws[attempt - 1]);
    if !d.Return? && attempt < c.maxRetries {
      SleepUpTo(c, ticket, answers, draws, attempt + 1);
      JitterBounds(Backoff(c, attempt), draws[attempt - 1]);
      var rest := RunFrom(c, ticket, answers, draws, attempt + 1);
      assert d.Sleep? ==> ([d.seconds] + rest.sleeps)[1..] == rest.sleeps;
    }
  }

  /** An attempt that is followed by a jittered sleep when it is not the last one. */
  predicate Pauses(o: Outcome) {
    match o
    case Answered(body, _) => !body.Object?
    case Refused => false
    case Status(code, _) => code in RETRYABLE_STATUS_CODES
    case MalformedJson => true
    case Unexpected => true
  }

  /** Every attempt from `attempt` on that was followed by another one is one that pauses. */
  predicate AllPause(answers: seq<Outcome>, attempt: nat, last: nat)
    requires attempt >= 1
  {
    forall k :: attempt - 1 <= k < last - 1 && k < |answers| ==> Pauses(answers[k])
  }

  lemma {:induction false} SleepAtLeast(c: RetrySettings, ticket: string, answers: seq<Outcome>, draws: seq<real>,
                                        attempt: nat)
    requires |answers| == |draws| == c.maxRetries && 1 <= attempt <= c.maxRetries
    requires c.backoffBase >= 0.0 && (forall k :: 0 <= k < |draws| ==> IsDraw(draws[k]))
    requires NoDelayNamed(answers, attempt, RunFrom(c, ticket, answers, draws, attempt).attempts)
    requires AllPause(answers, attempt, RunFrom(c, ticket, answers, draws, attempt).attempts)
    ensures var t := RunFrom(c, ticket, answers, draws, attempt);
            t.attempts >= 1 && Sum(t.sleeps) >= 0.8 * (Backoff(c, t.attempts) - Backoff(c, attempt))
    decreases c.maxRetries - attempt
  {
    BackoffDoubles(c, attempt);
    var d := Decide(c, ticket, attempt, answers[attempt - 1], draws[attempt - 1]);
    if !d.Return? && attempt < c.maxRetries {
      SleepUpTo(c, ticket, answers, draws, attempt + 1);
      assert Pauses(answers[attempt - 1]);
      SleepAtLeast(c, ticket, answers, draws, attempt + 1);
      JitterBounds(Backoff(c, attempt), draws[attempt - 1]);
      var rest := RunFrom(c, ticket, answers, draws, attempt + 1);
      assert ([d.seconds] + rest.sleeps)[1..] == rest.sleeps;
    }
  }

  /**
   What follows an attempt: the ticket is decided, or after a pause or at once the next attempt
   comes.  A pause is the delay that a 429 names, and otherwise the backoff give or take a fifth.
   */
  lemma WhatFollows(c: RetrySettings, ticket: string, attempt: nat, o: Outcome, draw: real)
    requires attempt >= 1 && c.backoffBase >= 0.0 && IsDraw(draw)
    ensures var d := Decide(c, ticket, attempt, o, draw);
            && (d.Return? <==> Decisive(c, attempt, o))
            && (d.Sleep? <==> !Decisive(c, attempt, o) && Pauses(o) && attempt < c.maxRetries)
            && (d.Sleep? ==>
                  if NamesNoDelay(o) then 0.8 * Backoff(c, attempt) <= d.seconds <= 1.2 * Backoff(c, attempt)
                  else d.seconds == o.retryAfter.s)
  {
    BackoffDoubles(c, attempt);
    JitterBounds(Backoff(c, attempt), draw);
  }

  /** base * (2^(k-1) - 1), the undisturbed backoff before the k-th attempt. */
  function TotalBackoff(c: RetrySettings, k: nat): real
    requires k >= 1
  {
    c.backoffBase * (Pow2(k - 1) - 1) as real
  }

  /**
   Without a usable `Retry-After`, a ticket that makes k attempts sleeps at most
   1.2 * base * (2^(k-1) - 1) in all, and k never exceeds the maximum; when every attempt but the
   last pauses, it sleeps at least 0.8 * base * (2^(k-1) - 1).
   */
  lemma RetryTimeBound(c: RetrySettings, ticket: string, answers: seq<Outcome>, draws: seq<real>)
    requires c.maxRetries >= 1 && |answers| == |draws| == c.maxRetries
    requires c.backoffBase >= 0.0 && (forall k :: 0 <= k < |draws| ==> IsDraw(draws[k]))
    requires NoDelayNamed(answers, 1, RunFrom(c, ticket, answers, draws, 1).attempts)
    ensures var t := RunFrom(c, ticket, answers, draws, 1);
            && 1 <= t.attempts <= c.maxRetries
            && Sum(t.sleeps) <= 1.2 * TotalBackoff(c, t.attempts) <= 1.2 * TotalBackoff(c, c.maxRetries)
            && (AllPause(answers, 1, t.attempts) ==>
                  Sum(t.sleeps) >= 0.8 * TotalBackoff(c, t.attempts))
  {
    var t := RunFrom(c, ticket, answers, draws, 1);
    SleepUpTo(c, ticket, answers, draws, 1);
    BackoffSpan(c, t.attempts);
    BackoffSpan(c, c.maxRetries);
    BackoffGrows(c, t.attempts, c.maxRetries);
    if AllPause(answers, 1, t.attempts) {
      SleepAtLeast(c, ticket, answers, draws, 1);
    }
  }

  lemma BackoffSpan(c: RetrySettings, k: nat)
    requires k >= 1
    ensures Backoff(c, k) - Backoff(c, 1) == TotalBackoff(c, k)
  {
    var p := Pow2(k - 1) as real;
    assert (Pow2(k - 1) - 1) as real == p - 1.0;
    assert c.backoffBase * (p - 1.0) == c.backoffBase * p - c.backoffBase;
  }

  lemma {:induction false} BackoffGrows(c: RetrySettings, j: nat, k: nat)
    requires 1 <= j <= k && c.backoffBase >= 0.0
    ensures Backoff(c, j) <= Backoff(c, k)
    decreases k
  {
    if j < k {
      BackoffGrows(c, j, k - 1);
      BackoffDoubles(c, k - 1);
    }
  }
}
