/** Shared vocabulary: options, and sequences of instants that keep a minimum distance. */
module Common {

  datatype Option<+T> = None | Some(value: T)

  /** How a call to Redis ends: well, or by raising, before or after it has taken effect. */
  datatype Reply = Acknowledged | Lost | Unanswered

  /** Each instant is at least `gap` after the one before it. */
  ghost predicate Spaced(ts: seq<real>, gap: real) {
    forall i :: 0 <= i < |ts| - 1 ==> ts[i] + gap <= ts[i + 1]
  }

  /** How many of the instants fall in the closed interval [from, to]. */
  function CountWithin(ts: seq<real>, from: real, to: real): nat {
    if ts == [] then 0
    else CountWithin(ts[..|ts| - 1], from, to) + (if from <= ts[|ts| - 1] <= to then 1 else 0)
  }

  /** `n` gaps laid end to end, kept recursive so that the solver sees sums only. */
  ghost function Gaps(n: nat, gap: real): real {
    if n == 0 then 0.0 else Gaps(n - 1, gap) + gap
  }

  lemma {:induction false} GapsIsProduct(n: nat, gap: real)
    ensures Gaps(n, gap) == n as real * gap
  {
    if n > 0 {
      GapsIsProduct(n - 1, gap);
      assert n as real * gap == (n - 1) as real * gap + gap;
    }
  }

  lemma {:induction false} SpacedReach(ts: seq<real>, gap: real, from: real, to: real)
    requires gap > 0.0 && Spaced(ts, gap) && CountWithin(ts, from, to) >= 1
    ensures from + Gaps(CountWithin(ts, from, to) - 1, gap) <= to
    ensures from + Gaps(CountWithin(ts, from, to) - 1, gap) <= ts[|ts| - 1]
  {
    var n := |ts| - 1;
    var front := ts[..n];
    if CountWithin(front, from, to) >= 1 {
      SpacedReach(front, gap, from, to);
      assert front[n - 1] == ts[n - 1] && ts[n - 1] + gap <= ts[n];
    }
  }

  /** A window of length `span` holds at most floor(span / gap) + 1 instants that are `gap` apart. */
  lemma RateBound(ts: seq<real>, gap: real, from: real, span: real)
    requires gap > 0.0 && span >= 0.0 && Spaced(ts, gap)
    ensures CountWithin(ts, from, from + span) <= (span / gap).Floor + 1
  {
    var n := CountWithin(ts, from, from + span);
    if n >= 1 {
      SpacedReach(ts, gap, from, from + span);
      GapsIsProduct(n - 1, gap);
      QuotientAtLeast((n - 1) as real, gap, span);
    }
  }

  lemma QuotientAtLeast(m: real, gap: real, span: real)
    requires gap > 0.0 && m * gap <= span
    ensures m <= span / gap
  {
    var q := span / gap;
    assert q * gap == span;
    assert (q - m) * gap >= 0.0;
  }
}
