/** Ticket classes, their batch sizes, and the running estimate of batch latency. */
module Estimator {
  import opened Common
  import opened Texts

  datatype Complexity = Simple | Medium | Complex

  function Priority(c: Complexity): nat {
    match c case Complex => 0 case Medium => 1 case Simple => 2
  }

  function BatchSize(c: Complexity): (n: nat)
    ensures n >= 1
  {
    match c case Simple => 20 case Medium => 10 case Complex => 5
  }

  lemma PriorityInjective(c: Complexity, d: Complexity)
    ensures Priority(c) == Priority(d) <==> c == d
  {
  }

  function Classify(ticket: string): Complexity {
    var words := WordCount(ticket);
    if words < 15 then Simple else if words <= 60 then Medium else Complex
  }

  /** Fewer than 15 words are simple, 15 to 60 medium, more complex, however they are spaced. */
  lemma ClassByWords(words: seq<string>, gaps: seq<string>)
    requires WellSpread(words, gaps)
    ensures var c := Classify(Spread(words, gaps));
            && (|words| < 15 ==> c == Simple)
            && (15 <= |words| <= 60 ==> c == Medium)
            && (60 < |words| ==> c == Complex)
  {
    WordsAreCounted(words, gaps);
  }

  datatype Breakdown = Breakdown(simple: nat, medium: nat, complex: nat)

  function CountOfClass(tickets: seq<string>, c: Complexity): nat {
    if tickets == [] then 0
    else CountOfClass(tickets[..|tickets| - 1], c) + (if Classify(tickets[|tickets| - 1]) == c then 1 else 0)
  }

  function CountsOf(tickets: seq<string>): Breakdown {
    Breakdown(CountOfClass(tickets, Simple), CountOfClass(tickets, Medium), CountOfClass(tickets, Complex))
  }

  method BreakDown(tickets: seq<string>) returns (bd: Breakdown)
    ensures bd == CountsOf(tickets)
    ensures bd.simple + bd.medium + bd.complex == |tickets|
  {
    bd := Breakdown(0, 0, 0);
    for i := 0 to |tickets|
      invariant bd == CountsOf(tickets[..i])
      invariant bd.simple + bd.medium + bd.complex == i
    {
      assert tickets[..i + 1][..i] == tickets[..i];
      match Classify(tickets[i]) {
        case Simple => bd := bd.(simple := bd.simple + 1);
        case Medium => bd := bd.(medium := bd.medium + 1);
        case Complex => bd := bd.(complex := bd.complex + 1);
      }
    }
    assert tickets[..|tickets|] == tickets;
  }

  // ---------- how many batches ----------

  /** How many groups of at most `size` it takes to hold n. */
  function Ceil(n: nat, size: nat): nat
    requires size >= 1
  {
    if n == 0 then 0 else 1 + Ceil(if n <= size then 0 else n - size, size)
  }

  /** It is the least number of groups with room enough, n / size rounded up. */
  lemma {:induction false} CeilIsRoundedUp(n: nat, size: nat)
    requires size >= 1
    ensures n <= Ceil(n, size) * size < n + size
  {
    if n > size {
      CeilIsRoundedUp(n - size, size);
      assert Ceil(n, size) * size == Ceil(n - size, size) * size + size;
    } else if n > 0 {
      assert Ceil(n, size) == 1 + Ceil(0, size) == 1;
    }
  }

  /** The number of batches that single-class batches of the given sizes need. */
  function BatchesNeeded(bd: Breakdown): nat {
    Ceil(bd.complex, BatchSize(Complex)) + Ceil(bd.medium, BatchSize(Medium)) + Ceil(bd.simple, BatchSize(Simple))
  }

  function WeightedBatches(bd: Breakdown): real {
    bd.complex as real / BatchSize(Complex) as real
    + bd.medium as real / BatchSize(Medium) as real
    + bd.simple as real / BatchSize(Simple) as real
  }

  lemma CeilIsQuotient(n: nat, size: nat)
    requires size == 5 || size == 10 || size == 20
    ensures Ceil(n, size) == (n + size - 1) / size
  {
    CeilIsRoundedUp(n, size);
  }

  /** A complex ticket weighs a fifth of a batch, a medium one a tenth, a simple one a twentieth. */
  lemma WeightsAreExact(bd: Breakdown)
    ensures 20.0 * WeightedBatches(bd) == (4 * bd.complex + 2 * bd.medium + bd.simple) as real
  {
  }

  lemma CeilBounds(n: nat, size: nat)
    requires size == 5 || size == 10 || size == 20
    ensures n as real / size as real <= Ceil(n, size) as real < n as real / size as real + 1.0
  {
    CeilIsRoundedUp(n, size);
  }

  /** The weighted count behind the initial estimate is at most the real one and less than 3 below it. */
  lemma InitialEstimateAgreesWithDrain(bd: Breakdown)
    ensures WeightedBatches(bd) <= BatchesNeeded(bd) as real < WeightedBatches(bd) + 3.0
  {
    CeilBounds(bd.complex, 5);
    CeilBounds(bd.medium, 10);
    CeilBounds(bd.simple, 20);
  }

  // ---------- the moving average ----------

  /** A new sample weighs `alpha`, the past `keep`. */
  function Blend(alpha: real, keep: real, sample: real, past: real): real {
    alpha * sample + keep * past
  }

  /** The average after a nonempty history of samples. */
  function Average(alpha: real, keep: real, samples: seq<real>): real
    requires samples != []
  {
    var n := |samples| - 1;
    if n == 0 then samples[0] else Blend(alpha, keep, samples[n], Average(alpha, keep, samples[..n]))
  }

  function Ewma(alpha: real, samples: seq<real>): real
    requires samples != []
  {
    Average(alpha, 1.0 - alpha, samples)
  }

  function Power(x: real, n: nat): real {
    if n == 0 then 1.0 else x * Power(x, n - 1)
  }

  /** The sum of alpha * keep^(m-1-j) * xs[j] over the m samples of `xs`. */
  function WeightedTail(alpha: real, keep: real, xs: seq<real>): real {
    if xs == [] then 0.0
    else alpha * Power(keep, |xs| - 1) * xs[0] + WeightedTail(alpha, keep, xs[1..])
  }

  /** The average computed forwards from a starting value. */
  function Follow(alpha: real, keep: real, e: real, xs: seq<real>): real
    decreases |xs|
  {
    if xs == [] then e else Follow(alpha, keep, Blend(alpha, keep, xs[0], e), xs[1..])
  }

  lemma {:induction false} FollowEnd(alpha: real, keep: real, e: real, xs: seq<real>, x: real)
    ensures Follow(alpha, keep, e, xs + [x]) == Blend(alpha, keep, x, Follow(alpha, keep, e, xs))
    decreases |xs|
  {
    var all := xs + [x];
    if xs == [] {
      assert all[1..] == [];
    } else {
      var e' := Blend(alpha, keep, xs[0], e);
      FollowEnd(alpha, keep, e', xs[1..], x);
      assert all[1..] == xs[1..] + [x];
      assert all[0] == xs[0];
      assert Follow(alpha, keep, e, all) == Follow(alpha, keep, e', xs[1..] + [x]);
    }
  }

  lemma {:induction false} AverageIsFollow(alpha: real, keep: real, samples: seq<real>)
    requires samples != []
    ensures Average(alpha, keep, samples) == Follow(alpha, keep, samples[0], samples[1..])
  {
    var n := |samples| - 1;
    if n > 0 {
      AverageIsFollow(alpha, keep, samples[..n]);
      var rest := samples[..n][1..];
      assert samples[1..] == rest + [samples[n]];
      FollowEnd(alpha, keep, samples[0], rest, samples[n]);
    }
  }

  lemma Reweigh(alpha: real, keep: real, p: real, x: real, e: real, t: real)
    ensures p * Blend(alpha, keep, x, e) + t == (keep * p) * e + (alpha * p * x + t)
  {
  }

  /** A starting value and all later samples, each with its weight. */
  function WeightedSum(alpha: real, keep: real, e: real, xs: seq<real>): real {
    Power(keep, |xs|) * e + WeightedTail(alpha, keep, xs)
  }

  lemma {:induction false} FollowClosedForm(alpha: real, keep: real, e: real, xs: seq<real>)
    ensures Follow(alpha, keep, e, xs) == WeightedSum(alpha, keep, e, xs)
    decreases |xs|
  {
    if xs != [] {
      FollowClosedForm(alpha, keep, Blend(alpha, keep, xs[0], e), xs[1..]);
      Reweigh(alpha, keep, Power(keep, |xs| - 1), xs[0], e, WeightedTail(alpha, keep, xs[1..]));
    }
  }

  lemma AverageClosedForm(alpha: real, keep: real, samples: seq<real>)
    requires samples != []
    ensures Average(alpha, keep, samples) == WeightedSum(alpha, keep, samples[0], samples[1..])
  {
    AverageIsFollow(alpha, keep, samples);
    FollowClosedForm(alpha, keep, samples[0], samples[1..]);
  }

  /** The recurrence equals the closed-form weighted sum of the whole history. */
  lemma EwmaClosedForm(alpha: real, samples: seq<real>)
    requires samples != []
    ensures Ewma(alpha, samples) == WeightedSum(alpha, 1.0 - alpha, samples[0], samples[1..])
  {
    AverageClosedForm(alpha, 1.0 - alpha, samples);
  }

  /** The average lies between any bounds on the samples. */
  lemma {:induction false} EwmaBounded(alpha: real, samples: seq<real>, low: real, high: real)
    requires samples != [] && 0.0 <= alpha <= 1.0
    requires forall i :: 0 <= i < |samples| ==> low <= samples[i] <= high
    ensures low <= Ewma(alpha, samples) <= high
  {
    var n := |samples| - 1;
    if n > 0 {
      EwmaBounded(alpha, samples[..n], low, high);
      Convex(alpha, samples[n], Ewma(alpha, samples[..n]), low, high);
    }
  }

  lemma Convex(alpha: real, x: real, y: real, low: real, high: real)
    requires 0.0 <= alpha <= 1.0 && low <= x <= high && low <= y <= high
    ensures low <= alpha * x + (1.0 - alpha) * y <= high
  {
    assert alpha * x + (1.0 - alpha) * y - low == alpha * (x - low) + (1.0 - alpha) * (y - low);
    assert high - (alpha * x + (1.0 - alpha) * y) == alpha * (high - x) + (1.0 - alpha) * (high - y);
    ProductNonnegative(alpha, x - low);
    ProductNonnegative(1.0 - alpha, y - low);
    ProductNonnegative(alpha, high - x);
    ProductNonnegative(1.0 - alpha, high - y);
  }

  lemma ProductNonnegative(a: real, x: real)
    requires a >= 0.0 && x >= 0.0
    ensures a * x >= 0.0
  {
  }

  function Repeat(x: real, n: nat): seq<real> {
    seq(n, i => x)
  }

  /** The point that is the fraction `p` of the distance `d` away from c. */
  function Near(c: real, p: real, d: real): real {
    c + p * d
  }

  lemma Pull(alpha: real, keep: real, c: real, e: real, p: real, d: real)
    requires alpha + keep == 1.0 && e == Near(c, p, d)
    ensures Blend(alpha, keep, c, e) == Near(c, keep * p, d)
  {
    assert alpha * c + keep * e == (alpha + keep) * c + keep * (p * d);
  }

  lemma AverageLast(alpha: real, keep: real, samples: seq<real>, x: real)
    requires samples != []
    ensures Average(alpha, keep, samples + [x]) == Blend(alpha, keep, x, Average(alpha, keep, samples))
  {
    assert (samples + [x])[..|samples|] == samples;
  }

  /** The average after k further samples c. */
  function Pulled(alpha: real, keep: real, c: real, e: real, k: nat): real {
    if k == 0 then e else Blend(alpha, keep, c, Pulled(alpha, keep, c, e, k - 1))
  }

  lemma {:induction false} AverageIsPulled(alpha: real, keep: real, samples: seq<real>, c: real, k: nat)
    requires samples != []
    ensures Average(alpha, keep, samples + Repeat(c, k)) == Pulled(alpha, keep, c, Average(alpha, keep, samples), k)
  {
    if k == 0 {
      assert samples + Repeat(c, k) == samples;
    } else {
      AverageIsPulled(alpha, keep, samples, c, k - 1);
      assert samples + Repeat(c, k) == samples + Repeat(c, k - 1) + [c];
      AverageLast(alpha, keep, samples + Repeat(c, k - 1), c);
    }
  }

  lemma {:induction false} PulledDistance(alpha: real, keep: real, c: real, e: real, k: nat)
    requires alpha + keep == 1.0
    ensures Pulled(alpha, keep, c, e, k) == Near(c, Power(keep, k), e - c)
  {
    if k > 0 {
      PulledDistance(alpha, keep, c, e, k - 1);
      Pull(alpha, keep, c, Pulled(alpha, keep, c, e, k - 1), Power(keep, k - 1), e - c);
    }
  }

  /** k further samples c leave exactly (1 - alpha)^k of the distance to c. */
  lemma EwmaConverges(alpha: real, samples: seq<real>, c: real, k: nat)
    requires samples != []
    ensures Ewma(alpha, samples + Repeat(c, k)) - c == Power(1.0 - alpha, k) * (Ewma(alpha, samples) - c)
  {
    AverageIsPulled(alpha, 1.0 - alpha, samples, c, k);
    PulledDistance(alpha, 1.0 - alpha, c, Ewma(alpha, samples), k);
  }

  class ETAEstimator {
    const alpha: real
    const defaultLatency: real
    var ewma: real
    var hasData: bool
    ghost var samples: seq<real>

    ghost predicate Valid()
      reads this
    {
      (hasData <==> samples != []) && (hasData ==> ewma == Ewma(alpha, samples))
    }

    constructor (alpha: real, defaultLatency: real)
      ensures Valid() && samples == [] && this.alpha == alpha && this.defaultLatency == defaultLatency
    {
      this.alpha, this.defaultLatency := alpha, defaultLatency;
      ewma, hasData, samples := 1.2, false, [];
    }

    method Update(observed: real)
      requires Valid()
      modifies this
      ensures Valid() && samples == old(samples) + [observed] && hasData
    {
      if !hasData {
        ewma := observed;
        hasData := true;
      } else {
        ewma := alpha * observed + (1.0 - alpha) * ewma;
      }
      samples := samples + [observed];
      assert samples[..|samples| - 1] == old(samples);
    }

    function Latency(): real
      reads this
    {
      if hasData then ewma else defaultLatency
    }

    function Estimate(remaining: nat, bucket: Option<Complexity>): real
      reads this
    {
      Scaled(Groups(remaining, if bucket.Some? then BatchSize(bucket.value) else 10), Latency())
    }

    function EstimateInitial(bd: Breakdown): real
      reads this
    {
      Scaled(WeightedBatches(bd), Latency())
    }
  }

  function Scaled(batches: real, latency: real): real {
    batches * latency
  }

  /** The fraction of batches left, and never less than one. */
  function Groups(remaining: nat, size: nat): real
    requires size >= 1
  {
    if remaining as real / size as real > 1.0 then remaining as real / size as real else 1.0
  }

  lemma GroupsRounded(remaining: nat, size: nat)
    requires size == 5 || size == 10 || size == 20
    ensures 1.0 <= Groups(remaining, size) <= Ceil(if remaining == 0 then 1 else remaining, size) as real
    ensures remaining as real / size as real <= Groups(remaining, size)
  {
    CeilBounds(remaining, size);
  }

  lemma ScaledGrows(low: real, high: real, latency: real)
    requires low <= high && latency >= 0.0
    ensures Scaled(low, latency) <= Scaled(high, latency)
  {
    ProductNonnegative(high - low, latency);
  }

  /** The latency is the average of all samples so far, and the default before the first one. */
  lemma LatencyFromSamples(e: ETAEstimator)
    requires e.Valid()
    ensures e.Latency() == if e.samples == [] then e.defaultLatency else Ewma(e.alpha, e.samples)
  {
  }

  lemma ScaledSum(x: real, y: real, latency: real)
    ensures Scaled(x + y, latency) == Scaled(x, latency) + Scaled(y, latency)
  {
  }

  lemma GroupsBracket(remaining: nat, size: nat, latency: real)
    requires (size == 5 || size == 10 || size == 20) && latency >= 0.0
    ensures var needed := Ceil(if remaining == 0 then 1 else remaining, size);
            latency <= Scaled(Groups(remaining, size), latency) <= Scaled(needed as real, latency)
    ensures Scaled(remaining as real / size as real, latency) <= Scaled(Groups(remaining, size), latency)
  {
    GroupsRounded(remaining, size);
    ScaledGrows(1.0, Groups(remaining, size), latency);
    ScaledGrows(remaining as real / size as real, Groups(remaining, size), latency);
    ScaledGrows(Groups(remaining, size), Ceil(if remaining == 0 then 1 else remaining, size) as real, latency);
  }

  /** Between the latency of one batch and that of the batches which the tickets of one class need. */
  lemma EstimateBracket(e: ETAEstimator, remaining: nat, bucket: Option<Complexity>)
    requires e.Latency() >= 0.0
    ensures var size := if bucket.Some? then BatchSize(bucket.value) else 10;
            var needed := Ceil(if remaining == 0 then 1 else remaining, size);
            e.Latency() <= e.Estimate(remaining, bucket) <= Scaled(needed as real, e.Latency())
    ensures var size := if bucket.Some? then BatchSize(bucket.value) else 10;
            Scaled(remaining as real / size as real, e.Latency()) <= e.Estimate(remaining, bucket)
  {
    GroupsBracket(remaining, if bucket.Some? then BatchSize(bucket.value) else 10, e.Latency());
  }

  /** The initial estimate against the time of the batches that the drain really makes. */
  lemma InitialEstimateBracket(e: ETAEstimator, bd: Breakdown)
    requires e.Latency() >= 0.0
    ensures e.EstimateInitial(bd)
         <= Scaled(BatchesNeeded(bd) as real, e.Latency())
         <= e.EstimateInitial(bd) + Scaled(3.0, e.Latency())
  {
    InitialEstimateAgreesWithDrain(bd);
    ScaledGrows(WeightedBatches(bd), BatchesNeeded(bd) as real, e.Latency());
    ScaledGrows(BatchesNeeded(bd) as real, WeightedBatches(bd) + 3.0, e.Latency());
    ScaledSum(WeightedBatches(bd), 3.0, e.Latency());
  }
}
