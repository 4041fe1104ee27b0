/** The latency histogram: power-of-two buckets, percentiles read from them, and lock-free extremes. */
module Latency {
  import opened Types
  import opened Counting
  import opened Sorting

  const BUCKETS: nat := 16

  function Pow2(i: nat): (r: nat)
    ensures r >= 1
  {
    if i == 0 then 1 else 2 * Pow2(i - 1)
  }

  /** 64 - leading_zeros */
  function BitLen(n: nat): nat {
    if n == 0 then 0 else 1 + BitLen(n / 2)
  }

  /** The bucket of a request that took `us` microseconds. */
  function Bucket(us: nat): (b: nat)
    ensures b < BUCKETS
  {
    var ms := us / 1000;
    if ms == 0 then 0 else Min(BitLen(ms), 15)
  }

  lemma {:induction false} BitLenIs(n: nat, i: nat)
    ensures BitLen(n) <= i <==> n < Pow2(i)
  {
    if n > 0 && i > 0 {
      BitLenIs(n / 2, i - 1);
    }
  }

  /** Bucket i holds what is below 2^i milliseconds and in no earlier bucket; the last one has no upper end. */
  lemma BucketIs(us: nat, i: nat)
    ensures Bucket(us) <= i <==> us < 1000 * Pow2(i) || i >= 15
  {
    BitLenIs(us / 1000, i);
    BitLenIs(us / 1000, 15);
    assert us / 1000 == 0 ==> BitLen(us / 1000) == 0;
  }

  // ---- recording

  function InBucket(b: nat): nat -> bool { (us: nat) => Bucket(us) == b }

  function UpToBucket(b: nat): nat -> bool { (us: nat) => Bucket(us) <= b }

  function SumUs(samples: seq<nat>): nat {
    if samples == [] then 0 else SumUs(samples[..|samples| - 1]) + samples[|samples| - 1]
  }

  function LeastOf(samples: seq<nat>): nat {
    if samples == [] then TWO64 - 1 else Min(LeastOf(samples[..|samples| - 1]), samples[|samples| - 1])
  }

  function GreatestOf(samples: seq<nat>): nat {
    if samples == [] then 0 else Max(GreatestOf(samples[..|samples| - 1]), samples[|samples| - 1])
  }

  /** LatencyStats, as one thread at a time sees it. */
  class LatencyStats {
    var count: nat
    var sumUs: nat
    var minUs: nat
    var maxUs: nat
    var bytes: nat
    const buckets: array<nat>

    /** The fields tell about exactly these samples. */
    ghost predicate Tells(samples: seq<nat>)
      reads this, buckets
    {
      && buckets.Length == BUCKETS
      && count == |samples| && sumUs == SumUs(samples)
      && minUs == LeastOf(samples) && maxUs == GreatestOf(samples)
      && forall b | 0 <= b < BUCKETS :: buckets[b] == Count(samples, InBucket(b))
    }

    constructor ()
      ensures Tells([]) && bytes == 0 && fresh(buckets)
    {
      count, sumUs, minUs, maxUs, bytes := 0, 0, TWO64 - 1, 0, 0;
      buckets := new nat[BUCKETS](_ => 0);
    }

    method Record(durUs: nat, n: nat, ghost samples: seq<nat>)
      requires Tells(samples)
      modifies this, buckets
      ensures Tells(samples + [durUs]) && bytes == old(bytes) + n
    {
      count := count + 1;
      sumUs := sumUs + durUs;
      bytes := bytes + n;
      var durMs := durUs / 1000;
      var bucket := if durMs == 0 then 0 else Min(BitLen(durMs), 15);
      buckets[bucket] := buckets[bucket] + 1;
      if durUs < minUs {
        minUs := durUs;
      }
      if durUs > maxUs {
        maxUs := durUs;
      }
      assert (samples + [durUs])[..|samples|] == samples;
    }

    /** percentile_ms, over what the buckets hold. */
    method PercentileMs(p: real) returns (v: nat)
      requires buckets.Length == BUCKETS
      ensures v == Percentile(buckets[..], p)
    {
      var total := Total(buckets[..]);
      if total == 0 {
        return 0;
      }
      var target := Target(total, p);
      var acc := 0;
      var i := 0;
      while i < BUCKETS
        invariant 0 <= i <= BUCKETS
        invariant acc == Total(buckets[..i])
        invariant FirstReaching(buckets[..], target, 0) == FirstReaching(buckets[..], target, i)
      {
        assert buckets[..i + 1][..i] == buckets[..i];
        acc := acc + buckets[i];
        assert buckets[..][..i + 1] == buckets[..i + 1];
        if acc >= target {
          PowerIs(i);
          return if i == 0 then 1 else Pow2(i);
        }
        i := i + 1;
      }
      return TWO64 - 1;
    }
  }

  lemma PowerIs(i: nat)
    ensures i == 0 ==> Pow2(i) == 1
  {
  }

  // ---- percentiles

  function Ceil(x: real): int {
    if x == x.Floor as real then x.Floor else x.Floor + 1
  }

  function Total(counts: seq<nat>): nat {
    if counts == [] then 0 else Total(counts[..|counts| - 1]) + counts[|counts| - 1]
  }

  /** How many samples the percentile asks for. */
  function Target(total: nat, p: real): nat { Max(0, Ceil(total as real * p)) }

  function Running(counts: seq<nat>, j: nat): nat
    requires j < |counts|
  {
    Total(counts[..j + 1])
  }

  /** The first bucket, from i on, with which the running total reaches the target; the length if there is none. */
  function FirstReaching(counts: seq<nat>, target: nat, i: nat): (b: nat)
    requires i <= |counts|
    ensures i <= b <= |counts|
    ensures b < |counts| ==> Running(counts, b) >= target
    ensures forall j | i <= j < b :: Running(counts, j) < target
    decreases |counts| - i
  {
    if i == |counts| then i
    else if Running(counts, i) >= target then i
    else FirstReaching(counts, target, i + 1)
  }

  function Percentile(counts: seq<nat>, p: real): nat {
    if Total(counts) == 0 then 0
    else
      var i := FirstReaching(counts, Target(Total(counts), p), 0);
      if i < |counts| then Pow2(i) else TWO64 - 1
  }

  function Histogram(samples: seq<nat>): (r: seq<nat>)
    ensures |r| == BUCKETS && forall b | 0 <= b < BUCKETS :: r[b] == Count(samples, InBucket(b))
  {
    seq(BUCKETS, b requires 0 <= b => Count(samples, InBucket(b)))
  }

  lemma {:induction false} CountSplit(samples: seq<nat>, b: nat)
    requires b > 0
    ensures Count(samples, UpToBucket(b)) == Count(samples, UpToBucket(b - 1)) + Count(samples, InBucket(b))
  {
    if samples != [] {
      CountSplit(samples[..|samples| - 1], b);
    }
  }

  lemma {:induction false} FirstBucket(samples: seq<nat>)
    ensures Count(samples, UpToBucket(0)) == Count(samples, InBucket(0))
  {
    if samples != [] {
      FirstBucket(samples[..|samples| - 1]);
    }
  }

  /** Running totals of the histogram count the samples up to a bucket. */
  lemma {:induction false} RunningTotal(samples: seq<nat>, b: nat)
    requires b < BUCKETS
    ensures Running(Histogram(samples), b) == Count(samples, UpToBucket(b))
  {
    var h := Histogram(samples);
    assert h[..b + 1][..b] == h[..b];
    if b == 0 {
      FirstBucket(samples);
      assert Total(h[..0]) == 0;
    } else {
      RunningTotal(samples, b - 1);
      CountSplit(samples, b);
    }
  }

  lemma HistogramTotal(samples: seq<nat>)
    ensures Total(Histogram(samples)) == |samples|
  {
    hide Count, Bucket;
    RunningTotal(samples, BUCKETS - 1);
    assert Histogram(samples)[..BUCKETS] == Histogram(samples);
    CountBound(samples, UpToBucket(BUCKETS - 1));
  }

  function BelowUs(limit: nat): nat -> bool { (us: nat) => us < limit }

  lemma {:induction false} CountBelow(samples: seq<nat>, b: nat)
    requires b < 15 || (b == 15 && forall i | 0 <= i < |samples| :: samples[i] < 1000 * Pow2(15))
    ensures Count(samples, UpToBucket(b)) == Count(samples, BelowUs(1000 * Pow2(b)))
  {
    if samples != [] {
      CountBelow(samples[..|samples| - 1], b);
      BucketIs(samples[|samples| - 1], b);
    }
  }

  lemma TargetInRange(total: nat, p: real)
    requires total > 0 && 0.0 < p <= 1.0
    ensures 0 < Target(total, p) <= total
  {
    assert total as real * p <= total as real;
    assert total as real * p > 0.0;
  }

  /** The target is the least whole number that reaches p N. */
  lemma TargetMeans(total: nat, p: real, c: nat)
    requires p > 0.0
    ensures c >= Target(total, p) <==> c as real >= total as real * p
  {
  }

  /**
    The value read off the buckets: at least p N of the N samples are strictly below it (once it is clear of the
    open-ended last bucket), and, when it is above 1, fewer than p N are below half of it.
  */
  lemma PercentileBrackets(samples: seq<nat>, p: real)
    requires samples != [] && 0.0 < p <= 1.0
    ensures var v := Percentile(Histogram(samples), p);
            var share := |samples| as real * p;
            && 0 < v <= 32768
            && (v < 32768 || (forall i | 0 <= i < |samples| :: samples[i] < 32768000)
                ==> Count(samples, BelowUs(1000 * v)) as real >= share)
            && (v > 1 ==> v % 2 == 0 && (Count(samples, BelowUs(1000 * (v / 2))) as real) < share)
  {
    TargetBrackets(samples, p);
    var v := Percentile(Histogram(samples), p);
    TargetMeans(|samples|, p, Count(samples, BelowUs(1000 * v)));
    TargetMeans(|samples|, p, Count(samples, BelowUs(1000 * (v / 2))));
    hide Count, Target, Percentile;
  }

  lemma TargetBrackets(samples: seq<nat>, p: real)
    requires samples != [] && 0.0 < p <= 1.0
    ensures var v := Percentile(Histogram(samples), p);
            var target := Target(|samples|, p);
            && 0 < v <= 32768
            && (v < 32768 || (forall i | 0 <= i < |samples| :: samples[i] < 32768000)
                ==> Count(samples, BelowUs(1000 * v)) >= target)
            && (v > 1 ==> v % 2 == 0 && Count(samples, BelowUs(1000 * (v / 2))) < target)
  {
    HistogramTotal(samples);
    TargetInRange(|samples|, p);
    var i := PercentileBucket(samples, Target(|samples|, p));
    BucketBrackets(samples, Target(|samples|, p), i);
    hide Count, Bucket, Target, FirstReaching, Running, Pow2, Total;
    assert Percentile(Histogram(samples), p) == Pow2(i);
  }

  lemma BucketBrackets(samples: seq<nat>, target: nat, i: nat)
    requires i < BUCKETS && Count(samples, UpToBucket(i)) >= target
    requires i > 0 ==> Count(samples, UpToBucket(i - 1)) < target
    ensures var v := Pow2(i);
            && 0 < v <= 32768
            && (v < 32768 || (forall k | 0 <= k < |samples| :: samples[k] < 32768000)
                ==> Count(samples, BelowUs(1000 * v)) >= target)
            && (v > 1 ==> v % 2 == 0 && Count(samples, BelowUs(1000 * (v / 2))) < target)
  {
    PowerSteps(i);
    hide Count, Bucket, Pow2;
    if i < 15 || (forall k | 0 <= k < |samples| :: samples[k] < 32768000) {
      CountBelow(samples, i);
    }
    if i > 0 {
      CountBelow(samples, i - 1);
      assert Pow2(i) / 2 == Pow2(i - 1);
    }
  }

  /** The bucket a percentile stops at. */
  lemma PercentileBucket(samples: seq<nat>, target: nat) returns (i: nat)
    requires 0 < target <= |samples|
    ensures i < BUCKETS && i == FirstReaching(Histogram(samples), target, 0)
    ensures Count(samples, UpToBucket(i)) >= target
    ensures i > 0 ==> Count(samples, UpToBucket(i - 1)) < target
  {
    hide Count, Bucket, FirstReaching;
    var h := Histogram(samples);
    HistogramTotal(samples);
    i := FirstReaching(h, target, 0);
    assert h[..BUCKETS - 1 + 1] == h;
    assert Running(h, BUCKETS - 1) >= target;
    RunningTotal(samples, i);
    if i > 0 {
      RunningTotal(samples, i - 1);
      assert Running(h, i - 1) < target;
    }
  }

  lemma PowerSteps(i: nat)
    requires i < 16
    ensures i == 0 ==> Pow2(i) == 1
    ensures i > 0 ==> Pow2(i) == 2 * Pow2(i - 1) && Pow2(i) > 1
    ensures Pow2(15) == 32768 && (i < 15 ==> Pow2(i) < 32768)
  {
    assert Pow2(15) == 32768;
    PowMono(i, 14);
    assert Pow2(14) == 16384;
  }

  lemma {:induction false} PowMono(i: nat, j: nat)
    ensures i <= j ==> Pow2(i) <= Pow2(j)
    decreases j
  {
    if i < j {
      PowMono(i, j - 1);
    }
  }

  // ---- against the exact percentile

  function NatLe(): (nat, nat) -> bool { (a: nat, b: nat) => a <= b }

  /** The ceil(p N)-th smallest sample. */
  function Exact(samples: seq<nat>, p: real): nat
    requires samples != [] && 0.0 < p <= 1.0
  {
    TargetInRange(|samples|, p);
    Sort(samples, NatLe())[Target(|samples|, p) - 1]
  }

  lemma {:induction false} SortedBelow(s: seq<nat>, limit: nat, k: nat)
    requires Sorted(s, NatLe()) && k < |s|
    ensures s[k] < limit <==> Count(s, BelowUs(limit)) > k
  {
    var n := |s| - 1;
    if k < n {
      SortedBelow(s[..n], limit, k);
      if s[k] >= limit {
        assert NatLe()(s[k], s[n]);
      }
    } else {
      CountBound(s[..n], BelowUs(limit));
      if s[n] < limit {
        forall i | 0 <= i < n
          ensures BelowUs(limit)(s[..n][i])
        {
          assert NatLe()(s[i], s[n]);
        }
      }
    }
  }

  lemma SortedPlace(samples: seq<nat>, k: nat)
    requires k < |samples|
    ensures |Sort(samples, NatLe())| == |samples|
    ensures var x := Sort(samples, NatLe())[k];
            x in samples && Count(samples, BelowUs(x)) <= k < Count(samples, BelowUs(x + 1))
  {
    hide Count, Sort, Sorted;
    var s := Sort(samples, NatLe());
    assert TotalOrder(NatLe());
    SortIs(samples, NatLe());
    var x := s[k];
    assert x in multiset(samples);
    CountPermuted(samples, s, BelowUs(x));
    CountPermuted(samples, s, BelowUs(x + 1));
    SortedBelow(s, x, k);
    SortedBelow(s, x + 1, k);
  }

  /** It is a sample with fewer than p N samples below it and at least p N up to it. */
  lemma ExactIs(samples: seq<nat>, p: real)
    requires samples != [] && 0.0 < p <= 1.0
    ensures var x := Exact(samples, p);
            var share := |samples| as real * p;
            x in samples && (Count(samples, BelowUs(x)) as real) < share <= Count(samples, BelowUs(x + 1)) as real
  {
    hide Count, Sort, Target, Exact;
    ExactAt(samples, p);
    SortedPlace(samples, Target(|samples|, p) - 1);
    var x := Exact(samples, p);
    TargetMeans(|samples|, p, Count(samples, BelowUs(x)));
    TargetMeans(|samples|, p, Count(samples, BelowUs(x + 1)));
  }

  lemma ExactAt(samples: seq<nat>, p: real)
    requires samples != [] && 0.0 < p <= 1.0
    ensures 0 < Target(|samples|, p) <= |samples| == |Sort(samples, NatLe())|
    ensures Exact(samples, p) == Sort(samples, NatLe())[Target(|samples|, p) - 1]
  {
    hide Sort, Target;
    TargetInRange(|samples|, p);
    SortedPlace(samples, 0);
  }

  /** The histogram answers within a factor of two: the exact percentile lies in [v/2, v) milliseconds. */
  lemma PercentileIsClose(samples: seq<nat>, p: real)
    requires samples != [] && 0.0 < p <= 1.0
    requires forall i | 0 <= i < |samples| :: samples[i] < 32768000
    ensures var v := Percentile(Histogram(samples), p);
            var x := Exact(samples, p);
            x < 1000 * v && (v > 1 ==> 1000 * (v / 2) <= x)
  {
    hide Count, Sort, Percentile, Histogram, Sorted;
    var s := Sort(samples, NatLe());
    assert TotalOrder(NatLe());
    SortIs(samples, NatLe());
    TargetInRange(|samples|, p);
    TargetBrackets(samples, p);
    var v := Percentile(Histogram(samples), p);
    var k := Target(|samples|, p) - 1;
    CountPermuted(samples, s, BelowUs(1000 * v));
    CountPermuted(samples, s, BelowUs(1000 * (v / 2)));
    SortedBelow(s, 1000 * v, k);
    SortedBelow(s, 1000 * (v / 2), k);
  }

  // ---- the compare-exchange loops

  /** Where a thread is: before its load, holding the value it last saw, or out of the loop. */
  datatype CasPc = Before | Saw(cur: nat) | After

  datatype CasThread = CasThread(sample: nat, pc: CasPc)

  datatype CasState = CasState(shared: nat, threads: seq<CasThread>)

  datatype CasStep = Load(t: nat) | Leave(t: nat) | Exchange(t: nat) | Fail(t: nat)

  /** `dur_us < cur` in the minimum loop, `dur_us > cur` in the maximum loop. */
  predicate Better(up: bool, x: nat, y: nat) {
    if up then x > y else x < y
  }

  /** A weak compare-exchange may fail even when the values agree. */
  predicate CanStep(up: bool, s: CasState, a: CasStep) {
    && a.t < |s.threads|
    && var th := s.threads[a.t];
       match a
       case Load(_) => th.pc.Before?
       case Leave(_) => th.pc.Saw? && !Better(up, th.sample, th.pc.cur)
       case Exchange(_) => th.pc.Saw? && Better(up, th.sample, th.pc.cur) && s.shared == th.pc.cur
       case Fail(_) => th.pc.Saw? && Better(up, th.sample, th.pc.cur)
  }

  function DoStep(up: bool, s: CasState, a: CasStep): CasState
    requires CanStep(up, s, a)
  {
    var th := s.threads[a.t];
    match a
    case Load(_) => s.(threads := s.threads[a.t := th.(pc := Saw(s.shared))])
    case Leave(_) => s.(threads := s.threads[a.t := th.(pc := After)])
    case Exchange(_) => s.(shared := th.sample, threads := s.threads[a.t := th.(pc := After)])
    case Fail(_) => s.(threads := s.threads[a.t := th.(pc := Saw(s.shared))])
  }

  function RunCas(up: bool, s: CasState, sched: seq<CasStep>): Option<CasState>
    decreases |sched|
  {
    if sched == [] then Some(s)
    else if CanStep(up, s, sched[0]) then RunCas(up, DoStep(up, s, sched[0]), sched[1..])
    else None
  }

  /** No value seen is better than the shared one, and the shared one comes from somewhere. */
  ghost predicate CasInv(up: bool, start: nat, s: CasState) {
    && !Better(up, start, s.shared)
    && (s.shared == start || exists t :: 0 <= t < |s.threads| && s.threads[t].sample == s.shared)
    && (forall t | 0 <= t < |s.threads| && s.threads[t].pc.Saw? :: !Better(up, s.threads[t].pc.cur, s.shared))
    && (forall t | 0 <= t < |s.threads| && s.threads[t].pc.After? :: !Better(up, s.threads[t].sample, s.shared))
  }

  predicate SameSamples(s: CasState, u: CasState) {
    |s.threads| == |u.threads| && forall t | 0 <= t < |s.threads| :: s.threads[t].sample == u.threads[t].sample
  }

  lemma CasKeeps(up: bool, start: nat, s: CasState, a: CasStep)
    requires CasInv(up, start, s) && CanStep(up, s, a)
    ensures CasInv(up, start, DoStep(up, s, a)) && SameSamples(s, DoStep(up, s, a))
  {
    var u := DoStep(up, s, a);
    if u.shared != start {
      if a.Exchange? {
        assert u.threads[a.t].sample == u.shared;
      } else {
        var t :| 0 <= t < |s.threads| && s.threads[t].sample == s.shared;
        assert u.threads[t].sample == u.shared;
      }
    }
  }

  lemma {:induction false} CasRunKeeps(up: bool, start: nat, s: CasState, sched: seq<CasStep>)
    requires CasInv(up, start, s) && RunCas(up, s, sched).Some?
    ensures CasInv(up, start, RunCas(up, s, sched).value) && SameSamples(s, RunCas(up, s, sched).value)
    decreases |sched|
  {
    if sched != [] {
      CasKeeps(up, start, s, sched[0]);
      hide CasInv, CanStep, DoStep;
      CasRunKeeps(up, start, DoStep(up, s, sched[0]), sched[1..]);
    }
  }

  /**
    However the threads interleave, once all have left the loop the shared value is the extreme of the starting
    value and all samples.
  */
  lemma ExtremeIsTrue(up: bool, s: CasState, sched: seq<CasStep>)
    requires forall t | 0 <= t < |s.threads| :: s.threads[t].pc.Before?
    requires RunCas(up, s, sched).Some?
    requires forall t | 0 <= t < |RunCas(up, s, sched).value.threads| :: RunCas(up, s, sched).value.threads[t].pc.After?
    ensures var v := RunCas(up, s, sched).value.shared;
            && !Better(up, s.shared, v) && (forall t | 0 <= t < |s.threads| :: !Better(up, s.threads[t].sample, v))
            && (v == s.shared || exists t :: 0 <= t < |s.threads| && s.threads[t].sample == v)
  {
    CasRunKeeps(up, s.shared, s, sched);
    var u := RunCas(up, s, sched).value;
    forall t | 0 <= t < |s.threads|
      ensures !Better(up, s.threads[t].sample, u.shared)
    {
      assert u.threads[t].pc.After?;
    }
    if u.shared != s.shared {
      var t :| 0 <= t < |u.threads| && u.threads[t].sample == u.shared;
      assert s.threads[t].sample == u.shared;
    }
  }

  // ---- what the fields say

  /** The sum is the sum of the samples, whatever their order. */
  lemma {:induction false} SumIsSum(samples: seq<nat>)
    ensures SumUs(samples) == Sum(samples)
  {
    if samples != [] {
      SumIsSum(samples[..|samples| - 1]);
    }
  }

  lemma {:induction false} LeastAt(samples: seq<nat>) returns (k: nat)
    requires samples != [] && forall i | 0 <= i < |samples| :: samples[i] < TWO64
    ensures k < |samples| && samples[k] == LeastOf(samples) && forall i | 0 <= i < |samples| :: samples[k] <= samples[i]
  {
    var n := |samples| - 1;
    k := n;
    if n == 0 {
      assert samples[..0] == [];
    } else {
      var j := LeastAt(samples[..n]);
      assert forall i | 0 <= i < n :: samples[..n][i] == samples[i];
      if samples[j] <= samples[n] {
        k := j;
      }
    }
  }

  lemma {:induction false} GreatestAt(samples: seq<nat>) returns (k: nat)
    requires samples != []
    ensures k < |samples| && samples[k] == GreatestOf(samples) && forall i | 0 <= i < |samples| :: samples[i] <= samples[k]
  {
    var n := |samples| - 1;
    k := n;
    if n == 0 {
      assert samples[..0] == [];
    } else {
      var j := GreatestAt(samples[..n]);
      assert forall i | 0 <= i < n :: samples[..n][i] == samples[i];
      if samples[j] >= samples[n] {
        k := j;
      }
    }
  }

  /** The extremes are the smallest and the largest sample. */
  lemma ExtremesAre(samples: seq<nat>)
    requires samples != [] && forall i | 0 <= i < |samples| :: samples[i] < TWO64
    ensures LeastOf(samples) in samples && forall i | 0 <= i < |samples| :: LeastOf(samples) <= samples[i]
    ensures GreatestOf(samples) in samples && forall i | 0 <= i < |samples| :: samples[i] <= GreatestOf(samples)
  {
    var least := LeastAt(samples);
    var greatest := GreatestAt(samples);
    hide LeastOf, GreatestOf;
  }
}
