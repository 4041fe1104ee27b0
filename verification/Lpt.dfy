/**
  Longest-processing-time packing: jobs in the given order, each to the least-loaded bin, ties to the lowest
  index. How far its loads can be apart, and how far from the best possible.
*/
module Lpt {
  import opened Types
  import opened Arith
  import opened Counting

  const U64_MAX: nat := 0xffff_ffff_ffff_ffff

  /** `u64::saturating_add` */
  function SatAdd(a: nat, b: nat): nat { Min(a + b, U64_MAX) }

  /** The lowest index among the smallest loads. */
  function LeastLoaded(loads: seq<nat>): (b: nat)
    requires loads != []
    ensures b < |loads|
    ensures forall j | 0 <= j < |loads| :: loads[b] <= loads[j]
    ensures forall j | 0 <= j < b :: loads[b] < loads[j]
  {
    if |loads| == 1 then 0
    else
      var b := LeastLoaded(loads[..|loads| - 1]);
      if loads[|loads| - 1] < loads[b] then |loads| - 1 else b
  }

  /** The bins' loads after all jobs are placed. */
  function Loads(sizes: seq<nat>, m: nat): (r: seq<nat>)
    requires m > 0
    ensures |r| == m
  {
    if sizes == [] then seq(m, _ => 0)
    else
      var before := Loads(sizes[..|sizes| - 1], m);
      var b := LeastLoaded(before);
      before[b := SatAdd(before[b], sizes[|sizes| - 1])]
  }

  /** The bin of each job. */
  function Bins(sizes: seq<nat>, m: nat): (r: seq<nat>)
    requires m > 0
    ensures |r| == |sizes| && forall t | 0 <= t < |r| :: r[t] < m
  {
    if sizes == [] then []
    else Bins(sizes[..|sizes| - 1], m) + [LeastLoaded(Loads(sizes[..|sizes| - 1], m))]
  }

  // ---- the load an assignment puts on a bin

  function Load(sizes: seq<nat>, bins: seq<nat>, b: nat): nat
    requires |sizes| == |bins|
  {
    if sizes == [] then 0
    else
      var n := |sizes| - 1;
      Load(sizes[..n], bins[..n], b) + if bins[n] == b then sizes[n] else 0
  }

  /** An assignment of the jobs to m bins with no bin above T. */
  ghost predicate Fits(sizes: seq<nat>, bins: seq<nat>, m: nat, T: nat) {
    && |sizes| == |bins|
    && (forall t | 0 <= t < |bins| :: bins[t] < m)
    && (forall b: nat | b < m :: Load(sizes, bins, b) <= T)
  }

  function AllLoads(sizes: seq<nat>, bins: seq<nat>, m: nat): (r: seq<int>)
    requires |sizes| == |bins|
    ensures |r| == m && forall b | 0 <= b < m :: r[b] == Load(sizes, bins, b)
  {
    seq(m, b requires 0 <= b => Load(sizes, bins, b))
  }

  /** Every job lies on exactly one bin. */
  lemma {:induction false} LoadsAddUp(sizes: seq<nat>, bins: seq<nat>, m: nat)
    requires |sizes| == |bins| && forall t | 0 <= t < |bins| :: bins[t] < m
    ensures Sum(AllLoads(sizes, bins, m)) == Sum(sizes)
  {
    if sizes == [] {
      SumZero(AllLoads(sizes, bins, m));
    } else {
      var n := |sizes| - 1;
      LoadsAddUp(sizes[..n], bins[..n], m);
      var before := AllLoads(sizes[..n], bins[..n], m);
      assert AllLoads(sizes, bins, m) == before[bins[n] := before[bins[n]] + sizes[n]];
      SumUpdate(before, bins[n], before[bins[n]] + sizes[n]);
    }
  }

  /** No saturating addition saturates while the total fits in 64 bits. */
  lemma {:induction false} LoadsExact(sizes: seq<nat>, m: nat)
    requires m > 0 && Sum(sizes) <= U64_MAX
    ensures Loads(sizes, m) == AllLoads(sizes, Bins(sizes, m), m)
  {
    if sizes != [] {
      var n := |sizes| - 1;
      SumAtLeast(sizes[..n], 0);
      LoadsExact(sizes[..n], m);
      var before := Loads(sizes[..n], m);
      var b := LeastLoaded(before);
      LoadsAddUp(sizes[..n], Bins(sizes[..n], m), m);
      PartAtMost(before, b);
      assert Bins(sizes, m)[..n] == Bins(sizes[..n], m);
      assert SatAdd(before[b], sizes[n]) == before[b] + sizes[n];
      hide Loads, LeastLoaded, SatAdd, Sum;
      forall c | 0 <= c < m
        ensures Loads(sizes, m)[c] == Load(sizes, Bins(sizes, m), c)
      {
        LoadsAt(sizes, m, c);
      }
    }
  }

  lemma LoadsAt(sizes: seq<nat>, m: nat, c: nat)
    requires m > 0 && c < m && sizes != []
    ensures var n := |sizes| - 1;
            var before := Loads(sizes[..n], m);
            Loads(sizes, m)[c] == if c == Bins(sizes, m)[n] then SatAdd(before[c], sizes[n]) else before[c]
  {
    hide LeastLoaded, SatAdd;
  }

  lemma {:induction false} PartAtMost(q: seq<int>, i: nat)
    requires i < |q| && forall j | 0 <= j < |q| :: q[j] >= 0
    ensures q[i] <= Sum(q)
  {
    var n := |q| - 1;
    SumAtLeast(q[..n], 0);
    if i < n {
      PartAtMost(q[..n], i);
    }
  }

  // ---- balance

  /** Whatever the order of the jobs, two bins never differ by more than the largest job. */
  lemma {:induction false} SpreadBound(sizes: seq<nat>, m: nat, largest: nat, i: nat, j: nat)
    requires m > 0 && i < m && j < m
    requires forall t | 0 <= t < |sizes| :: sizes[t] <= largest
    ensures Loads(sizes, m)[i] - Loads(sizes, m)[j] <= largest
  {
    if sizes != [] {
      var n := |sizes| - 1;
      SpreadBound(sizes[..n], m, largest, i, j);
      LoadChange(sizes, m, i, j);
      hide Loads, LeastLoaded;
    }
  }

  /** A job lengthens the lead of one bin over another only if the first was no higher before. */
  lemma LoadChange(sizes: seq<nat>, m: nat, i: nat, j: nat)
    requires m > 0 && i < m && j < m && sizes != []
    ensures var before := Loads(sizes[..|sizes| - 1], m);
            || Loads(sizes, m)[i] + before[j] <= Loads(sizes, m)[j] + before[i]
            || Loads(sizes, m)[i] <= Loads(sizes, m)[j] + sizes[|sizes| - 1]
  {
    var before := Loads(sizes[..|sizes| - 1], m);
    LeastIsLeast(before, j);
    LoadsCapped(sizes[..|sizes| - 1], m);
    hide LeastLoaded;
  }

  /** The least-loaded bin is at or below the average. */
  lemma LeastIsLow(loads: seq<nat>)
    requires loads != []
    ensures |loads| * loads[LeastLoaded(loads)] <= Sum(loads)
  {
    hide LeastLoaded;
    var low := loads[LeastLoaded(loads)];
    SumAtLeast(loads, low);
    MulSwap(low, |loads|);
  }

  lemma {:induction false} PlacedLoads(sizes: seq<nat>, m: nat)
    requires m > 0 && Sum(sizes) <= U64_MAX
    ensures Sum(Loads(sizes, m)) == Sum(sizes)
  {
    LoadsExact(sizes, m);
    LoadsAddUp(sizes, Bins(sizes, m), m);
  }

  /** No assignment beats the average, nor its own largest job. */
  lemma FitsAverage(sizes: seq<nat>, bins: seq<nat>, m: nat, T: nat)
    requires Fits(sizes, bins, m, T)
    ensures Sum(sizes) <= m * T
  {
    LoadsAddUp(sizes, bins, m);
    SumAtMost(AllLoads(sizes, bins, m), T);
    MulSwap(m, T);
  }

  lemma {:induction false} FitsJob(sizes: seq<nat>, bins: seq<nat>, t: nat)
    requires |sizes| == |bins| && t < |sizes|
    ensures sizes[t] <= Load(sizes, bins, bins[t])
  {
    var n := |sizes| - 1;
    if t < n {
      FitsJob(sizes[..n], bins[..n], t);
    }
  }

  lemma FitsInit(sizes: seq<nat>, bins: seq<nat>, m: nat, T: nat)
    requires Fits(sizes, bins, m, T) && sizes != []
    ensures Fits(sizes[..|sizes| - 1], bins[..|sizes| - 1], m, T)
  {
    var n := |sizes| - 1;
    forall b: nat | b < m
      ensures Load(sizes[..n], bins[..n], b) <= T
    {
      assert Load(sizes, bins, b) <= T;
    }
  }

  lemma SumInit(sizes: seq<nat>)
    requires sizes != []
    ensures Sum(sizes) == Sum(sizes[..|sizes| - 1]) + sizes[|sizes| - 1]
    ensures Sum(sizes[..|sizes| - 1]) <= Sum(sizes)
  {
  }

  /** The bin that receives a job: at most the average of everything so far, and (m - 1)/m of the job on top. */
  lemma LastPlaced(sizes: seq<nat>, m: nat)
    requires m > 0 && sizes != [] && Sum(sizes) <= U64_MAX
    ensures var n := |sizes| - 1;
            m * Loads(sizes, m)[Bins(sizes, m)[n]] <= Sum(sizes) + (m - 1) * sizes[n]
  {
    var n := |sizes| - 1;
    SumInit(sizes);
    var before := Loads(sizes[..n], m);
    var b := LeastLoaded(before);
    PlacedLoads(sizes[..n], m);
    LeastIsLow(before);
    assert Loads(sizes, m)[b] <= before[b] + sizes[n];
    Distribute(m, Loads(sizes, m)[b], before[b], sizes[n]);
  }

  lemma Distribute(m: nat, l: nat, a: nat, x: nat)
    requires l <= a + x && m > 0
    ensures m * l <= m * a + x + (m - 1) * x
  {
    assert m * l <= m * (a + x) by { MulMono(m, l, a + x); }
    assert m * (a + x) == m * a + m * x;
    assert m * x == x + (m - 1) * x;
  }

  lemma LastElsewhere(sizes: seq<nat>, m: nat, i: nat)
    requires m > 0 && i < m && sizes != [] && Bins(sizes, m)[|sizes| - 1] != i
    ensures Loads(sizes, m)[i] == Loads(sizes[..|sizes| - 1], m)[i]
  {
    hide LeastLoaded;
  }

  /** In any order of the jobs: no bin exceeds (2 - 1/m) times the best possible. */
  lemma {:induction false} TwiceBound(sizes: seq<nat>, m: nat, best: seq<nat>, T: nat, i: nat)
    requires m > 0 && i < m && Sum(sizes) <= U64_MAX && Fits(sizes, best, m, T)
    ensures m * Loads(sizes, m)[i] <= (2 * m - 1) * T
  {
    if sizes == [] {
      assert Loads(sizes, m)[i] == 0;
    } else {
      var n := |sizes| - 1;
      SumInit(sizes);
      hide Loads, Bins, LeastLoaded, Sum, Load, Fits;
      if Bins(sizes, m)[n] != i {
        FitsInit(sizes, best, m, T);
        LastElsewhere(sizes, m, i);
        TwiceBound(sizes[..n], m, best[..n], T, i);
      } else {
        LastPlaced(sizes, m);
        FitsAverage(sizes, best, m, T);
        FitsOne(sizes, best, m, T, n);
        LargeJob(m, Loads(sizes, m)[i], sizes[n], T);
      }
    }
  }

  lemma LargeJob(m: nat, load: nat, p: nat, T: nat)
    requires m > 0 && p <= T && m * load <= m * T + (m - 1) * p
    ensures m * load <= (2 * m - 1) * T
  {
    MulMono(m - 1, p, T);
    assert (2 * m - 1) * T == m * T + (m - 1) * T;
  }

  // ---- Graham's bound for sorted jobs

  predicate Descending(sizes: seq<nat>) {
    forall t, u | 0 <= t < u < |sizes| :: sizes[t] >= sizes[u]
  }

  /** A job counts double when not even the smallest job fits beside it. */
  function Weights(sizes: seq<nat>, p: nat, T: nat): (r: seq<nat>)
    ensures |r| == |sizes|
    ensures forall t | 0 <= t < |sizes| :: r[t] == if sizes[t] + p > T then 2 else 1
  {
    seq(|sizes|, t requires 0 <= t < |sizes| => if sizes[t] + p > T then 2 else 1)
  }

  lemma WeightsInit(sizes: seq<nat>, p: nat, T: nat)
    requires sizes != []
    ensures Weights(sizes, p, T)[..|sizes| - 1] == Weights(sizes[..|sizes| - 1], p, T)
  {
  }

  /** When all jobs exceed a third of T, a bin within T carries weight at most 2. */
  lemma {:induction false} WeightAtMost(sizes: seq<nat>, bins: seq<nat>, b: nat, p: nat, T: nat)
    requires |sizes| == |bins| && 3 * p > T && forall t | 0 <= t < |sizes| :: sizes[t] >= p
    ensures var w := Load(Weights(sizes, p, T), bins, b);
            var l := Load(sizes, bins, b);
            (w >= 1 ==> l >= p) && (w >= 2 ==> l + p > T) && (w >= 3 ==> l > T)
  {
    if sizes != [] {
      var n := |sizes| - 1;
      WeightsInit(sizes, p, T);
      WeightAtMost(sizes[..n], bins[..n], b, p, T);
    }
  }

  /** A bin into which the smallest job no longer fits carries weight at least 2. */
  lemma {:induction false} WeightAtLeast(sizes: seq<nat>, bins: seq<nat>, b: nat, p: nat, T: nat)
    requires |sizes| == |bins|
    ensures var w := Load(Weights(sizes, p, T), bins, b);
            var l := Load(sizes, bins, b);
            (w == 0 ==> l == 0) && (w == 1 ==> l + p <= T)
  {
    if sizes != [] {
      var n := |sizes| - 1;
      WeightsInit(sizes, p, T);
      WeightAtLeast(sizes[..n], bins[..n], b, p, T);
    }
  }

  /**
    If all jobs exceed a third of T and some assignment stays within T, the greedy one has room for the last job:
    otherwise its full bins would weigh more than the other assignment can carry.
  */
  lemma LastLoad(sizes: seq<nat>, m: nat)
    requires m > 0 && sizes != []
    ensures var n := |sizes| - 1;
            var before := Loads(sizes[..n], m);
            var b := LeastLoaded(before);
            Bins(sizes, m)[n] == b && Loads(sizes, m)[b] <= before[b] + sizes[n]
  {
    hide LeastLoaded;
  }

  lemma LastFits(sizes: seq<nat>, m: nat, best: seq<nat>, T: nat)
    requires m > 0 && sizes != [] && Sum(sizes) <= U64_MAX && Fits(sizes, best, m, T) && Descending(sizes)
    requires 3 * sizes[|sizes| - 1] > T
    ensures Loads(sizes, m)[Bins(sizes, m)[|sizes| - 1]] <= T
  {
    hide Loads, LeastLoaded, Load, Bins, AllLoads, Fits, Weights, Sum;
    var n := |sizes| - 1;
    var before := Loads(sizes[..n], m);
    LastLoad(sizes, m);
    if before[LeastLoaded(before)] + sizes[n] > T {
      TooMuchWeight(sizes, m, best, T);
      assert false;
    }
  }

  /** Were the last job to end above T, the jobs before it would weigh all that the best assignment can carry. */
  lemma TooMuchWeight(sizes: seq<nat>, m: nat, best: seq<nat>, T: nat)
    requires m > 0 && sizes != [] && Sum(sizes) <= U64_MAX && Fits(sizes, best, m, T) && Descending(sizes)
    requires 3 * sizes[|sizes| - 1] > T
    ensures var before := Loads(sizes[..|sizes| - 1], m); before[LeastLoaded(before)] + sizes[|sizes| - 1] <= T
  {
    hide Loads, LeastLoaded, Load, Bins, AllLoads, Fits, Sum;
    var n := |sizes| - 1;
    var p := sizes[n];
    var w := Weights(sizes, p, T);
    SumInit(sizes);
    LoadsExact(sizes[..n], m);
    FitsOne(sizes, best, m, T, n);
    BestCarries(sizes, m, best, p, T);
    WeightsInit(sizes, p, T);
    SumInit(w);
    var before := Loads(sizes[..n], m);
    if before[LeastLoaded(before)] + p > T {
      FullBinsWeigh(sizes[..n], m, p, T);
    }
  }

  lemma FitsOne(sizes: seq<nat>, best: seq<nat>, m: nat, T: nat, t: nat)
    requires Fits(sizes, best, m, T) && t < |sizes|
    ensures sizes[t] <= T
  {
    FitsJob(sizes, best, t);
    hide Load;
  }

  lemma FullBinsWeigh(sizes: seq<nat>, m: nat, p: nat, T: nat)
    requires m > 0 && p <= T
    requires Loads(sizes, m) == AllLoads(sizes, Bins(sizes, m), m)
    requires var before := Loads(sizes, m); before[LeastLoaded(before)] + p > T
    ensures Sum(Weights(sizes, p, T)) >= 2 * m
  {
    hide Loads, LeastLoaded, Load, Bins, Weights, Sum;
    var w := Weights(sizes, p, T);
    var bins := Bins(sizes, m);
    forall b: nat | b < m
      ensures AllLoads(w, bins, m)[b] >= 2
    {
      LeastIsLeast(Loads(sizes, m), b);
      WeightAtLeast(sizes, bins, b, p, T);
    }
    LoadsAddUp(w, bins, m);
    SumAtLeast(AllLoads(w, bins, m), 2);
  }

  lemma LeastIsLeast(loads: seq<nat>, b: nat)
    requires b < |loads|
    ensures LeastLoaded(loads) < |loads| && loads[LeastLoaded(loads)] <= loads[b]
  {
  }

  lemma BestCarries(sizes: seq<nat>, m: nat, best: seq<nat>, p: nat, T: nat)
    requires Fits(sizes, best, m, T) && 3 * p > T && forall t | 0 <= t < |sizes| :: sizes[t] >= p
    ensures Sum(Weights(sizes, p, T)) <= 2 * m
  {
    var w := Weights(sizes, p, T);
    forall b: nat | b < m
      ensures AllLoads(w, best, m)[b] <= 2
    {
      WeightAtMost(sizes, best, b, p, T);
      assert Load(sizes, best, b) <= T;
    }
    LoadsAddUp(w, best, m);
    SumAtMost(AllLoads(w, best, m), 2);
  }

  /** Graham: with the jobs in descending order no bin exceeds (4/3 - 1/(3m)) times the best possible. */
  lemma {:induction false} GrahamBound(sizes: seq<nat>, m: nat, best: seq<nat>, T: nat, i: nat)
    requires m > 0 && i < m && Sum(sizes) <= U64_MAX && Fits(sizes, best, m, T) && Descending(sizes)
    ensures 3 * m * Loads(sizes, m)[i] <= (4 * m - 1) * T
  {
    if sizes == [] {
      assert Loads(sizes, m)[i] == 0;
      WithinBest(m, 0, T);
    } else {
      var n := |sizes| - 1;
      SumInit(sizes);
      hide Loads, Bins, LeastLoaded, Sum, Load;
      var load := Loads(sizes, m)[i];
      if Bins(sizes, m)[n] != i {
        FitsInit(sizes, best, m, T);
        LastElsewhere(sizes, m, i);
        GrahamBound(sizes[..n], m, best[..n], T, i);
      } else if 3 * sizes[n] > T {
        LastFits(sizes, m, best, T);
        WithinBest(m, load, T);
      } else {
        LastPlaced(sizes, m);
        FitsAverage(sizes, best, m, T);
        ThirdJob(m, load, sizes[n], T);
      }
    }
  }

  lemma WithinBest(m: nat, load: nat, T: nat)
    requires m > 0 && load <= T
    ensures 3 * m * load <= (4 * m - 1) * T
  {
    MulMono(3 * m, load, T);
    assert (4 * m - 1) * T == 3 * m * T + (m - 1) * T;
  }

  lemma ThirdJob(m: nat, load: nat, p: nat, T: nat)
    requires m > 0 && 3 * p <= T && m * load <= m * T + (m - 1) * p
    ensures 3 * m * load <= (4 * m - 1) * T
  {
    MulMono(m - 1, 3 * p, T);
    assert 3 * m * load == 3 * (m * load);
    assert (m - 1) * (3 * p) == 3 * ((m - 1) * p);
    assert (4 * m - 1) * T == 3 * (m * T) + (m - 1) * T;
  }

  /** The bound is met: with two bins and jobs 3, 3, 2, 2, 2 the greedy makespan is 7 where 6 is possible. */
  lemma GrahamIsTight()
    ensures Descending([3, 3, 2, 2, 2]) && Fits([3, 3, 2, 2, 2], [0, 0, 1, 1, 1], 2, 6)
    ensures 3 * 2 * Loads([3, 3, 2, 2, 2], 2)[0] == (4 * 2 - 1) * 6
  {
    hide Loads, Load, LeastLoaded;
    GreedyMakespan();
    BetterMakespan(0);
    BetterMakespan(1);
  }

  lemma GreedyMakespan()
    ensures Loads([3, 3, 2, 2, 2], 2) == [7, 5]
  {
    hide LeastLoaded;
    var a, b, c, d: seq<nat> := [3], [3, 3], [3, 3, 2], [3, 3, 2, 2];
    var all: seq<nat> := [3, 3, 2, 2, 2];
    assert a[..0] == [] && b[..1] == a && c[..2] == b && d[..3] == c && all[..4] == d;
    Two(0, 0);
    Two(3, 0);
    Two(3, 3);
    Two(5, 3);
    Two(5, 5);
    assert Loads([], 2) == [0, 0];
    assert Loads(a, 2) == [3, 0];
    assert Loads(b, 2) == [3, 3];
    assert Loads(c, 2) == [5, 3];
    assert Loads(d, 2) == [5, 5];
  }

  lemma BetterMakespan(k: nat)
    requires k < 2
    ensures Load([3, 3, 2, 2, 2], [0, 0, 1, 1, 1], k) == 6
  {
    hide Loads, LeastLoaded, Load;
    LoadNothing(k);
    LoadNext([], 3, [], 0, k);
    LoadNext([3], 3, [0], 0, k);
    LoadNext([3, 3], 2, [0, 0], 1, k);
    LoadNext([3, 3, 2], 2, [0, 0, 1], 1, k);
    LoadNext([3, 3, 2, 2], 2, [0, 0, 1, 1], 1, k);
    assert [] + [3] == [3] && [3] + [3] == [3, 3] && [3, 3] + [2] == [3, 3, 2];
    assert [] + [0] == [0] && [0] + [0] == [0, 0] && [0, 0] + [1] == [0, 0, 1];
    assert [3, 3, 2] + [2] == [3, 3, 2, 2] && [3, 3, 2, 2] + [2] == [3, 3, 2, 2, 2];
    assert [0, 0, 1] + [1] == [0, 0, 1, 1] && [0, 0, 1, 1] + [1] == [0, 0, 1, 1, 1];
  }

  lemma LoadNothing(k: nat)
    ensures Load([], [], k) == 0
  {
  }

  lemma LoadNext(sizes: seq<nat>, x: nat, bins: seq<nat>, b: nat, k: nat)
    requires |sizes| == |bins|
    ensures Load(sizes + [x], bins + [b], k) == Load(sizes, bins, k) + if b == k then x else 0
  {
    assert (sizes + [x])[..|sizes|] == sizes && (bins + [b])[..|bins|] == bins;
  }

  lemma Two(x: nat, y: nat)
    ensures LeastLoaded([x, y]) == if y < x then 1 else 0
  {
    assert [x, y][..1] == [x];
  }

  // ---- empty jobs, and as many bins as jobs

  lemma {:induction false} BinsAt(sizes: seq<nat>, m: nat, t: nat)
    requires m > 0 && t < |sizes|
    ensures Bins(sizes, m)[t] == LeastLoaded(Loads(sizes[..t], m))
  {
    hide Loads, LeastLoaded;
    var n := |sizes| - 1;
    if t < n {
      BinsAt(sizes[..n], m, t);
      assert sizes[..n][..t] == sizes[..t];
    }
  }

  lemma {:induction false} LoadsCapped(sizes: seq<nat>, m: nat)
    requires m > 0
    ensures forall b | 0 <= b < m :: Loads(sizes, m)[b] <= U64_MAX
  {
    if sizes != [] {
      LoadsCapped(sizes[..|sizes| - 1], m);
    }
  }

  /** Empty jobs move no load, so they all go to one bin. */
  lemma {:induction false} EmptyJobs(sizes: seq<nat>, m: nat, k: nat, t: nat)
    requires m > 0 && k <= t <= |sizes| && forall u | k <= u < |sizes| :: sizes[u] == 0
    ensures Loads(sizes[..t], m) == Loads(sizes[..k], m)
  {
    if k < t {
      EmptyJobs(sizes, m, k, t - 1);
      EmptyJob(sizes[..t], m);
      hide Loads;
      assert sizes[..t][..t - 1] == sizes[..t - 1];
    }
  }

  lemma EmptyJob(sizes: seq<nat>, m: nat)
    requires m > 0 && sizes != [] && sizes[|sizes| - 1] == 0
    ensures Loads(sizes, m) == Loads(sizes[..|sizes| - 1], m)
  {
    LoadsCapped(sizes[..|sizes| - 1], m);
    hide LeastLoaded;
  }

  /** With a bin for every job, the first jobs take the first bins. */
  lemma {:induction false} LoadedBins(sizes: seq<nat>, m: nat)
    requires 0 < m && |sizes| <= m && forall t | 0 <= t < |sizes| :: sizes[t] > 0
    ensures forall b | 0 <= b < m :: Loads(sizes, m)[b] > 0 <==> b < |sizes|
  {
    if sizes != [] {
      var n := |sizes| - 1;
      LoadedBins(sizes[..n], m);
      FirstFree(Loads(sizes[..n], m), n);
    }
  }

  lemma FirstFree(loads: seq<nat>, n: nat)
    requires n < |loads| && forall b | 0 <= b < |loads| :: loads[b] > 0 <==> b < n
    ensures LeastLoaded(loads) == n
  {
  }

  /** Then the t-th job goes to bin t, as long as no job before it is empty. */
  lemma OwnBin(sizes: seq<nat>, m: nat, t: nat)
    requires t < |sizes| <= m && forall u | 0 <= u < t :: sizes[u] > 0
    ensures Bins(sizes, m)[t] == t
  {
    BinsAt(sizes, m, t);
    LoadedBins(sizes[..t], m);
    FirstFree(Loads(sizes[..t], m), t);
  }

  // ---- loads in general

  /** However large the total, a bin shows what its jobs add up to, capped at what the counter can hold. */
  lemma {:induction false} LoadsSaturate(sizes: seq<nat>, m: nat, b: nat)
    requires m > 0 && b < m
    ensures Loads(sizes, m)[b] == Min(Load(sizes, Bins(sizes, m), b), U64_MAX)
  {
    if sizes != [] {
      var n := |sizes| - 1;
      LoadsSaturate(sizes[..n], m, b);
      LoadsAt(sizes, m, b);
      LoadLast(sizes, m, b);
      hide Loads, Load, Bins, LeastLoaded;
    }
  }

  lemma LoadLast(sizes: seq<nat>, m: nat, b: nat)
    requires m > 0 && b < m && sizes != []
    ensures var n := |sizes| - 1;
            Load(sizes, Bins(sizes, m), b) == Load(sizes[..n], Bins(sizes[..n], m), b) + if Bins(sizes, m)[n] == b then sizes[n] else 0
  {
    hide Loads, LeastLoaded;
    assert Bins(sizes, m)[..|sizes| - 1] == Bins(sizes[..|sizes| - 1], m);
  }

  // ---- equal jobs

  /** How often bin `b` has had its turn after `n` jobs. */
  function Turns(n: nat, m: nat, b: nat): nat
    requires m > 0
  {
    n / m + if b < n % m then 1 else 0
  }

  lemma DivNext(n: nat, m: nat)
    requires m > 0
    ensures if n % m == m - 1 then (n + 1) / m == n / m + 1 && (n + 1) % m == 0
            else (n + 1) / m == n / m && (n + 1) % m == n % m + 1
  {
    var q := n / m;
    assert n == q * m + n % m && n + 1 == (n + 1) / m * m + (n + 1) % m;
    if n % m == m - 1 {
      assert (q + 1) * m == q * m + m;
      QuotientUnique(n + 1, m, q + 1);
    } else {
      QuotientUnique(n + 1, m, q);
    }
  }

  lemma TurnsNext(n: nat, m: nat, b: nat)
    requires m > 0 && b < m
    ensures Turns(n + 1, m, b) == Turns(n, m, b) + if b == n % m then 1 else 0
  {
    DivNext(n, m);
  }

  lemma {:induction false} TurnsFew(n: nat, m: nat, b: nat)
    requires m > 0 && b < m
    ensures Turns(n, m, b) <= n
  {
    if n > 0 {
      TurnsFew(n - 1, m, b);
      TurnsNext(n - 1, m, b);
    }
  }

  /** Jobs of one size go to the bins in turn. */
  lemma {:induction false} EqualJobsGoRound(sizes: seq<nat>, m: nat, size: nat)
    requires m > 0 && size > 0 && (forall t | 0 <= t < |sizes| :: sizes[t] == size) && |sizes| * size <= U64_MAX
    ensures forall b | 0 <= b < m :: Loads(sizes, m)[b] == Turns(|sizes|, m, b) * size
    ensures forall t | 0 <= t < |sizes| :: Bins(sizes, m)[t] == t % m
  {
    if sizes == [] {
      assert forall b | 0 <= b < m :: Turns(0, m, b) == 0;
    } else {
      hide Bins, LeastLoaded, Turns, Loads;
      var n := |sizes| - 1;
      OneMore(n, size);
      EqualJobsGoRound(sizes[..n], m, size);
      InTurn(Loads(sizes[..n], m), n, m, size);
      BinsInit(sizes, m);
      forall b: nat | b < m
        ensures Loads(sizes, m)[b] == Turns(n + 1, m, b) * size
      {
        EqualLoad(sizes, m, size, b);
      }
    }
  }

  lemma OneMore(n: nat, size: nat)
    ensures (n + 1) * size == n * size + size
  {
  }

  lemma EqualLoad(sizes: seq<nat>, m: nat, size: nat, b: nat)
    requires sizes != [] && b < m && sizes[|sizes| - 1] == size && |sizes| * size <= U64_MAX
    requires var n := |sizes| - 1;
             Loads(sizes[..n], m)[b] == Turns(n, m, b) * size && LeastLoaded(Loads(sizes[..n], m)) == n % m
    ensures Loads(sizes, m)[b] == Turns(|sizes|, m, b) * size
  {
    var n := |sizes| - 1;
    TurnsNext(n, m, b);
    TurnsFew(n, m, b);
    NextTurn(Turns(n, m, b), n, size);
    hide Turns, LeastLoaded;
  }

  lemma NextTurn(turns: nat, n: nat, size: nat)
    requires turns <= n
    ensures (turns + 1) * size == turns * size + size <= (n + 1) * size
  {
    Products(turns + 1, n + 1, size);
  }

  lemma BinsInit(sizes: seq<nat>, m: nat)
    requires m > 0 && sizes != []
    ensures var n := |sizes| - 1;
            Bins(sizes, m)[n] == LeastLoaded(Loads(sizes[..n], m)) && forall t | 0 <= t < n :: Bins(sizes, m)[t] == Bins(sizes[..n], m)[t]
  {
    hide Loads, LeastLoaded;
  }

  lemma InTurn(loads: seq<nat>, n: nat, m: nat, size: nat)
    requires m > 0 && size > 0 && |loads| == m && forall b | 0 <= b < m :: loads[b] == Turns(n, m, b) * size
    ensures LeastLoaded(loads) == n % m
  {
    var next := n % m;
    NextTurn(n / m, n / m, size);
    assert forall b | 0 <= b < m :: loads[b] == if b < next then (n / m + 1) * size else n / m * size;
    LeastIs(loads, next);
  }

  lemma LeastIs(loads: seq<nat>, k: nat)
    requires k < |loads| && (forall j | 0 <= j < |loads| :: loads[k] <= loads[j]) && forall j | 0 <= j < k :: loads[k] < loads[j]
    ensures LeastLoaded(loads) == k
  {
    var b := LeastLoaded(loads);
    assert loads[b] <= loads[k] && loads[k] <= loads[b];
  }
}
