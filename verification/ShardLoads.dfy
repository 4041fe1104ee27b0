/** How evenly compute_shards spreads the bytes over the ranks, against every other assignment of the same shards. */
module ShardLoads {
  import opened Types
  import opened Counting
  import opened Sorting
  import opened Lpt
  import opened Shards
  import opened ShardTiling

  function Owners(plan: seq<ShardSpec>): (r: seq<nat>)
    ensures |r| == |plan| && forall i | 0 <= i < |r| :: r[i] == plan[i].ownerRank
  {
    seq(|plan|, i requires 0 <= i < |plan| => plan[i].ownerRank)
  }

  /** The bytes rank `r` downloads. */
  function RankLoad(plan: seq<ShardSpec>, r: nat): nat {
    Load(Lens(plan), Owners(plan), r)
  }

  // ---- loads do not depend on the order of the jobs

  /** What job `i` adds to bin `b`. */
  function Adds(sizes: seq<nat>, bins: seq<nat>, b: nat): nat -> int {
    (i: nat) => if i < |sizes| && i < |bins| && bins[i] == b then sizes[i] else 0
  }

  function Picked(q: seq<nat>, order: seq<nat>): (r: seq<nat>)
    ensures |r| == |order| && forall t | 0 <= t < |r| :: r[t] == if order[t] < |q| then q[order[t]] else 0
  {
    seq(|order|, t requires 0 <= t < |order| => if order[t] < |q| then q[order[t]] else 0)
  }

  lemma {:induction false} LoadIsSum(sizes: seq<nat>, bins: seq<nat>, b: nat, order: seq<nat>)
    requires |sizes| == |bins| && forall t | 0 <= t < |order| :: order[t] < |sizes|
    ensures Load(Picked(sizes, order), Picked(bins, order), b) == SumOf(order, Adds(sizes, bins, b))
  {
    if order != [] {
      var n := |order| - 1;
      LoadIsSum(sizes, bins, b, order[..n]);
      assert Picked(sizes, order)[..n] == Picked(sizes, order[..n]);
      assert Picked(bins, order)[..n] == Picked(bins, order[..n]);
    }
  }

  lemma LoadPermuted(sizes: seq<nat>, bins: seq<nat>, b: nat, order: seq<nat>)
    requires |sizes| == |bins| && multiset(order) == multiset(Upto(|sizes|))
    ensures Load(Picked(sizes, order), Picked(bins, order), b) == Load(sizes, bins, b)
  {
    hide Load, SumOf, Adds;
    PermutationHits(order, |sizes|);
    LoadIsSum(sizes, bins, b, order);
    LoadIsSum(sizes, bins, b, Upto(|sizes|));
    SumOfPermuted(order, Upto(|sizes|), Adds(sizes, bins, b));
    assert Picked(sizes, Upto(|sizes|)) == sizes && Picked(bins, Upto(|sizes|)) == bins;
  }

  lemma SumPermuted(sizes: seq<nat>, order: seq<nat>)
    requires multiset(order) == multiset(Upto(|sizes|))
    ensures Sum(Picked(sizes, order)) == Sum(sizes)
  {
    hide Sum, Load;
    var zeros: seq<nat> := seq(|sizes|, _ => 0);
    PermutationHits(order, |sizes|);
    LoadPermuted(sizes, zeros, 0, order);
    OneBin(sizes, zeros);
    OneBin(Picked(sizes, order), Picked(zeros, order));
  }

  lemma {:induction false} OneBin(sizes: seq<nat>, bins: seq<nat>)
    requires |sizes| == |bins| && forall t | 0 <= t < |bins| :: bins[t] == 0
    ensures Load(sizes, bins, 0) == Sum(sizes)
  {
    if sizes != [] {
      OneBin(sizes[..|sizes| - 1], bins[..|sizes| - 1]);
    }
  }

  // ---- the plan's loads are the packer's

  lemma PackedLoads(sizes: seq<nat>, count: nat, shardSize: nat, r: nat)
    requires count > 1 && r < count && Sum(sizes) <= U64_MAX
    ensures var jobs := SizesIn(RawShards(sizes, shardSize), LptOrder(RawShards(sizes, shardSize)));
            RankLoad(Plan(sizes, count, shardSize), r) == Loads(jobs, count)[r]
  {
    var raw, plan := RawShards(sizes, shardSize), Plan(sizes, count, shardSize);
    var order := LptOrder(raw);
    var jobs := SizesIn(raw, order);
    LptOrderIs(raw);
    PlanIs(sizes, count, shardSize);
    AssignedBins(raw, order, count);
    TotalBytes(sizes, shardSize);
    hide RawShards, LptOrder, Assigned, Load, Loads, Bins, Sum, IndexLe, Plan;
    assert Lens(plan) == Lens(raw);
    assert jobs == Picked(Lens(plan), order);
    assert Bins(jobs, count) == Picked(Owners(plan), order);
    SumPermuted(Lens(plan), order);
    LoadPermuted(Lens(plan), Owners(plan), r, order);
    LoadsExact(jobs, count);
  }

  lemma JobsDescend(raw: seq<ShardSpec>)
    ensures Descending(SizesIn(raw, LptOrder(raw)))
  {
    LptOrderIs(raw);
    hide LptOrder;
    var order := LptOrder(raw);
    var jobs := SizesIn(raw, order);
    forall t, u | 0 <= t < u < |jobs|
      ensures jobs[t] >= jobs[u]
    {
      assert IndexLe(raw)(order[t], order[u]);
    }
  }

  /** Another assignment of the plan's shards, read in the packer's order. */
  lemma OtherAssignment(sizes: seq<nat>, count: nat, shardSize: nat, best: seq<nat>, T: nat)
    requires count > 1 && Sum(sizes) <= U64_MAX && Fits(Lens(Plan(sizes, count, shardSize)), best, count, T)
    ensures var raw := RawShards(sizes, shardSize);
            var jobs := SizesIn(raw, LptOrder(raw));
            Fits(jobs, Picked(best, LptOrder(raw)), count, T) && Sum(jobs) == Sum(sizes)
  {
    var raw, plan := RawShards(sizes, shardSize), Plan(sizes, count, shardSize);
    var order := LptOrder(raw);
    var jobs := SizesIn(raw, order);
    LptOrderIs(raw);
    PlanIs(sizes, count, shardSize);
    TotalBytes(sizes, shardSize);
    hide RawShards, LptOrder, Assigned, Load, Sum;
    assert Lens(plan) == Lens(raw);
    assert jobs == Picked(Lens(plan), order);
    SumPermuted(Lens(plan), order);
    forall b: nat | b < count
      ensures Load(jobs, Picked(best, order), b) <= T
    {
      LoadPermuted(Lens(plan), best, b, order);
      assert Load(Lens(plan), best, b) <= T;
    }
  }

  // ---- the bounds

  /** One rank: it carries everything, as every assignment to one rank does. */
  lemma SingleRank(sizes: seq<nat>, shardSize: nat, best: seq<nat>, T: nat, r: nat)
    requires r < 1 && Fits(Lens(Plan(sizes, 1, shardSize)), best, 1, T)
    ensures RankLoad(Plan(sizes, 1, shardSize), r) <= T
  {
    var plan := Plan(sizes, 1, shardSize);
    RawUnowned(sizes, shardSize);
    OneBin(Lens(plan), Owners(plan));
    OneBin(Lens(plan), best);
    assert Load(Lens(plan), best, 0) <= T;
  }

  /**
    Graham's bound for the plan: when the bytes fit in 64 bits, no rank downloads more than (4/3 - 1/(3m)) times
    what the busiest rank of any other assignment of the same shards downloads.
  */
  lemma PlanIsNearBest(sizes: seq<nat>, count: nat, shardSize: nat, best: seq<nat>, T: nat, r: nat)
    requires r < count && Sum(sizes) <= U64_MAX && Fits(Lens(Plan(sizes, count, shardSize)), best, count, T)
    ensures 3 * count * RankLoad(Plan(sizes, count, shardSize), r) <= (4 * count - 1) * T
  {
    hide Fits, RankLoad, Loads, Plan, RawShards, LptOrder, Sum;
    if count == 1 {
      SingleRank(sizes, shardSize, best, T, r);
    } else {
      var raw := RawShards(sizes, shardSize);
      PackedLoads(sizes, count, shardSize, r);
      JobsDescend(raw);
      OtherAssignment(sizes, count, shardSize, best, T);
      GrahamBound(SizesIn(raw, LptOrder(raw)), count, Picked(best, LptOrder(raw)), T, r);
    }
  }

  /** Two ranks never differ by more than the largest shard. */
  lemma PlanSpread(sizes: seq<nat>, count: nat, shardSize: nat, largest: nat, r: nat, q: nat)
    requires r < count && q < count && Sum(sizes) <= U64_MAX
    requires forall i | 0 <= i < |Plan(sizes, count, shardSize)| :: Plan(sizes, count, shardSize)[i].byteLen <= largest
    ensures RankLoad(Plan(sizes, count, shardSize), r) - RankLoad(Plan(sizes, count, shardSize), q) <= largest
  {
    hide RankLoad, Loads, RawShards, LptOrder, Sum, Assigned;
    if count > 1 {
      var raw := RawShards(sizes, shardSize);
      PlanIs(sizes, count, shardSize);
      LptOrderIs(raw);
      PackedLoads(sizes, count, shardSize, r);
      PackedLoads(sizes, count, shardSize, q);
      SpreadBound(SizesIn(raw, LptOrder(raw)), count, largest, r, q);
    }
  }
}
