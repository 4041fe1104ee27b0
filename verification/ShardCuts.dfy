/** How large the shards are, how many a file has, and in which order they are handed out. */
module ShardCuts {
  import opened Types
  import opened Arith
  import opened Counting
  import opened Sorting
  import opened Lpt
  import opened Shards
  import opened ShardTiling
  import opened ShardLoads

  // ---- sizes

  /**
    With a shard size every shard starts at a multiple of it, none is longer, and one that does not end its file is
    exactly that long.
  */
  lemma ShardsAreCut(sizes: seq<nat>, count: nat, shardSize: nat, i: nat)
    requires shardSize > 0 && i < |Plan(sizes, count, shardSize)|
    ensures var s := Plan(sizes, count, shardSize)[i];
            && s.fileIdx < |sizes| && s.byteLen <= shardSize && s.byteOffset == s.shardIdx * shardSize
            && (s.byteOffset + s.byteLen < sizes[s.fileIdx] ==> s.byteLen == shardSize)
  {
    PlanIs(sizes, count, shardSize);
    RawAreCut(sizes, shardSize, i);
  }

  lemma {:induction false} RawAreCut(sizes: seq<nat>, shardSize: nat, i: nat)
    requires shardSize > 0 && i < |RawShards(sizes, shardSize)|
    ensures var s := RawShards(sizes, shardSize)[i];
            && s.fileIdx < |sizes| && s.byteLen <= shardSize && s.byteOffset == s.shardIdx * shardSize
            && (s.byteOffset + s.byteLen < sizes[s.fileIdx] ==> s.byteLen == shardSize)
  {
    if sizes != [] {
      var n := |sizes| - 1;
      var before := RawShards(sizes[..n], shardSize);
      if i < |before| {
        RawAreCut(sizes[..n], shardSize, i);
      } else {
        assert RawShards(sizes, shardSize)[i] == Cut(n, sizes[n], shardSize, i - |before|);
        CutStep(n, sizes[n], shardSize, i - |before|);
      }
    }
  }

  // ---- numbers

  lemma {:induction false} RawNumber(sizes: seq<nat>, shardSize: nat, f: nat)
    ensures Count(RawShards(sizes, shardSize), OfFile(f)) == if f < |sizes| then ShardsPerFile(sizes[f], shardSize) else 0
  {
    if sizes != [] {
      var n := |sizes| - 1;
      var own := FileShards(n, sizes[n], shardSize);
      RawNumber(sizes[..n], shardSize, f);
      CountAppend(RawShards(sizes[..n], shardSize), own, OfFile(f));
      OwnNumber(n, sizes[n], shardSize, f);
    }
  }

  lemma OwnNumber(file: nat, size: nat, shardSize: nat, f: nat)
    ensures Count(FileShards(file, size, shardSize), OfFile(f)) == if f == file then ShardsPerFile(size, shardSize) else 0
  {
    hide Count, Cut, ShardsPerFile;
    var q := FileShards(file, size, shardSize);
    forall i | 0 <= i < |q|
      ensures q[i].fileIdx == file
    {
      CutFile(file, size, shardSize, i);
    }
    CountBound(q, OfFile(f));
    CountZero(q, OfFile(f));
  }

  lemma {:induction false} SameNumber(a: seq<ShardSpec>, b: seq<ShardSpec>, f: nat)
    requires |a| == |b| && forall i | 0 <= i < |a| :: b[i] == a[i].(ownerRank := b[i].ownerRank)
    ensures Count(a, OfFile(f)) == Count(b, OfFile(f))
  {
    if a != [] {
      SameNumber(a[..|a| - 1], b[..|a| - 1], f);
    }
  }

  /**
    Without a shard size a file is one shard. With one it is the least number of shards that hold its bytes, and one
    when it is empty.
  */
  lemma ShardsOfFile(sizes: seq<nat>, count: nat, shardSize: nat, f: nat)
    requires f < |sizes|
    ensures var n := Count(Plan(sizes, count, shardSize), OfFile(f));
            && n >= 1
            && (shardSize == 0 ==> n == 1)
            && (shardSize > 0 ==> sizes[f] <= n * shardSize && (n > 1 ==> (n - 1) * shardSize < sizes[f]))
  {
    hide Plan, RawShards, Count;
    PlanIs(sizes, count, shardSize);
    SameNumber(RawShards(sizes, shardSize), Plan(sizes, count, shardSize), f);
    RawNumber(sizes, shardSize, f);
    if shardSize > 0 && sizes[f] > shardSize {
      DivCeilIs(sizes[f], shardSize);
    }
  }

  /** With --file-shards and no wrap-around, the plan has at most that many shards of any file. */
  lemma FewShards(sizes: seq<nat>, count: nat, fileShards: nat, chunk: nat, f: nat)
    requires fileShards >= 1 && chunk > 0 && DerivedFits(sizes, fileShards, chunk) && f < |sizes|
    ensures Count(Plan(sizes, count, DerivedShardSize(sizes, fileShards, chunk)), OfFile(f)) <= fileShards
  {
    hide Plan, RawShards, Count, DerivedFits, DerivedShardSize, ShardsPerFile;
    var shardSize := DerivedShardSize(sizes, fileShards, chunk);
    PlanIs(sizes, count, shardSize);
    SameNumber(RawShards(sizes, shardSize), Plan(sizes, count, shardSize), f);
    RawNumber(sizes, shardSize, f);
    DerivedCount(sizes, fileShards, chunk, f);
  }

  // ---- the order of handing out

  /** The shards stand by file, and by position within a file. */
  lemma {:induction false} RawAscend(sizes: seq<nat>, shardSize: nat, i: nat, j: nat)
    requires i < j < |RawShards(sizes, shardSize)|
    ensures var x, y := RawShards(sizes, shardSize)[i], RawShards(sizes, shardSize)[j];
            x.fileIdx < y.fileIdx || (x.fileIdx == y.fileIdx && x.shardIdx < y.shardIdx)
    ensures RawShards(sizes, shardSize)[j].fileIdx < |sizes|
  {
    if sizes != [] {
      var n := |sizes| - 1;
      var before := RawShards(sizes[..n], shardSize);
      if j < |before| {
        RawAscend(sizes[..n], shardSize, i, j);
      } else {
        assert RawShards(sizes, shardSize)[j] == Cut(n, sizes[n], shardSize, j - |before|);
        if i < |before| {
          RawFile(sizes[..n], shardSize, i);
        } else {
          assert RawShards(sizes, shardSize)[i] == Cut(n, sizes[n], shardSize, i - |before|);
        }
      }
    }
  }

  lemma RawFile(sizes: seq<nat>, shardSize: nat, i: nat)
    requires i < |RawShards(sizes, shardSize)|
    ensures RawShards(sizes, shardSize)[i].fileIdx < |sizes|
  {
    ShardsInOrder(sizes, shardSize);
    assert StepOk(RawShards(sizes, shardSize), sizes, i);
  }

  /**
    The shards are handed out longest first, equally long ones in the order of the plan, each to the rank with the
    fewest bytes so far. There is only one such order.
  */
  lemma HandedOut(sizes: seq<nat>, count: nat, shardSize: nat) returns (order: seq<nat>)
    requires count > 1
    ensures var plan := Plan(sizes, count, shardSize);
            && |order| == |plan| && (forall i: nat | i < |plan| :: i in order)
            && (forall t | 0 <= t < |order| :: order[t] < |plan|)
            && (forall t, u | 0 <= t < u < |order| ::
                  || plan[order[t]].byteLen > plan[order[u]].byteLen
                  || (plan[order[t]].byteLen == plan[order[u]].byteLen && order[t] < order[u]))
            && (forall t | 0 <= t < |order| ::
                  plan[order[t]].ownerRank == Bins(Picked(Lens(plan), order), count)[t])
  {
    hide RawShards, LptOrder, Assigned, Bins, Sort, Picked, SizesIn, Plan, IndexLe;
    var raw := RawShards(sizes, shardSize);
    order := LptOrder(raw);
    LptOrderIs(raw);
    PlanIs(sizes, count, shardSize);
    forall t: nat, u: nat | t < u < |order|
      ensures var x, y := raw[order[t]], raw[order[u]];
              x.byteLen > y.byteLen || (x.byteLen == y.byteLen && order[t] < order[u])
    {
      OneBefore(sizes, shardSize, order, t, u);
    }
    forall t: nat | t < |order|
      ensures Plan(sizes, count, shardSize)[order[t]].ownerRank == Bins(Picked(Lens(Plan(sizes, count, shardSize)), order), count)[t]
    {
      OwnerInOrder(sizes, count, shardSize, t);
    }
  }

  lemma OwnerInOrder(sizes: seq<nat>, count: nat, shardSize: nat, t: nat)
    requires count > 1 && t < |LptOrder(RawShards(sizes, shardSize))|
    ensures var plan, order := Plan(sizes, count, shardSize), LptOrder(RawShards(sizes, shardSize));
            order[t] < |plan| && plan[order[t]].ownerRank == Bins(Picked(Lens(plan), order), count)[t]
  {
    hide RawShards, LptOrder, Assigned, Bins, Sort, Picked, SizesIn, IndexLe;
    var raw := RawShards(sizes, shardSize);
    LptOrderIs(raw);
    PlanIs(sizes, count, shardSize);
    AssignedBins(raw, LptOrder(raw), count);
    SameLens(raw, Plan(sizes, count, shardSize), LptOrder(raw));
  }

  lemma SameLens(raw: seq<ShardSpec>, plan: seq<ShardSpec>, order: seq<nat>)
    requires |raw| == |plan| && (forall i | 0 <= i < |raw| :: plan[i].byteLen == raw[i].byteLen)
    requires forall t | 0 <= t < |order| :: order[t] < |raw|
    ensures SizesIn(raw, order) == Picked(Lens(plan), order)
  {
  }

  lemma OneBefore(sizes: seq<nat>, shardSize: nat, order: seq<nat>, t: nat, u: nat)
    requires var raw := RawShards(sizes, shardSize);
             && t < u < |order| && Sorted(order, IndexLe(raw)) && order[t] < |raw| && order[u] < |raw| && order[t] != order[u]
    ensures var x, y := RawShards(sizes, shardSize)[order[t]], RawShards(sizes, shardSize)[order[u]];
            x.byteLen > y.byteLen || (x.byteLen == y.byteLen && order[t] < order[u])
  {
    hide RawShards;
    assert IndexLe(RawShards(sizes, shardSize))(order[t], order[u]);
    if order[u] < order[t] {
      RawAscend(sizes, shardSize, order[u], order[t]);
    }
  }

  lemma {:induction false} Ascending(order: seq<nat>, t: nat)
    requires t < |order| && (forall u | 0 <= u < |order| :: order[u] < |order|)
    requires forall u, v | 0 <= u < v < |order| :: order[u] < order[v]
    ensures order[t] == t
  {
    AtLeast(order, t);
    AtMost(order, t);
  }

  lemma {:induction false} AtLeast(order: seq<nat>, t: nat)
    requires t < |order| && forall u, v | 0 <= u < v < |order| :: order[u] < order[v]
    ensures order[t] >= t
  {
    if t > 0 {
      AtLeast(order, t - 1);
    }
  }

  lemma {:induction false} AtMost(order: seq<nat>, t: nat)
    requires t < |order| && (forall u | 0 <= u < |order| :: order[u] < |order|)
    requires forall u, v | 0 <= u < v < |order| :: order[u] < order[v]
    ensures order[t] <= t
    decreases |order| - t
  {
    if t + 1 < |order| {
      AtMost(order, t + 1);
    }
  }

  /** When all shards are equally long they go to the ranks in turn, in the order of the plan. */
  lemma EqualShardsGoRound(sizes: seq<nat>, count: nat, shardSize: nat, len: nat, i: nat)
    requires count > 1 && len > 0 && i < |Plan(sizes, count, shardSize)| && Sum(sizes) <= U64_MAX
    requires forall j | 0 <= j < |Plan(sizes, count, shardSize)| :: Plan(sizes, count, shardSize)[j].byteLen == len
    ensures Plan(sizes, count, shardSize)[i].ownerRank == i % count
  {
    hide Plan, Bins, Sum;
    var plan := Plan(sizes, count, shardSize);
    var order := HandedOut(sizes, count, shardSize);
    Ascending(order, i);
    PlanTiles(sizes, count, shardSize);
    SumEqual(Lens(plan), len);
    EqualJobsGoRound(Picked(Lens(plan), order), count, len);
  }

  lemma {:induction false} SumEqual(q: seq<nat>, len: nat)
    requires forall i | 0 <= i < |q| :: q[i] == len
    ensures Sum(q) == |q| * len
  {
    if q != [] {
      SumEqual(q[..|q| - 1], len);
      assert |q| * len == (|q| - 1) * len + len;
    }
  }
}
