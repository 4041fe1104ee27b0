/** The range-shard plan: every file cut into byte ranges, each range given to one rank. */
module Shards {
  import opened Types
  import opened Arith
  import opened Counting
  import opened Sorting
  import opened Lpt

  // ---- cutting

  function ShardsPerFile(size: nat, shardSize: nat): (n: nat)
    ensures n >= 1
  {
    if shardSize == 0 || size <= shardSize then 1 else DivCeil(size, shardSize)
  }

  /** Shard `i` of a file, not yet assigned. */
  function Cut(file: nat, size: nat, shardSize: nat, i: nat): ShardSpec {
    ShardSpec(file, i, i * shardSize, if shardSize == 0 then size else Min(Max(0, size - i * shardSize), shardSize), 0)
  }

  function FileShards(file: nat, size: nat, shardSize: nat): (r: seq<ShardSpec>)
    ensures |r| == ShardsPerFile(size, shardSize)
    ensures forall i | 0 <= i < |r| :: r[i] == Cut(file, size, shardSize, i)
  {
    seq(ShardsPerFile(size, shardSize), i requires 0 <= i => Cut(file, size, shardSize, i))
  }

  function RawShards(sizes: seq<nat>, shardSize: nat): seq<ShardSpec> {
    if sizes == [] then []
    else RawShards(sizes[..|sizes| - 1], shardSize) + FileShards(|sizes| - 1, sizes[|sizes| - 1], shardSize)
  }

  // ---- assigning

  function At(shards: seq<ShardSpec>, i: nat): ShardSpec {
    if i < |shards| then shards[i] else ShardSpec(0, 0, 0, 0, 0)
  }

  /** Larger shards first; equal ones by file, then by position in the file. */
  predicate KeyLe(x: ShardSpec, y: ShardSpec) {
    || x.byteLen > y.byteLen
    || (x.byteLen == y.byteLen
        && (x.fileIdx < y.fileIdx || (x.fileIdx == y.fileIdx && x.shardIdx <= y.shardIdx)))
  }

  function IndexLe(shards: seq<ShardSpec>): (nat, nat) -> bool {
    (a: nat, b: nat) => KeyLe(At(shards, a), At(shards, b))
  }

  function LptOrder(shards: seq<ShardSpec>): seq<nat> {
    Sort(Upto(|shards|), IndexLe(shards))
  }

  function SizesIn(shards: seq<ShardSpec>, order: seq<nat>): (r: seq<nat>)
    ensures |r| == |order| && forall t | 0 <= t < |r| :: r[t] == At(shards, order[t]).byteLen
  {
    seq(|order|, t requires 0 <= t < |order| => At(shards, order[t]).byteLen)
  }

  /** The owners after the shards in `order` have been placed. */
  function Assigned(shards: seq<ShardSpec>, order: seq<nat>, m: nat): (r: seq<ShardSpec>)
    requires m > 0
    ensures |r| == |shards|
  {
    if order == [] then shards
    else
      var n := |order| - 1;
      var s := Assigned(shards, order[..n], m);
      if order[n] >= |s| then s
      else s[order[n] := s[order[n]].(ownerRank := LeastLoaded(Loads(SizesIn(shards, order[..n]), m)))]
  }

  function Plan(sizes: seq<nat>, count: nat, shardSize: nat): seq<ShardSpec> {
    var raw := RawShards(sizes, shardSize);
    if count <= 1 then raw else Assigned(raw, LptOrder(raw), count)
  }

  // ---- the loops

  /** One file's shards, pushed one by one; no offset leaves 64 bits. */
  method PushFile(shards: seq<ShardSpec>, file: nat, size: nat, shardSize: nat) returns (r: seq<ShardSpec>)
    requires size < TWO64
    ensures r == shards + FileShards(file, size, shardSize)
  {
    var n := ShardsPerFile(size, shardSize);
    r := shards;
    var i := 0;
    while i < n
      invariant 0 <= i <= n && r == shards + FileShards(file, size, shardSize)[..i]
    {
      OffsetInside(size, shardSize, i);
      var byteOffset := i * shardSize;
      assert byteOffset < TWO64;
      var byteLen := if shardSize == 0 then size else Min(Max(0, size - byteOffset), shardSize);
      r := r + [ShardSpec(file, i, byteOffset, byteLen, 0)];
      i := i + 1;
    }
  }

  /** compute_shards */
  method ComputeShards(entries: seq<Blob>, count: nat, shardSize: nat) returns (shards: seq<ShardSpec>)
    requires forall i | 0 <= i < |entries| :: entries[i].Size() < TWO64
    ensures shards == Plan(Sizes(entries), count, shardSize)
  {
    shards := [];
    var sizes := Sizes(entries);
    var f := 0;
    while f < |entries|
      invariant 0 <= f <= |entries| && shards == RawShards(sizes[..f], shardSize)
    {
      shards := PushFile(shards, f, entries[f].Size(), shardSize);
      assert sizes[..f + 1][..f] == sizes[..f];
      f := f + 1;
    }
    assert sizes[..f] == sizes;
    if count > 1 {
      shards := AssignOwners(shards, count);
    }
  }

  /** The packing loop: `loads` holds the bins so far, the owners are set in place. */
  method AssignOwners(raw: seq<ShardSpec>, count: nat) returns (shards: seq<ShardSpec>)
    requires count > 1
    ensures shards == Assigned(raw, LptOrder(raw), count)
  {
    hide Loads, LptOrder, LeastLoaded, Sorted;
    shards := raw;
    var order := LptOrder(raw);
    LptOrderIs(raw);
    var loads := new nat[count](_ => 0);
    var t := 0;
    NothingPlaced(raw, order, count);
    assert loads[..] == Loads(SizesIn(raw, order[..0]), count);
    while t < |order|
      invariant 0 <= t <= |order| && |shards| == |raw|
      invariant shards == Assigned(raw, order[..t], count)
      invariant loads[..] == Loads(SizesIn(raw, order[..t]), count)
    {
      var i := order[t];
      var bin := LeastLoaded(loads[..]);
      AssignedNext(raw, order, count, t);
      loads[bin] := SatAdd(loads[bin], shards[i].byteLen);
      shards := shards[i := shards[i].(ownerRank := bin)];
      t := t + 1;
    }
    assert order[..t] == order;
  }

  lemma NothingPlaced(raw: seq<ShardSpec>, order: seq<nat>, m: nat)
    requires m > 0
    ensures Loads(SizesIn(raw, order[..0]), m) == seq(m, _ => 0)
  {
  }

  lemma OffsetInside(size: nat, shardSize: nat, i: nat)
    requires i < ShardsPerFile(size, shardSize)
    ensures i * shardSize <= size
    ensures shardSize > 0 && size > 0 ==> i * shardSize < size
  {
    if shardSize > 0 && size > shardSize {
      DivCeilIs(size, shardSize);
      Products(i, DivCeil(size, shardSize) - 1, shardSize);
    }
  }

  lemma LptOrderIs(shards: seq<ShardSpec>)
    ensures var order := LptOrder(shards);
            && multiset(order) == multiset(Upto(|shards|)) && |order| == |shards|
            && Sorted(order, IndexLe(shards))
            && (forall t | 0 <= t < |order| :: order[t] < |shards|)
            && (forall i: nat | i < |shards| :: i in order)
            && (forall t, u | 0 <= t < u < |order| :: order[t] != order[u])
  {
    hide Sort, Sorted;
    assert TotalOrder(IndexLe(shards));
    SortIs(Upto(|shards|), IndexLe(shards));
    PermutationHits(LptOrder(shards), |shards|);
  }

  /** The next shard in the order still has its own length, whoever owns the earlier ones. */
  lemma AssignedNext(shards: seq<ShardSpec>, order: seq<nat>, m: nat, t: nat)
    requires m > 0 && t < |order| && order[t] < |shards|
    ensures var now := Assigned(shards, order[..t], m);
            var loads := Loads(SizesIn(shards, order[..t]), m);
            var bin := LeastLoaded(loads);
            && now[order[t]].byteLen == shards[order[t]].byteLen
            && Assigned(shards, order[..t + 1], m) == now[order[t] := now[order[t]].(ownerRank := bin)]
            && Loads(SizesIn(shards, order[..t + 1]), m) == loads[bin := SatAdd(loads[bin], shards[order[t]].byteLen)]
  {
    assert order[..t + 1][..t] == order[..t];
    AssignedOwners(shards, order[..t], m);
    assert SizesIn(shards, order[..t + 1])[..t] == SizesIn(shards, order[..t]);
  }

  /** Assignment changes nothing but the owner. */
  lemma {:induction false} AssignedOwners(shards: seq<ShardSpec>, order: seq<nat>, m: nat)
    requires m > 0
    ensures forall i | 0 <= i < |shards| ::
              Assigned(shards, order, m)[i] == shards[i].(ownerRank := Assigned(shards, order, m)[i].ownerRank)
  {
    if order != [] {
      AssignedOwners(shards, order[..|order| - 1], m);
    }
  }

  /** The owner of the t-th shard in the order is the bin of the t-th job. */
  lemma {:induction false} AssignedBins(shards: seq<ShardSpec>, order: seq<nat>, m: nat)
    requires m > 0
    requires forall t | 0 <= t < |order| :: order[t] < |shards|
    requires forall t, u | 0 <= t < u < |order| :: order[t] != order[u]
    ensures forall t | 0 <= t < |order| ::
              Assigned(shards, order, m)[order[t]].ownerRank == Bins(SizesIn(shards, order), m)[t]
    ensures forall i | 0 <= i < |shards| && i !in order :: Assigned(shards, order, m)[i] == shards[i]
  {
    if order != [] {
      var n := |order| - 1;
      var before := order[..n];
      AssignedBins(shards, before, m);
      forall t | 0 <= t < |order|
        ensures Assigned(shards, order, m)[order[t]].ownerRank == Bins(SizesIn(shards, order), m)[t]
      {
        AssignedBin(shards, order, m, t);
      }
      forall i | 0 <= i < |shards| && i !in order
        ensures Assigned(shards, order, m)[i] == shards[i]
      {
        assert i !in before;
      }
    }
  }

  lemma AssignedBin(shards: seq<ShardSpec>, order: seq<nat>, m: nat, t: nat)
    requires m > 0 && t < |order|
    requires forall u | 0 <= u < |order| :: order[u] < |shards|
    requires forall u, v | 0 <= u < v < |order| :: order[u] != order[v]
    requires forall u | 0 <= u < |order| - 1 ::
               Assigned(shards, order[..|order| - 1], m)[order[u]].ownerRank == Bins(SizesIn(shards, order[..|order| - 1]), m)[u]
    ensures Assigned(shards, order, m)[order[t]].ownerRank == Bins(SizesIn(shards, order), m)[t]
  {
    hide Loads, LeastLoaded;
    var n := |order| - 1;
    assert SizesIn(shards, order)[..n] == SizesIn(shards, order[..n]);
    AssignedOwners(shards, order[..n], m);
  }
}
