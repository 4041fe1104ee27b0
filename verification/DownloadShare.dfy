/** What each rank of a job is asked to download: how much, in which pieces, and by how many ranks. */
module DownloadShare {
  import opened Types
  import opened Arith
  import opened Counting
  import opened Lpt
  import opened Shards
  import opened ShardTiling
  import opened ShardLoads
  import opened ShardCuts
  import opened PresenceMatrix
  import opened Diff
  import opened PlanAssembly
  import opened PlanReady
  import opened PlanDisk

  // ---- bytes

  function ByteLens(ranges: seq<DownloadRange>): (r: seq<nat>)
    ensures |r| == |ranges| && forall i | 0 <= i < |r| :: r[i] == ranges[i].byteLen
  {
    seq(|ranges|, i requires 0 <= i < |ranges| => ranges[i].byteLen)
  }

  /** The ranges of the whole job. */
  function AllRanges(in_: Inputs, rel: string -> string): (r: seq<DownloadRange>)
    requires in_.Valid()
    ensures |r| == |in_.Downloads()|
    ensures forall i | 0 <= i < |r| :: r[i] == RangeOf(in_.DownloadEntries(), rel, in_.Downloads()[i])
  {
    seq(|in_.Downloads()|, i requires 0 <= i < |in_.Downloads()| => RangeOf(in_.DownloadEntries(), rel, in_.Downloads()[i]))
  }

  function RankRanges(in_: Inputs, rel: string -> string, r: nat): seq<DownloadRange>
    requires in_.Valid()
  {
    MyRanges(in_.DownloadEntries(), rel, in_.Downloads(), r)
  }

  /** What a rank is asked to download. */
  function RankBytes(in_: Inputs, rel: string -> string, r: nat): int
    requires in_.Valid()
  {
    Sum(ByteLens(RankRanges(in_, rel, r)))
  }

  lemma {:induction false} OwnedBytes(plan: seq<ShardSpec>, r: nat)
    ensures Sum(Lens(OwnedBy(plan, r))) == RankLoad(plan, r)
  {
    if plan != [] {
      var n := |plan| - 1;
      OwnedBytes(plan[..n], r);
      RankLoadLast(plan, r);
      var rest := OwnedBy(plan[..n], r);
      assert OwnedBy(plan, r) == if plan[n].ownerRank == r then rest + [plan[n]] else rest;
      hide OwnedBy, RankLoad;
      LensAppend(rest, [plan[n]]);
      SumAppend(Lens(rest), Lens([plan[n]]));
      SumOne(plan[n]);
    }
  }

  lemma SumOne(s: ShardSpec)
    ensures Sum(Lens([s])) == s.byteLen
  {
    assert Lens([s])[..0] == [];
  }

  lemma RankLoadLast(plan: seq<ShardSpec>, r: nat)
    requires plan != []
    ensures var last := plan[|plan| - 1];
            RankLoad(plan, r) == RankLoad(plan[..|plan| - 1], r) + if last.ownerRank == r then last.byteLen else 0
  {
    var n := |plan| - 1;
    assert Lens(plan)[..n] == Lens(plan[..n]) && Owners(plan)[..n] == Owners(plan[..n]);
  }

  lemma RankBytesIs(in_: Inputs, rel: string -> string, r: nat)
    requires in_.Valid()
    ensures RankBytes(in_, rel, r) == RankLoad(in_.Downloads(), r)
  {
    hide OwnedBy, RankLoad, Sum, SplitUpTo, Inputs.Downloads;
    OwnedBytes(in_.Downloads(), r);
    assert ByteLens(RankRanges(in_, rel, r)) == Lens(OwnedBy(in_.Downloads(), r));
  }

  lemma AllLens(in_: Inputs, rel: string -> string)
    requires in_.Valid()
    ensures ByteLens(AllRanges(in_, rel)) == Lens(in_.Downloads())
  {
    hide SplitUpTo, Inputs.Downloads;
  }

  /**
    When the bytes fit in 64 bits, no rank is asked for more than (4/3 - 1/(3k)) times what the busiest rank of any
    other distribution of the same ranges over the k download ranks would be asked for.
  */
  lemma ShareIsNearBest(in_: Inputs, rel: string -> string, best: seq<nat>, T: nat, r: nat)
    requires in_.Valid() && r < in_.k && Sum(Sizes(in_.DownloadEntries())) <= U64_MAX
    requires Fits(ByteLens(AllRanges(in_, rel)), best, in_.k, T)
    ensures 3 * in_.k * RankBytes(in_, rel, r) <= (4 * in_.k - 1) * T
  {
    hide Plan, RankLoad, Fits, RankBytes, Sum, SplitUpTo;
    RankBytesIs(in_, rel, r);
    AllLens(in_, rel);
    PlanIsNearBest(Sizes(in_.DownloadEntries()), in_.k, in_.shardSize, best, T, r);
  }

  /** And two download ranks are never further apart than the longest range. */
  lemma ShareSpread(in_: Inputs, rel: string -> string, longest: nat, r: nat, q: nat)
    requires in_.Valid() && r < in_.k && q < in_.k && Sum(Sizes(in_.DownloadEntries())) <= U64_MAX
    requires forall i | 0 <= i < |AllRanges(in_, rel)| :: AllRanges(in_, rel)[i].byteLen <= longest
    ensures RankBytes(in_, rel, r) - RankBytes(in_, rel, q) <= longest
  {
    hide Plan, RankLoad, RankBytes, Sum, SplitUpTo;
    RankBytesIs(in_, rel, r);
    RankBytesIs(in_, rel, q);
    forall i | 0 <= i < |in_.Downloads()|
      ensures in_.Downloads()[i].byteLen <= longest
    {
      assert AllRanges(in_, rel)[i].byteLen <= longest;
    }
    PlanSpread(Sizes(in_.DownloadEntries()), in_.k, in_.shardSize, longest, r, q);
  }

  // ---- ranks and pieces, by the arguments

  /** Which ranks download and how the files are cut follows from the arguments alone. */
  lemma LeadMeans(in_: Inputs, o: Options, chunk: nat)
    requires in_.Valid() && o.Valid(chunk) && chunk > 0 && o.Lead(in_, chunk)
    ensures in_.k == if o.downloadRanks.Some? then o.downloadRanks.value else in_.p.worldSize
    ensures o.shardSize > 0 ==> in_.shardSize == o.shardSize
    ensures o.shardSize == 0 && o.fileShards.None? ==> in_.shardSize == 0
  {
    hide SplitUpTo, DerivedShardSize;
  }

  /** With --shard-size no range is longer, and only a range that ends its file is shorter. */
  lemma RangesAreCut(in_: Inputs, o: Options, chunk: nat, rel: string -> string, r: nat, i: nat)
    requires in_.Valid() && o.Valid(chunk) && chunk > 0 && o.Lead(in_, chunk) && o.shardSize > 0
    requires i < |RankRanges(in_, rel, r)|
    ensures var range := RankRanges(in_, rel, r)[i];
            && range.byteLen <= o.shardSize && range.byteOffset % o.shardSize == 0
            && (range.byteLen < o.shardSize ==>
                  exists f :: f in in_.c.needsDownload && f < |in_.entries| && range.path == PathOf(in_.entries, rel, f)
                              && range.byteOffset + range.byteLen == in_.entries[f].Size())
  {
    hide Plan, SplitUpTo, OwnedBy, Nobody, Everyone, Presence.Has, InOrder, Options.Lead;
    LeadMeans(in_, o, chunk);
    var s := OwnedBy(in_.Downloads(), r)[i];
    OwnedIs(in_.Downloads(), r);
    var k :| 0 <= k < |in_.Downloads()| && in_.Downloads()[k] == s;
    ShardsAreCut(Sizes(in_.DownloadEntries()), in_.k, in_.shardSize, k);
    PlanTiles(Sizes(in_.DownloadEntries()), in_.k, in_.shardSize);
    InFile(in_.Downloads(), Sizes(in_.DownloadEntries()), k);
    MulMod(s.shardIdx, o.shardSize);
    assert in_.c.needsDownload[s.fileIdx] in in_.c.needsDownload;
  }

  /** Without either option a file is one range; with --file-shards, and no wrap-around, at most that many. */
  lemma FewRanges(in_: Inputs, o: Options, chunk: nat, j: nat)
    requires in_.Valid() && o.Valid(chunk) && chunk > 0 && o.Lead(in_, chunk) && o.shardSize == 0
    requires j < |in_.c.needsDownload|
    ensures var n := Count(in_.Downloads(), OfFile(j));
            var sizes := Sizes(in_.DownloadEntries());
            && (o.fileShards.None? ==> n == 1)
            && (o.fileShards.Some? && DerivedFits(sizes, o.fileShards.value, chunk) ==> 1 <= n <= o.fileShards.value)
  {
    hide Plan, SplitUpTo, Count, DerivedShardSize, DerivedFits;
    var sizes := Sizes(in_.DownloadEntries());
    ShardsOfFile(sizes, in_.k, in_.shardSize, j);
    if o.fileShards.Some? && DerivedFits(sizes, o.fileShards.value, chunk) {
      FewShards(sizes, in_.k, o.fileShards.value, chunk, j);
    }
  }

  /** With --file-shards, and no wrap-around, no range is longer than need be, at whole chunks, for that many to do. */
  lemma RangesAreDerived(in_: Inputs, o: Options, chunk: nat, rel: string -> string, r: nat, i: nat, pieces: nat)
    requires in_.Valid() && o.Valid(chunk) && chunk > 0 && o.Lead(in_, chunk) && o.shardSize == 0 && o.fileShards.Some?
    requires DerivedFits(Sizes(in_.DownloadEntries()), o.fileShards.value, chunk) && i < |RankRanges(in_, rel, r)|
    requires forall j | 0 <= j < |in_.c.needsDownload| :: in_.entries[in_.c.needsDownload[j]].Size() <= pieces * chunk * o.fileShards.value
    ensures RankRanges(in_, rel, r)[i].byteLen <= pieces * chunk
  {
    hide Plan, SplitUpTo, OwnedBy, Nobody, Everyone, Presence.Has, DerivedShardSize, DerivedFits;
    var sizes := Sizes(in_.DownloadEntries());
    DerivedIsLeast(sizes, o.fileShards.value, chunk, pieces);
    var s := OwnedBy(in_.Downloads(), r)[i];
    OwnedIs(in_.Downloads(), r);
    var k :| 0 <= k < |in_.Downloads()| && in_.Downloads()[k] == s;
    if in_.shardSize > 0 {
      ShardsAreCut(sizes, in_.k, in_.shardSize, k);
    } else {
      EmptyShard(sizes, o.fileShards.value, in_.k, k);
    }
  }

  /** A derived size of zero means that all files are empty. */
  lemma EmptyShard(sizes: seq<nat>, fileShards: nat, count: nat, k: nat)
    requires (forall i | 0 <= i < |sizes| :: sizes[i] <= 0 * fileShards) && k < |Plan(sizes, count, 0)|
    ensures Plan(sizes, count, 0)[k].byteLen == 0
  {
    hide Plan, InOrder;
    PlanTiles(sizes, count, 0);
    InFile(Plan(sizes, count, 0), sizes, k);
  }
}
