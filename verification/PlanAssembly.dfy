/** The plan every rank builds after the presence exchange: what to broadcast, what to download, what to pre-size. */
module PlanAssembly {
  import opened Types
  import opened Arith
  import opened Counting
  import opened Sorting
  import opened Shards
  import opened ShardTiling
  import opened PresenceMatrix
  import opened Diff

  datatype DownloadRange = DownloadRange(blobName: string, path: string, byteOffset: nat, byteLen: nat)

  /** --download-ranks; None is the fatal error. */
  function DownloadRankCount(asked: Option<nat>, total: nat): (k: Option<nat>)
    ensures k.None? <==> asked.Some? && !(0 < asked.value <= total)
    ensures k.Some? && total > 0 ==> 0 < k.value <= total
  {
    match asked
    case None => Some(total)
    case Some(k) => if k == 0 || k > total then None else Some(k)
  }

  /** --shard-size wins, then --file-shards over the downloaded files, else whole files. */
  function EffectiveShardSize(shardSize: nat, fileShards: Option<nat>, chunk: nat, downloadSizes: seq<nat>): nat
    requires fileShards.Some? ==> fileShards.value >= 1 && chunk > 0
  {
    if shardSize > 0 then shardSize
    else if fileShards.Some? then DerivedShardSize(downloadSizes, fileShards.value, chunk)
    else 0
  }

  // ---- the plan as functions of the listing and the split

  function Select<T>(q: seq<T>, at: seq<nat>): (r: seq<T>)
    requires forall i | 0 <= i < |at| :: at[i] < |q|
    ensures |r| == |at| && forall i | 0 <= i < |r| :: r[i] == q[at[i]]
  {
    seq(|at|, i requires 0 <= i < |at| => q[at[i]])
  }

  /** File numbers in the download list back to file numbers in the listing. */
  function Rekey(needs: seq<nat>, s: ShardSpec): ShardSpec {
    if s.fileIdx < |needs| then s.(fileIdx := needs[s.fileIdx]) else s
  }

  function RekeyAll(needs: seq<nat>, q: seq<ShardSpec>): (r: seq<ShardSpec>)
    ensures |r| == |q| && forall i | 0 <= i < |r| :: r[i] == Rekey(needs, q[i])
  {
    seq(|q|, i requires 0 <= i < |q| => Rekey(needs, q[i]))
  }

  /** A peer broadcasts the whole file as one shard. */
  function Whole(sizes: seq<nat>, peer: (nat, nat)): ShardSpec {
    ShardSpec(peer.0, 0, 0, if peer.0 < |sizes| then sizes[peer.0] else 0, peer.1)
  }

  function WholeAll(sizes: seq<nat>, peers: seq<(nat, nat)>): (r: seq<ShardSpec>)
    ensures |r| == |peers| && forall i | 0 <= i < |r| :: r[i] == Whole(sizes, peers[i])
  {
    seq(|peers|, i requires 0 <= i < |peers| => Whole(sizes, peers[i]))
  }

  function PlanLe(): (ShardSpec, ShardSpec) -> bool {
    (x: ShardSpec, y: ShardSpec) => x.fileIdx < y.fileIdx || (x.fileIdx == y.fileIdx && x.shardIdx <= y.shardIdx)
  }

  function Unsorted(sizes: seq<nat>, c: Classification, downloads: seq<ShardSpec>): seq<ShardSpec> {
    RekeyAll(c.needsDownload, downloads) + WholeAll(sizes, c.bcastOnly)
  }

  function BcastShards(sizes: seq<nat>, c: Classification, downloads: seq<ShardSpec>): seq<ShardSpec> {
    Sort(Unsorted(sizes, c, downloads), PlanLe())
  }

  function OwnedBy(q: seq<ShardSpec>, rank: nat): seq<ShardSpec> {
    if q == [] then []
    else
      var rest := OwnedBy(q[..|q| - 1], rank);
      if q[|q| - 1].ownerRank == rank then rest + [q[|q| - 1]] else rest
  }

  function RangeOf(entries: seq<Blob>, rel: string -> string, s: ShardSpec): DownloadRange {
    var name := if s.fileIdx < |entries| then entries[s.fileIdx].name else [];
    DownloadRange(name, rel(name), s.byteOffset, s.byteLen)
  }

  /** The ranges a rank downloads: those of the shards it owns. */
  function MyRanges(entries: seq<Blob>, rel: string -> string, downloads: seq<ShardSpec>, rank: nat): (r: seq<DownloadRange>)
    ensures |r| == |OwnedBy(downloads, rank)|
    ensures forall i | 0 <= i < |r| :: r[i] == RangeOf(entries, rel, OwnedBy(downloads, rank)[i])
  {
    var own := OwnedBy(downloads, rank);
    seq(|own|, i requires 0 <= i < |own| => RangeOf(entries, rel, own[i]))
  }

  // ---- the loops of main

  method BuildBcastShards(sizes: seq<nat>, c: Classification, downloads: seq<ShardSpec>) returns (plan: seq<ShardSpec>)
    requires forall i | 0 <= i < |downloads| :: downloads[i].fileIdx < |c.needsDownload|
    requires forall i | 0 <= i < |c.bcastOnly| :: c.bcastOnly[i].0 < |sizes|
    ensures plan == BcastShards(sizes, c, downloads)
  {
    plan := [];
    var i := 0;
    while i < |downloads|
      invariant 0 <= i <= |downloads| && plan == RekeyAll(c.needsDownload, downloads)[..i]
    {
      var s := downloads[i];
      plan := plan + [ShardSpec(c.needsDownload[s.fileIdx], s.shardIdx, s.byteOffset, s.byteLen, s.ownerRank)];
      i := i + 1;
    }
    assert plan == RekeyAll(c.needsDownload, downloads);
    i := 0;
    while i < |c.bcastOnly|
      invariant 0 <= i <= |c.bcastOnly|
      invariant plan == RekeyAll(c.needsDownload, downloads) + WholeAll(sizes, c.bcastOnly)[..i]
    {
      var peer := c.bcastOnly[i];
      plan := plan + [ShardSpec(peer.0, 0, 0, sizes[peer.0], peer.1)];
      i := i + 1;
    }
    assert WholeAll(sizes, c.bcastOnly)[..i] == WholeAll(sizes, c.bcastOnly);
    plan := Sort(plan, PlanLe());
  }

  method CollectRanges(entries: seq<Blob>, rel: string -> string, downloads: seq<ShardSpec>, rank: nat)
    returns (mine: seq<DownloadRange>)
    requires forall i | 0 <= i < |downloads| :: downloads[i].fileIdx < |entries|
    ensures mine == MyRanges(entries, rel, downloads, rank)
  {
    mine := [];
    var i := 0;
    while i < |downloads|
      invariant 0 <= i <= |downloads| && mine == MyRanges(entries, rel, downloads[..i], rank)
    {
      var s := downloads[i];
      assert downloads[..i + 1][..i] == downloads[..i];
      if s.ownerRank == rank {
        mine := mine + [DownloadRange(entries[s.fileIdx].name, rel(entries[s.fileIdx].name), s.byteOffset, s.byteLen)];
      }
      i := i + 1;
    }
    assert downloads[..i] == downloads;
  }

  /** The files this rank creates and sizes before anything is downloaded or received. */
  method FilesToCreate(p: Presence, plan: seq<ShardSpec>, rank: nat) returns (create: set<nat>)
    requires p.Valid() && rank < p.worldSize && forall i | 0 <= i < |plan| :: plan[i].fileIdx < p.numFiles
    ensures forall f :: f in create <==> (exists i | 0 <= i < |plan| :: plan[i].fileIdx == f) && !p.Has(rank, f)
  {
    hide Presence.Has;
    create := {};
    var i := 0;
    while i < |plan|
      invariant 0 <= i <= |plan|
      invariant forall f :: f in create <==> (exists j | 0 <= j < i :: plan[j].fileIdx == f) && !p.Has(rank, f)
    {
      if !p.Has(rank, plan[i].fileIdx) {
        create := create + {plan[i].fileIdx};
      }
      i := i + 1;
    }
  }

  // ---- what the plan covers

  lemma {:induction false} RekeyCount(needs: seq<nat>, q: seq<ShardSpec>, i: nat, p: nat)
    requires Increasing(needs) && i < |needs| && forall k | 0 <= k < |q| :: q[k].fileIdx < |needs|
    ensures Count(RekeyAll(needs, q), CoversByte(needs[i], p)) == Count(q, CoversByte(i, p))
  {
    if q != [] {
      var n := |q| - 1;
      RekeyCount(needs, q[..n], i, p);
      assert RekeyAll(needs, q)[..n] == RekeyAll(needs, q[..n]);
    }
  }

  lemma RekeyOther(needs: seq<nat>, q: seq<ShardSpec>, f: nat, p: nat)
    requires f !in needs && forall k | 0 <= k < |q| :: q[k].fileIdx < |needs|
    ensures Count(RekeyAll(needs, q), CoversByte(f, p)) == 0
  {
    CountZero(RekeyAll(needs, q), CoversByte(f, p));
  }

  lemma WholeCount(sizes: seq<nat>, peers: seq<(nat, nat)>, f: nat, p: nat)
    requires Increasing(Files(peers)) && forall k | 0 <= k < |peers| :: peers[k].0 < |sizes|
    ensures Count(WholeAll(sizes, peers), CoversByte(f, p))
            == if f in Files(peers) && f < |sizes| && p < sizes[f] then 1 else 0
  {
    var q := WholeAll(sizes, peers);
    if f in Files(peers) && f < |sizes| && p < sizes[f] {
      var k :| 0 <= k < |peers| && Files(peers)[k] == f;
      assert forall i | 0 <= i < |q| :: CoversByte(f, p)(q[i]) <==> i == k;
      CountOnly(q, CoversByte(f, p), k);
    } else {
      forall i | 0 <= i < |q|
        ensures !CoversByte(f, p)(q[i])
      {
        assert Files(peers)[i] == peers[i].0;
      }
      CountZero(q, CoversByte(f, p));
    }
  }

  lemma PlanSorted(sizes: seq<nat>, c: Classification, downloads: seq<ShardSpec>)
    ensures Sorted(BcastShards(sizes, c, downloads), PlanLe())
    ensures multiset(BcastShards(sizes, c, downloads)) == multiset(Unsorted(sizes, c, downloads))
  {
    hide Sort, Unsorted;
    assert TotalOrder(PlanLe());
    SortIs(Unsorted(sizes, c, downloads), PlanLe());
  }

  /** Everything the plan is built from, on one rank or another. */
  datatype Inputs = Inputs(entries: seq<Blob>, p: Presence, c: Classification, k: nat, shardSize: nat)
  {
    ghost predicate Valid() {
      && p.Valid() && 0 < k <= p.worldSize && p.numFiles == |entries|
      && (forall i | 0 <= i < |c.needsDownload| :: c.needsDownload[i] < |entries|)
      && SplitUpTo(p, c, p.numFiles)
    }

    function DownloadEntries(): seq<Blob>
      requires forall i | 0 <= i < |c.needsDownload| :: c.needsDownload[i] < |entries|
    {
      Select(entries, c.needsDownload)
    }

    function Downloads(): seq<ShardSpec>
      requires forall i | 0 <= i < |c.needsDownload| :: c.needsDownload[i] < |entries|
    {
      Plan(Sizes(DownloadEntries()), k, shardSize)
    }

    function Bcast(): seq<ShardSpec>
      requires forall i | 0 <= i < |c.needsDownload| :: c.needsDownload[i] < |entries|
    {
      BcastShards(Sizes(entries), c, Downloads())
    }
  }

  lemma DownloadsInside(in_: Inputs)
    requires in_.Valid()
    ensures forall i | 0 <= i < |in_.Downloads()| :: in_.Downloads()[i].fileIdx < |in_.c.needsDownload|
    ensures forall i | 0 <= i < |in_.Downloads()| :: in_.Downloads()[i].ownerRank < in_.k
  {
    hide SplitUpTo, Nobody, Plan;
    PlanTiles(Sizes(in_.DownloadEntries()), in_.k, in_.shardSize);
    forall i | 0 <= i < |in_.Downloads()|
      ensures in_.Downloads()[i].fileIdx < |in_.c.needsDownload|
    {
      assert StepOk(in_.Downloads(), Sizes(in_.DownloadEntries()), i);
    }
  }

  /**
    The sorted broadcast plan covers every byte of every file some rank lacks exactly once, and nothing of the
    files everybody has.
  */
  lemma BcastCovers(in_: Inputs, f: nat, p: nat)
    requires in_.Valid()
    ensures Count(in_.Bcast(), CoversByte(f, p))
            == if f < |in_.entries| && Lacking(in_.p, f) && p < in_.entries[f].Size() then 1 else 0
  {
    var c, sizes := in_.c, Sizes(in_.entries);
    var q := in_.Downloads();
    hide Plan, Sort, Count, Nobody, Everyone, Presence.Has;
    DownloadsInside(in_);
    PlanSorted(sizes, c, q);
    CountPermuted(in_.Bcast(), Unsorted(sizes, c, q), CoversByte(f, p));
    CountAppend(RekeyAll(c.needsDownload, q), WholeAll(sizes, c.bcastOnly), CoversByte(f, p));
    WholeCount(sizes, c.bcastOnly, f, p);
    SplitTells(in_.p, c, f);
    if f in c.needsDownload {
      var i :| 0 <= i < |c.needsDownload| && c.needsDownload[i] == f;
      RekeyCount(c.needsDownload, q, i, p);
      PlanTiles(Sizes(in_.DownloadEntries()), in_.k, in_.shardSize);
    } else {
      RekeyOther(c.needsDownload, q, f, p);
    }
  }

  /** Where the split puts a file. */
  lemma SplitTells(p: Presence, c: Classification, f: nat)
    requires p.Valid() && p.worldSize > 0 && SplitUpTo(p, c, p.numFiles)
    ensures f in c.needsDownload <==> f < p.numFiles && Nobody(p, f)
    ensures f in Files(c.bcastOnly) <==> f < p.numFiles && Lacking(p, f) && !Nobody(p, f)
    ensures f in c.needsDownload ==> Lacking(p, f)
  {
    hide Presence.Has, Nobody, Everyone;
    if f in Files(c.bcastOnly) {
      HeldNotNobody(p, c, f);
    }
    if f in c.needsDownload {
      NotBoth(p, f);
    }
  }

  // ---- what the ranks download

  function CoversBlob(name: string, p: nat): DownloadRange -> bool {
    (r: DownloadRange) => r.blobName == name && r.byteOffset <= p < r.byteOffset + r.byteLen
  }

  predicate DistinctNames(entries: seq<Blob>) {
    forall i, j | 0 <= i < j < |entries| :: entries[i].name != entries[j].name
  }

  lemma {:induction false} RangeCount(entries: seq<Blob>, rel: string -> string, own: seq<ShardSpec>, f: nat, p: nat, r: seq<DownloadRange>)
    requires DistinctNames(entries) && f < |entries| && forall i | 0 <= i < |own| :: own[i].fileIdx < |entries|
    requires |r| == |own| && forall i | 0 <= i < |r| :: r[i] == RangeOf(entries, rel, own[i])
    ensures Count(r, CoversBlob(entries[f].name, p)) == Count(own, CoversByte(f, p))
  {
    if own != [] {
      var n := |own| - 1;
      RangeCount(entries, rel, own[..n], f, p, r[..n]);
    }
  }

  /** How many ranges of each rank hold byte `p` of file `f`. */
  function PerRank(q: seq<ShardSpec>, k: nat, f: nat, p: nat): (r: seq<int>)
    ensures |r| == k && forall i | 0 <= i < k :: r[i] == Count(OwnedBy(q, i), CoversByte(f, p))
  {
    seq(k, i requires 0 <= i => Count(OwnedBy(q, i), CoversByte(f, p)))
  }

  lemma {:induction false} OwnersShare(q: seq<ShardSpec>, k: nat, f: nat, p: nat)
    requires forall i | 0 <= i < |q| :: q[i].ownerRank < k
    ensures Sum(PerRank(q, k, f, p)) == Count(q, CoversByte(f, p))
  {
    if q == [] {
      SumZero(PerRank(q, k, f, p));
    } else {
      var n := |q| - 1;
      OwnersShare(q[..n], k, f, p);
      var before := PerRank(q[..n], k, f, p);
      var o := q[n].ownerRank;
      var hit := if CoversByte(f, p)(q[n]) then 1 else 0;
      CountAppend(OwnedBy(q[..n], o), [q[n]], CoversByte(f, p));
      assert [q[n]][..0] == [];
      assert PerRank(q, k, f, p) == before[o := before[o] + hit];
      SumUpdate(before, o, before[o] + hit);
    }
  }

  lemma {:induction false} OwnedIs(q: seq<ShardSpec>, rank: nat)
    ensures forall i | 0 <= i < |OwnedBy(q, rank)| :: OwnedBy(q, rank)[i] in q && OwnedBy(q, rank)[i].ownerRank == rank
    ensures forall i | 0 <= i < |q| && q[i].ownerRank == rank :: q[i] in OwnedBy(q, rank)
  {
    if q != [] {
      var n := |q| - 1;
      OwnedIs(q[..n], rank);
      assert q == q[..n] + [q[n]];
    }
  }

  /** They stand in the plan's order. */
  lemma {:induction false} OwnedInOrder(q: seq<ShardSpec>, rank: nat, i: nat, j: nat) returns (a: nat, b: nat)
    requires i < j < |OwnedBy(q, rank)|
    ensures a < b < |q| && q[a] == OwnedBy(q, rank)[i] && q[b] == OwnedBy(q, rank)[j]
  {
    var n := |q| - 1;
    var before := OwnedBy(q[..n], rank);
    if j < |before| {
      a, b := OwnedInOrder(q[..n], rank, i, j);
    } else {
      OwnedIs(q[..n], rank);
      assert before[i] in q[..n];
      a :| 0 <= a < n && q[..n][a] == before[i];
      b := n;
    }
  }

  /** The counts of the ranks' range lists that hold byte `p` of a blob. */
  function RangeHits(in_: Inputs, rel: string -> string, name: string, p: nat): (r: seq<int>)
    requires forall i | 0 <= i < |in_.c.needsDownload| :: in_.c.needsDownload[i] < |in_.entries|
    ensures |r| == in_.p.worldSize
    ensures forall q | 0 <= q < |r| ::
              r[q] == Count(MyRanges(in_.DownloadEntries(), rel, in_.Downloads(), q), CoversBlob(name, p))
  {
    seq(in_.p.worldSize, q requires 0 <= q =>
          Count(MyRanges(in_.DownloadEntries(), rel, in_.Downloads(), q), CoversBlob(name, p)))
  }

  lemma DownloadNames(in_: Inputs)
    requires in_.Valid() && DistinctNames(in_.entries)
    ensures DistinctNames(in_.DownloadEntries())
  {
    hide SplitUpTo, Nobody;
    assert Increasing(in_.c.needsDownload) by { SplitParts(in_); }
  }

  lemma SplitParts(in_: Inputs)
    requires in_.Valid()
    ensures Increasing(in_.c.needsDownload) && Increasing(Files(in_.c.bcastOnly))
  {
    hide Nobody, Everyone, Presence.Has;
  }

  /**
    Together the ranks download each byte of each file nobody has exactly once, nothing of any other file, and only
    the first `k` ranks download at all.
  */
  lemma RangesCover(in_: Inputs, rel: string -> string, f: nat, p: nat)
    requires in_.Valid() && DistinctNames(in_.entries) && f < |in_.entries|
    ensures Sum(RangeHits(in_, rel, in_.entries[f].name, p))
            == if Nobody(in_.p, f) && p < in_.entries[f].Size() then 1 else 0
    ensures forall r: nat | in_.k <= r :: MyRanges(in_.DownloadEntries(), rel, in_.Downloads(), r) == []
  {
    hide Plan, Count, Sum, Nobody, Everyone, Presence.Has, SplitUpTo;
    var c, q := in_.c, in_.Downloads();
    var name := in_.entries[f].name;
    DownloadsInside(in_);
    DownloadNames(in_);
    forall r: nat
      ensures in_.k <= r ==> MyRanges(in_.DownloadEntries(), rel, q, r) == []
    {
      OwnedIs(q, r);
      assert OwnedBy(q, r) == [] || OwnedBy(q, r)[0] in q;
    }
    SplitTells(in_.p, c, f);
    if f in c.needsDownload {
      var i :| 0 <= i < |c.needsDownload| && c.needsDownload[i] == f;
      forall r | 0 <= r < in_.p.worldSize
        ensures RangeHits(in_, rel, name, p)[r] == PerRank(q, in_.p.worldSize, i, p)[r]
      {
        OwnedIs(q, r);
        RangeCount(in_.DownloadEntries(), rel, OwnedBy(q, r), i, p, MyRanges(in_.DownloadEntries(), rel, q, r));
      }
      assert RangeHits(in_, rel, name, p) == PerRank(q, in_.p.worldSize, i, p);
      OwnersShare(q, in_.p.worldSize, i, p);
      PlanTiles(Sizes(in_.DownloadEntries()), in_.k, in_.shardSize);
    } else {
      forall r | 0 <= r < in_.p.worldSize
        ensures RangeHits(in_, rel, name, p)[r] == 0
      {
        OwnedIs(q, r);
        NotMine(in_, rel, f, p, r);
      }
      SumZero(RangeHits(in_, rel, name, p));
    }
  }

  lemma NotMine(in_: Inputs, rel: string -> string, f: nat, p: nat, r: nat)
    requires in_.Valid() && DistinctNames(in_.entries) && f < |in_.entries| && f !in in_.c.needsDownload
    ensures Count(MyRanges(in_.DownloadEntries(), rel, in_.Downloads(), r), CoversBlob(in_.entries[f].name, p)) == 0
  {
    hide Plan, Count, SplitUpTo, Nobody;
    var mine := MyRanges(in_.DownloadEntries(), rel, in_.Downloads(), r);
    DownloadsInside(in_);
    OwnedIs(in_.Downloads(), r);
    forall i | 0 <= i < |mine|
      ensures !CoversBlob(in_.entries[f].name, p)(mine[i])
    {
      var s := OwnedBy(in_.Downloads(), r)[i];
      var g := in_.c.needsDownload[s.fileIdx];
      assert g in in_.c.needsDownload;
      assert mine[i].blobName == in_.entries[g].name;
    }
    CountZero(mine, CoversBlob(in_.entries[f].name, p));
  }
}
