/** From the listing to the broadcast stage: pre-sizing, downloads, and what every rank holds at the end. */
module PlanReady {
  import opened Types
  import opened Arith
  import opened Counting
  import opened Sorting
  import opened Shards
  import opened ShardTiling
  import opened PresenceMatrix
  import opened Diff
  import opened PlanAssembly
  import opened PipelineModel
  import opened PipelineInv
  import opened PipelineComplete
  import opened PipelineWorld
  import opened PipelineSafety
  import opened PipelineTheorems
  import opened Rounding

  // ---- members of the plan

  /** A shard of the plan is a re-keyed download shard or a peer's whole file. */
  lemma PlanMember(in_: Inputs, i: nat)
    requires in_.Valid() && i < |in_.Bcast()|
    ensures in_.Bcast()[i] in Unsorted(Sizes(in_.entries), in_.c, in_.Downloads())
  {
    hide Plan, Sort, Unsorted, SplitUpTo, Nobody;
    PlanSorted(Sizes(in_.entries), in_.c, in_.Downloads());
    SameMembers(in_.Bcast(), Unsorted(Sizes(in_.entries), in_.c, in_.Downloads()));
  }

  /** The broadcast plan goes file by file, and within a file from its first shard on. */
  lemma BcastInOrder(in_: Inputs, i: nat, j: nat)
    requires in_.Valid() && i < j < |in_.Bcast()|
    ensures var x, y := in_.Bcast()[i], in_.Bcast()[j];
            x.fileIdx < y.fileIdx || (x.fileIdx == y.fileIdx && x.shardIdx <= y.shardIdx)
  {
    hide Plan, Sort, Unsorted, SplitUpTo, Nobody;
    PlanSorted(Sizes(in_.entries), in_.c, in_.Downloads());
    assert PlanLe()(in_.Bcast()[i], in_.Bcast()[j]);
  }

  lemma PlanHolds(in_: Inputs, s: ShardSpec)
    requires in_.Valid() && s in Unsorted(Sizes(in_.entries), in_.c, in_.Downloads())
    ensures exists i :: 0 <= i < |in_.Bcast()| && in_.Bcast()[i] == s
  {
    hide Plan, Sort, Unsorted, SplitUpTo, Nobody;
    PlanSorted(Sizes(in_.entries), in_.c, in_.Downloads());
    SameMembers(Unsorted(Sizes(in_.entries), in_.c, in_.Downloads()), in_.Bcast());
  }

  /** The two kinds of shard. */
  ghost predicate FromDownload(in_: Inputs, s: ShardSpec, i: nat)
    requires in_.Valid()
  {
    i < |in_.Downloads()| && in_.Downloads()[i].fileIdx < |in_.c.needsDownload|
    && s == Rekey(in_.c.needsDownload, in_.Downloads()[i])
  }

  predicate FromPeer(in_: Inputs, s: ShardSpec, i: nat) {
    i < |in_.c.bcastOnly| && s == Whole(Sizes(in_.entries), in_.c.bcastOnly[i])
  }

  lemma MemberKind(in_: Inputs, s: ShardSpec) returns (download: bool, i: nat)
    requires in_.Valid() && s in Unsorted(Sizes(in_.entries), in_.c, in_.Downloads())
    ensures if download then FromDownload(in_, s, i) else FromPeer(in_, s, i)
  {
    hide Plan, SplitUpTo, Nobody;
    DownloadsInside(in_);
    var u := Unsorted(Sizes(in_.entries), in_.c, in_.Downloads());
    var k :| 0 <= k < |u| && u[k] == s;
    var n := |in_.Downloads()|;
    download := k < n;
    i := if k < n then k else k - n;
  }

  lemma DownloadShard(in_: Inputs, s: ShardSpec, i: nat, unit: nat)
    requires in_.Valid() && FromDownload(in_, s, i) && unit > 0 && in_.shardSize % unit == 0
    ensures s.fileIdx < |in_.entries| && Nobody(in_.p, s.fileIdx) && s.ownerRank < in_.k
    ensures CutOk(s, Sizes(in_.entries), unit)
  {
    hide Plan, Presence.Has, InOrder;
    var d := Sizes(in_.DownloadEntries());
    DownloadsInside(in_);
    CutsWhole(d, in_.k, in_.shardSize, unit, i);
    PlanTiles(d, in_.k, in_.shardSize);
    InFile(in_.Downloads(), d, i);
  }

  lemma InFile(plan: seq<ShardSpec>, sizes: seq<nat>, i: nat)
    requires InOrder(plan, sizes) && i < |plan|
    ensures plan[i].fileIdx < |sizes| && plan[i].byteOffset + plan[i].byteLen <= sizes[plan[i].fileIdx]
  {
    assert StepOk(plan, sizes, i);
  }

  lemma PeerShard(in_: Inputs, s: ShardSpec, i: nat, unit: nat)
    requires in_.Valid() && FromPeer(in_, s, i) && unit > 0
    ensures s.fileIdx < |in_.entries| && Lacking(in_.p, s.fileIdx)
    ensures s.ownerRank < in_.p.worldSize && in_.p.Has(s.ownerRank, s.fileIdx)
    ensures CutOk(s, Sizes(in_.entries), unit)
  {
    hide Bit;
    assert FirstHolder(in_.p, in_.c.bcastOnly[i].0, in_.c.bcastOnly[i].1);
  }

  /** Every shard's owner is a rank that will hold the shard's bytes: it has the file, or it downloads that shard. */
  lemma OwnerWillHold(in_: Inputs, rel: string -> string, i: nat)
    requires in_.Valid() && i < |in_.Bcast()|
    ensures var s := in_.Bcast()[i];
            && s.ownerRank < in_.p.worldSize && s.fileIdx < |in_.entries|
            && (in_.p.Has(s.ownerRank, s.fileIdx)
                || (Nobody(in_.p, s.fileIdx) && s.ownerRank < in_.k
                    && RangeOf(in_.entries, rel, s) in MyRanges(in_.DownloadEntries(), rel, in_.Downloads(), s.ownerRank)))
  {
    hide Plan, Sort, Unsorted, SplitUpTo, Nobody, Presence.Has, Lacking, OwnedBy;
    var s := in_.Bcast()[i];
    PlanMember(in_, i);
    var download, j := MemberKind(in_, s);
    if download {
      DownloadShard(in_, s, j, 1);
      OwnsRange(in_, rel, s, j);
    } else {
      PeerShard(in_, s, j, 1);
    }
  }

  lemma OwnsRange(in_: Inputs, rel: string -> string, s: ShardSpec, i: nat)
    requires in_.Valid() && FromDownload(in_, s, i) && s.fileIdx < |in_.entries|
    ensures RangeOf(in_.entries, rel, s) in MyRanges(in_.DownloadEntries(), rel, in_.Downloads(), s.ownerRank)
  {
    hide Plan, SplitUpTo, Nobody;
    var d := in_.Downloads()[i];
    OwnedIs(in_.Downloads(), s.ownerRank);
    var own := OwnedBy(in_.Downloads(), s.ownerRank);
    assert d in own;
    var k :| 0 <= k < |own| && own[k] == d;
    assert MyRanges(in_.DownloadEntries(), rel, in_.Downloads(), s.ownerRank)[k] == RangeOf(in_.DownloadEntries(), rel, d);
  }

  // ---- the stage's configuration

  datatype Tuning = Tuning(chunk: nat, depth: nat, writers: nat, direct: bool)
  {
    /** What the argument checks leave. */
    predicate Valid() {
      chunk > 0 && depth > 0 && writers > 0 && (direct ==> chunk % ALIGN == 0)
    }
  }

  /** The arguments that shape the plan. */
  datatype Options = Options(shardSize: nat, fileShards: Option<nat>, downloadRanks: Option<nat>)
  {
    /** Args::validate, as far as it concerns these. */
    predicate Valid(chunk: nat) {
      && (shardSize > 0 ==> fileShards.None? && chunk > 0 && shardSize % chunk == 0)
      && (fileShards.Some? ==> fileShards.value >= 1)
    }

    /** main goes on with these inputs: the rank count is accepted and the shard size is the one in effect. */
    predicate Lead(in_: Inputs, chunk: nat)
      requires Valid(chunk) && chunk > 0
      requires forall i | 0 <= i < |in_.c.needsDownload| :: in_.c.needsDownload[i] < |in_.entries|
    {
      && DownloadRankCount(downloadRanks, in_.p.worldSize) == Some(in_.k)
      && in_.shardSize == EffectiveShardSize(shardSize, fileShards, chunk, Sizes(in_.DownloadEntries()))
    }
  }

  /**
    After validation the shard size in effect is a whole number of chunks, except when the size derived from
    --file-shards wraps around 64 bits at a chunk that does not divide 2^64.
  */
  lemma EffectiveSizeWhole(o: Options, chunk: nat, sizes: seq<nat>)
    requires o.Valid(chunk) && 0 < chunk < TWO64 && MaxSize(sizes) < TWO64
    ensures EffectiveShardSize(o.shardSize, o.fileShards, chunk, sizes) % chunk == 0
            <==> o.fileShards.None? || DerivedFits(sizes, o.fileShards.value, chunk) || TWO64 % chunk == 0
  {
    if o.fileShards.Some? {
      DerivedQualifies(sizes, o.fileShards.value, chunk);
    }
  }

  /** Wrapped or not, it keeps to the boundary the stage needs, for every accepted set of arguments. */
  lemma EffectiveSizeAligned(o: Options, t: Tuning, sizes: seq<nat>)
    requires t.Valid() && o.Valid(t.chunk)
    ensures EffectiveShardSize(o.shardSize, o.fileShards, t.chunk, sizes) % Unit(t) == 0
  {
    if t.direct {
      if o.shardSize > 0 {
        Factor(o.shardSize, t.chunk);
        MultipleOf(o.shardSize / t.chunk, t.chunk, ALIGN);
      } else if o.fileShards.Some? {
        DerivedAligned(sizes, o.fileShards.value, t.chunk);
      }
    }
  }

  function HaveSet(p: Presence): set<(nat, nat)>
    requires p.Valid()
  {
    set r, f | 0 <= r < p.worldSize && 0 <= f < p.numFiles && p.Has(r, f) :: (r, f)
  }

  function Stage(in_: Inputs, t: Tuning): Config
    requires in_.p.Valid() && forall i | 0 <= i < |in_.c.needsDownload| :: in_.c.needsDownload[i] < |in_.entries|
  {
    Config(in_.p.worldSize, in_.Bcast(), t.chunk, t.depth, t.writers, t.direct, Sizes(in_.entries), HaveSet(in_.p))
  }

  lemma HaveIs(p: Presence, r: nat, f: nat)
    requires p.Valid() && r < p.worldSize && f < p.numFiles
    ensures (r, f) in HaveSet(p) <==> p.Has(r, f)
  {
    hide Presence.Has;
  }

  lemma ShardFits(in_: Inputs, unit: nat, i: nat)
    requires in_.Valid() && unit > 0 && in_.shardSize % unit == 0 && i < |in_.Bcast()|
    ensures CutOk(in_.Bcast()[i], Sizes(in_.entries), unit)
    ensures in_.Bcast()[i].ownerRank < in_.p.worldSize && Lacking(in_.p, in_.Bcast()[i].fileIdx)
  {
    hide Plan, Sort, Unsorted, SplitUpTo, Nobody, Everyone, Presence.Has, CutOk;
    var s := in_.Bcast()[i];
    PlanMember(in_, i);
    var download, j := MemberKind(in_, s);
    if download {
      DownloadShard(in_, s, j, unit);
      NotBoth(in_.p, s.fileIdx);
    } else {
      PeerShard(in_, s, j, unit);
    }
  }

  /** The boundary that shards must keep to: none without O_DIRECT. */
  function Unit(t: Tuning): (u: nat)
    ensures u > 0
  {
    if t.direct then ALIGN else 1
  }

  /** The assembled plan meets everything the broadcast stage relies on. */
  lemma StageIsValid(in_: Inputs, t: Tuning)
    requires in_.Valid() && t.Valid() && in_.shardSize % Unit(t) == 0
    ensures Stage(in_, t).Valid()
    ensures WellCut(Stage(in_, t).plan, Stage(in_, t).size, Unit(t))
    ensures forall f: nat, p: nat :: Count(Stage(in_, t).plan, CoversByte(f, p)) <= 1
  {
    hide Plan, Sort, Unsorted, BcastShards, SplitUpTo, Nobody, Everyone, Presence.Has, Count;
    var cfg := Stage(in_, t);
    forall i | 0 <= i < |cfg.plan|
      ensures cfg.ValidShard(cfg.plan[i]) && CutOk(cfg.plan[i], cfg.size, Unit(t))
    {
      ShardFits(in_, Unit(t), i);
    }
    forall f: nat, p: nat
      ensures Count(cfg.plan, CoversByte(f, p)) <= 1
    {
      BcastCovers(in_, f, p);
    }
  }

  /** A file is in the plan exactly when some rank lacks it, empty files included. */
  lemma PlannedIsLacking(in_: Inputs, t: Tuning, f: nat)
    requires in_.Valid()
    ensures Stage(in_, t).Planned(f) <==> f < |in_.entries| && Lacking(in_.p, f)
  {
    hide Plan, Sort, BcastShards, SplitUpTo, Nobody, Everyone, Presence.Has;
    var plan := in_.Bcast();
    if Stage(in_, t).Planned(f) {
      var i :| 0 <= i < |plan| && plan[i].fileIdx == f;
      ShardFits(in_, 1, i);
    }
    if f < |in_.entries| && Lacking(in_.p, f) {
      SplitTells(in_.p, in_.c, f);
      if f in in_.c.needsDownload {
        ListedDownload(in_, f);
      } else {
        ListedPeer(in_, f);
      }
    }
  }

  lemma ListedDownload(in_: Inputs, f: nat)
    requires in_.Valid() && f in in_.c.needsDownload
    ensures exists i :: 0 <= i < |in_.Bcast()| && in_.Bcast()[i].fileIdx == f
  {
    hide Plan, RawShards, BcastShards, SplitUpTo, Nobody, Everyone, Presence.Has;
    var k :| 0 <= k < |in_.c.needsDownload| && in_.c.needsDownload[k] == f;
    var d := Sizes(in_.DownloadEntries());
    var i := EveryFileListed(d, in_.shardSize, k);
    PlanIs(d, in_.k, in_.shardSize);
    var u := Unsorted(Sizes(in_.entries), in_.c, in_.Downloads());
    assert u[i].fileIdx == f;
    PlanHolds(in_, u[i]);
  }

  lemma ListedPeer(in_: Inputs, f: nat)
    requires in_.Valid() && f in Files(in_.c.bcastOnly)
    ensures exists i :: 0 <= i < |in_.Bcast()| && in_.Bcast()[i].fileIdx == f
  {
    hide Plan, RawShards, BcastShards, SplitUpTo, Nobody, Everyone, Presence.Has;
    var k :| 0 <= k < |in_.c.bcastOnly| && Files(in_.c.bcastOnly)[k] == f;
    var u := Unsorted(Sizes(in_.entries), in_.c, in_.Downloads());
    assert u[|in_.Downloads()| + k].fileIdx == f;
    PlanHolds(in_, u[|in_.Downloads()| + k]);
  }

  lemma StageIsTiled(in_: Inputs, t: Tuning)
    requires in_.Valid()
    ensures Tiled(Stage(in_, t))
  {
    hide Plan, Sort, BcastShards, SplitUpTo, Nobody, Everyone, Presence.Has, Count, Config.Planned;
    var cfg := Stage(in_, t);
    forall f: nat, p: nat | f < |cfg.size| && cfg.Planned(f) && p < cfg.size[f]
      ensures InPlan(cfg, f, p)
    {
      PlannedIsLacking(in_, t, f);
      BcastCovers(in_, f, p);
      CountZero(cfg.plan, CoversByte(f, p));
    }
  }
}
