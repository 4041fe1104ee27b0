/** The local disks before the broadcast stage, and the copies every rank ends with. */
module PlanDisk {
  import opened Types
  import opened Counting
  import opened Sorting
  import opened Shards
  import opened ShardTiling
  import opened PresenceMatrix
  import opened Diff
  import opened PlanAssembly
  import opened PlanReady
  import opened Landing
  import opened DownloadLands
  import opened PipelineModel
  import opened PipelineInv
  import opened PipelineComplete
  import opened PipelineWorld
  import opened PipelineSafety
  import opened PipelineTheorems

  /** No two listed files share a local path. */
  predicate RelInjective(entries: seq<Blob>, rel: string -> string) {
    forall i, j | 0 <= i < j < |entries| :: rel(entries[i].name) != rel(entries[j].name)
  }

  function PathOf(entries: seq<Blob>, rel: string -> string, f: nat): string
    requires f < |entries|
  {
    rel(entries[f].name)
  }

  lemma PathTells(entries: seq<Blob>, rel: string -> string, f: nat, g: nat)
    requires RelInjective(entries, rel) && f < |entries| && g < |entries|
    ensures PathOf(entries, rel, f) == PathOf(entries, rel, g) <==> f == g
  {
    if f < g || g < f {
      assert rel(entries[Min(f, g)].name) != rel(entries[Max(f, g)].name);
    }
  }

  // ---- pre-sizing

  /** File::create and set_len of every listed file in `create`, all other paths left alone. */
  ghost predicate PreSized(entries: seq<Blob>, rel: string -> string, create: set<nat>, before: Disk, after: Disk) {
    && (forall f | f in create && f < |entries| ::
          PathOf(entries, rel, f) in after && after[PathOf(entries, rel, f)] == SetLen([], entries[f].Size()))
    && (forall path | path in before && Untouched(entries, rel, create, path) :: path in after && after[path] == before[path])
    && after.Keys == before.Keys + Paths(entries, rel, create)
  }

  function Paths(entries: seq<Blob>, rel: string -> string, create: set<nat>): set<string> {
    set f | f in create && f < |entries| :: PathOf(entries, rel, f)
  }

  predicate Untouched(entries: seq<Blob>, rel: string -> string, create: set<nat>, path: string) {
    forall f | f in create && f < |entries| :: PathOf(entries, rel, f) != path
  }

  lemma PathsGrow(entries: seq<Blob>, rel: string -> string, create: set<nat>, f: nat)
    requires f < |entries|
    ensures Paths(entries, rel, create + {f}) == Paths(entries, rel, create) + {PathOf(entries, rel, f)}
  {
    forall path | path in Paths(entries, rel, create)
      ensures path in Paths(entries, rel, create + {f})
    {
      var g :| g in create && g < |entries| && PathOf(entries, rel, g) == path;
      assert g in create + {f};
    }
    assert f in create + {f};
  }

  lemma PreSizedGrow(entries: seq<Blob>, rel: string -> string, done: set<nat>, f: nat, before: Disk, was: Disk)
    requires RelInjective(entries, rel) && f < |entries| && f !in done && (forall g | g in done :: g < |entries|)
    requires PreSized(entries, rel, done, before, was)
    ensures PreSized(entries, rel, done + {f}, before, was[PathOf(entries, rel, f) := SetLen([], entries[f].Size())])
  {
    hide SetLen, RelInjective, PathOf, Paths, Untouched;
    var after: Disk := was[PathOf(entries, rel, f) := SetLen([], entries[f].Size())];
    PathsGrow(entries, rel, done, f);
    forall g | g in done
      ensures PathOf(entries, rel, g) in after && after[PathOf(entries, rel, g)] == was[PathOf(entries, rel, g)]
    {
      PathTells(entries, rel, f, g);
    }
    forall path | Untouched(entries, rel, done + {f}, path)
      ensures Untouched(entries, rel, done, path) && path != PathOf(entries, rel, f)
    {
      UntouchedLess(entries, rel, done, f, path);
    }
  }

  lemma UntouchedLess(entries: seq<Blob>, rel: string -> string, done: set<nat>, f: nat, path: string)
    requires f < |entries| && Untouched(entries, rel, done + {f}, path)
    ensures Untouched(entries, rel, done, path) && path != PathOf(entries, rel, f)
  {
    hide PathOf;
    assert f in done + {f} && forall g | g in done :: g in done + {f};
  }

  /** The loop over the HashSet, in whatever order it is walked. */
  method PreSize(entries: seq<Blob>, rel: string -> string, create: set<nat>, before: Disk) returns (after: Disk)
    requires RelInjective(entries, rel) && forall f | f in create :: f < |entries|
    ensures PreSized(entries, rel, create, before, after)
  {
    after := before;
    var left := create;
    while left != {}
      invariant left <= create && PreSized(entries, rel, create - left, before, after)
      decreases |left|
    {
      var f :| f in left;
      ghost var was := after;
      after := after[PathOf(entries, rel, f) := SetLen([], entries[f].Size())];
      ghost var done := create - left;
      left := left - {f};
      assert create - left == done + {f};
      PreSizedGrow(entries, rel, done, f, before, was);
    }
    assert create - left == create;
  }

  // ---- one rank up to the barrier

  /** Files that count as present hold the service's contents. */
  ghost predicate Truthful(in_: Inputs, rel: string -> string, blob: string -> seq<Byte>, r: nat, disk: Disk)
    requires in_.Valid() && r < in_.p.worldSize
  {
    forall f: nat | f < |in_.entries| && in_.p.Has(r, f) ::
      PathOf(in_.entries, rel, f) in disk && disk[PathOf(in_.entries, rel, f)] == blob(in_.entries[f].name)
  }

  ghost predicate Sizes64(in_: Inputs, blob: string -> seq<Byte>) {
    forall f | 0 <= f < |in_.entries| :: |blob(in_.entries[f].name)| == in_.entries[f].Size()
  }

  /** The rank's disk at the barrier: pre-sized, then its ranges downloaded by a run of the engine that reported success. */
  ghost predicate AtBarrier(in_: Inputs, rel: string -> string, blob: string -> seq<Byte>, r: nat, before: Disk, after: Disk)
    requires in_.Valid() && r < in_.p.worldSize
  {
    exists create: set<nat>, sized: Disk :: Prepared(in_, rel, blob, r, before, after, create, sized)
  }

  ghost predicate Prepared(in_: Inputs, rel: string -> string, blob: string -> seq<Byte>, r: nat, before: Disk, after: Disk,
                           create: set<nat>, sized: Disk)
    requires in_.Valid() && r < in_.p.worldSize
  {
    && ToCreate(in_, r, create)
    && PreSized(in_.entries, rel, create, before, sized)
    && Downloaded(sized, blob, MyRanges(in_.DownloadEntries(), rel, in_.Downloads(), r), after)
  }

  /** The set main collects before pre-sizing. */
  predicate ToCreate(in_: Inputs, r: nat, create: set<nat>)
    requires in_.Valid() && r < in_.p.worldSize
  {
    && (forall f | f in create :: f < in_.p.numFiles && !in_.p.Has(r, f))
    && (forall i | 0 <= i < |in_.Bcast()| && in_.Bcast()[i].fileIdx < in_.p.numFiles ::
          in_.p.Has(r, in_.Bcast()[i].fileIdx) || in_.Bcast()[i].fileIdx in create)
  }

  function Contents(entries: seq<Blob>, blob: string -> seq<Byte>): (r: seq<seq<Byte>>)
    ensures |r| == |entries| && forall f | 0 <= f < |r| :: r[f] == blob(entries[f].name)
  {
    seq(|entries|, f requires 0 <= f < |entries| => blob(entries[f].name))
  }

  function DiskFiles(entries: seq<Blob>, rel: string -> string, disk: Disk): (r: seq<seq<Byte>>)
    ensures |r| == |entries|
    ensures forall f | 0 <= f < |r| :: r[f] == if PathOf(entries, rel, f) in disk then disk[PathOf(entries, rel, f)] else []
  {
    seq(|entries|, f requires 0 <= f < |entries| =>
          if PathOf(entries, rel, f) in disk then disk[PathOf(entries, rel, f)] else [])
  }

  /** A rank's ranges for a file's path are ranges of that file, which nobody has. */
  lemma RangeOfPath(in_: Inputs, rel: string -> string, r: nat, i: nat, f: nat) returns (s: ShardSpec)
    requires in_.Valid() && RelInjective(in_.entries, rel) && f < |in_.entries|
    requires i < |MyRanges(in_.DownloadEntries(), rel, in_.Downloads(), r)|
    requires MyRanges(in_.DownloadEntries(), rel, in_.Downloads(), r)[i].path == PathOf(in_.entries, rel, f)
    ensures Nobody(in_.p, f)
    ensures var range := MyRanges(in_.DownloadEntries(), rel, in_.Downloads(), r)[i];
            range.blobName == in_.entries[f].name && range.byteOffset + range.byteLen <= in_.entries[f].Size()
  {
    hide Plan, InOrder, SplitUpTo, Nobody, Everyone, Presence.Has;
    s := OwnedBy(in_.Downloads(), r)[i];
    OwnedIs(in_.Downloads(), r);
    DownloadsInside(in_);
    var k :| 0 <= k < |in_.Downloads()| && in_.Downloads()[k] == s;
    var d := Sizes(in_.DownloadEntries());
    PlanTiles(d, in_.k, in_.shardSize);
    InFile(in_.Downloads(), d, k);
    var g := in_.c.needsDownload[s.fileIdx];
    PathTells(in_.entries, rel, f, g);
    assert g in in_.c.needsDownload;
    SplitTells(in_.p, in_.c, g);
  }

  lemma RangesFit(in_: Inputs, rel: string -> string, blob: string -> seq<Byte>, r: nat, f: nat)
    requires in_.Valid() && RelInjective(in_.entries, rel) && f < |in_.entries| && Sizes64(in_, blob)
    ensures var mine := MyRanges(in_.DownloadEntries(), rel, in_.Downloads(), r);
            var path := PathOf(in_.entries, rel, f);
            && Fresh(blob, mine, path, blob(in_.entries[f].name))
            && Inside(mine, path, in_.entries[f].Size())
            && (!Nobody(in_.p, f) ==> forall p: nat :: !HitSome(mine, path, p))
  {
    hide Plan, SplitUpTo, Nobody, Everyone, Presence.Has, OwnedBy;
    var mine := MyRanges(in_.DownloadEntries(), rel, in_.Downloads(), r);
    forall i | 0 <= i < |mine| && mine[i].path == PathOf(in_.entries, rel, f)
      ensures Nobody(in_.p, f) && mine[i].blobName == in_.entries[f].name
              && mine[i].byteOffset + mine[i].byteLen <= in_.entries[f].Size()
    {
      var s := RangeOfPath(in_, rel, r, i, f);
    }
  }

  /** The file a rank's range belongs to is one that nobody has. */
  lemma RangeFile(in_: Inputs, rel: string -> string, r: nat, i: nat) returns (f: nat)
    requires in_.Valid() && i < |MyRanges(in_.DownloadEntries(), rel, in_.Downloads(), r)|
    ensures f < |in_.entries| && f in in_.c.needsDownload
    ensures MyRanges(in_.DownloadEntries(), rel, in_.Downloads(), r)[i].path == PathOf(in_.entries, rel, f)
  {
    hide Plan, InOrder, SplitUpTo, Nobody, Everyone, Presence.Has;
    var s := OwnedBy(in_.Downloads(), r)[i];
    OwnedIs(in_.Downloads(), r);
    DownloadsInside(in_);
    var k :| 0 <= k < |in_.Downloads()| && in_.Downloads()[k] == s;
    PlanTiles(Sizes(in_.DownloadEntries()), in_.k, in_.shardSize);
    InFile(in_.Downloads(), Sizes(in_.DownloadEntries()), k);
    f := in_.c.needsDownload[s.fileIdx];
  }

  /** Pre-sizing leaves the files to download at their size, with one content to come. */
  lemma PathIsSound(in_: Inputs, rel: string -> string, blob: string -> seq<Byte>, r: nat, create: set<nat>, before: Disk, sized: Disk, i: nat)
    requires in_.Valid() && RelInjective(in_.entries, rel) && Sizes64(in_, blob) && r < in_.p.worldSize
    requires ToCreate(in_, r, create) && PreSized(in_.entries, rel, create, before, sized)
    requires i < |MyRanges(in_.DownloadEntries(), rel, in_.Downloads(), r)|
    ensures var mine := MyRanges(in_.DownloadEntries(), rel, in_.Downloads(), r);
            HasContent(sized, blob, mine, mine[i].path)
  {
    hide Plan, BcastShards, SplitUpTo, Presence.Has, OwnedBy, Everyone, Fresh, Inside;
    var f := RangeFile(in_, rel, r, i);
    ListedDownload(in_, f);
    assert Nobody(in_.p, f) by { SplitTells(in_.p, in_.c, f); }
    assert f in create;
    RangesFit(in_, rel, blob, r, f);
    assert Sound(sized, blob, MyRanges(in_.DownloadEntries(), rel, in_.Downloads(), r), PathOf(in_.entries, rel, f), blob(in_.entries[f].name));
  }

  /** The engine leaves the disk as landing the rank's ranges one after the other would. */
  lemma BarrierLands(in_: Inputs, rel: string -> string, blob: string -> seq<Byte>, r: nat, before: Disk, after: Disk,
                     create: set<nat>, sized: Disk)
    requires in_.Valid() && RelInjective(in_.entries, rel) && Sizes64(in_, blob) && r < in_.p.worldSize
    requires Prepared(in_, rel, blob, r, before, after, create, sized)
    ensures after == LandAll(sized, blob, MyRanges(in_.DownloadEntries(), rel, in_.Downloads(), r))
  {
    hide Plan, BcastShards, SplitUpTo, Presence.Has, OwnedBy, ToCreate, PreSized, RelInjective, Sizes64, HasContent, Downloaded, LandAll;
    var mine := MyRanges(in_.DownloadEntries(), rel, in_.Downloads(), r);
    forall i: nat | i < |mine|
      ensures HasContent(sized, blob, mine, mine[i].path)
    {
      PathIsSound(in_, rel, blob, r, create, before, sized, i);
    }
    DownloadedLands(sized, blob, mine, after);
  }

  /** A byte in a shard this rank owns is either in a file it already has or in one of its ranges. */
  lemma OwnedByteLands(in_: Inputs, rel: string -> string, r: nat, i: nat, p: nat)
    requires in_.Valid() && r < in_.p.worldSize && i < |in_.Bcast()|
    requires in_.Bcast()[i].ownerRank == r && in_.Bcast()[i].Covers(in_.Bcast()[i].fileIdx, p)
    ensures var f := in_.Bcast()[i].fileIdx;
            && f < |in_.entries|
            && (in_.p.Has(r, f)
                || HitSome(MyRanges(in_.DownloadEntries(), rel, in_.Downloads(), r), PathOf(in_.entries, rel, f), p))
  {
    hide Plan, BcastShards, SplitUpTo, Nobody, Everyone, Presence.Has, OwnedBy;
    OwnerWillHold(in_, rel, i);
    var s := in_.Bcast()[i];
    var mine := MyRanges(in_.DownloadEntries(), rel, in_.Downloads(), r);
    if !in_.p.Has(r, s.fileIdx) {
      var k :| 0 <= k < |mine| && mine[k] == RangeOf(in_.entries, rel, s);
      assert HitsPath(mine[k], PathOf(in_.entries, rel, s.fileIdx), p);
    }
  }

  /** A rank that has a file keeps it: pre-sizing and downloading never touch a file that counts as present. */
  lemma PresentKept(in_: Inputs, rel: string -> string, blob: string -> seq<Byte>, r: nat, before: Disk, after: Disk, f: nat)
    requires in_.Valid() && RelInjective(in_.entries, rel) && Sizes64(in_, blob) && r < in_.p.worldSize
    requires Truthful(in_, rel, blob, r, before) && AtBarrier(in_, rel, blob, r, before, after)
    requires f < |in_.entries| && in_.p.Has(r, f)
    ensures PathOf(in_.entries, rel, f) in after && after[PathOf(in_.entries, rel, f)] == blob(in_.entries[f].name)
  {
    hide Plan, BcastShards, SplitUpTo, Presence.Has, OwnedBy, HitSome, Downloaded;
    var mine := MyRanges(in_.DownloadEntries(), rel, in_.Downloads(), r);
    var create: set<nat>, sized: Disk :| Prepared(in_, rel, blob, r, before, after, create, sized);
    BarrierLands(in_, rel, blob, r, before, after, create, sized);
    var path := PathOf(in_.entries, rel, f);
    forall g | g in create && g < |in_.entries|
      ensures PathOf(in_.entries, rel, g) != path
    {
      assert !in_.p.Has(r, g);
      PathTells(in_.entries, rel, f, g);
    }
    assert Untouched(in_.entries, rel, create, path);
    assert sized[path] == before[path] == blob(in_.entries[f].name);
    RangesFit(in_, rel, blob, r, f);
    LandedBytes(sized, blob, mine, path, blob(in_.entries[f].name));
  }

  /** A file this rank lacks has its full size, and the bytes of the shards it owns are the service's. */
  lemma LackingReady(in_: Inputs, rel: string -> string, blob: string -> seq<Byte>, r: nat, before: Disk, after: Disk, f: nat)
    requires in_.Valid() && RelInjective(in_.entries, rel) && Sizes64(in_, blob) && r < in_.p.worldSize
    requires AtBarrier(in_, rel, blob, r, before, after)
    requires f < |in_.entries| && !in_.p.Has(r, f) && exists i | 0 <= i < |in_.Bcast()| :: in_.Bcast()[i].fileIdx == f
    ensures PathOf(in_.entries, rel, f) in after && |after[PathOf(in_.entries, rel, f)]| == in_.entries[f].Size()
    ensures forall p: nat | p < in_.entries[f].Size()
                            && HitSome(MyRanges(in_.DownloadEntries(), rel, in_.Downloads(), r), PathOf(in_.entries, rel, f), p) ::
              after[PathOf(in_.entries, rel, f)][p] == blob(in_.entries[f].name)[p]
  {
    hide Plan, BcastShards, SplitUpTo, Presence.Has, OwnedBy, HitSome, Downloaded;
    var mine := MyRanges(in_.DownloadEntries(), rel, in_.Downloads(), r);
    var create: set<nat>, sized: Disk :| Prepared(in_, rel, blob, r, before, after, create, sized);
    BarrierLands(in_, rel, blob, r, before, after, create, sized);
    assert f in create;
    RangesFit(in_, rel, blob, r, f);
    LandedBytes(sized, blob, mine, PathOf(in_.entries, rel, f), blob(in_.entries[f].name));
  }

  /** At the barrier every rank's disk is what the broadcast stage assumes. */
  lemma ReadyAtBarrier(in_: Inputs, t: Tuning, rel: string -> string, blob: string -> seq<Byte>, r: nat, before: Disk, after: Disk)
    requires in_.Valid() && RelInjective(in_.entries, rel) && Sizes64(in_, blob) && r < in_.p.worldSize
    requires Truthful(in_, rel, blob, r, before) && AtBarrier(in_, rel, blob, r, before, after)
    ensures DiskReady(Stage(in_, t), r, Contents(in_.entries, blob), DiskFiles(in_.entries, rel, after))
  {
    hide Plan, BcastShards, SplitUpTo, Presence.Has, OwnedBy, HitSome, AtBarrier, Truthful, Nobody, Everyone, Base;
    var cfg := Stage(in_, t);
    var src, disk := Contents(in_.entries, blob), DiskFiles(in_.entries, rel, after);
    forall f: nat | f < |cfg.size| && cfg.Planned(f)
      ensures |disk[f]| == cfg.size[f]
      ensures forall p: nat | p < cfg.size[f] && Base(cfg, r, f, p) :: disk[f][p] == src[f][p]
    {
      FileReady(in_, t, rel, blob, r, before, after, f);
    }
  }

  lemma FileReady(in_: Inputs, t: Tuning, rel: string -> string, blob: string -> seq<Byte>, r: nat, before: Disk, after: Disk, f: nat)
    requires in_.Valid() && RelInjective(in_.entries, rel) && Sizes64(in_, blob) && r < in_.p.worldSize
    requires Truthful(in_, rel, blob, r, before) && AtBarrier(in_, rel, blob, r, before, after)
    requires f < |in_.entries| && Stage(in_, t).Planned(f)
    ensures var d := DiskFiles(in_.entries, rel, after)[f];
            && |d| == in_.entries[f].Size()
            && forall p: nat | p < in_.entries[f].Size() && Base(Stage(in_, t), r, f, p) ::
                 d[p] == Contents(in_.entries, blob)[f][p]
  {
    hide Plan, BcastShards, SplitUpTo, Presence.Has, OwnedBy, HitSome, AtBarrier, Truthful, Nobody, Everyone;
    var cfg := Stage(in_, t);
    HaveIs(in_.p, r, f);
    if in_.p.Has(r, f) {
      PresentKept(in_, rel, blob, r, before, after, f);
    } else {
      LackingReady(in_, rel, blob, r, before, after, f);
      forall p: nat | p < in_.entries[f].Size() && Base(cfg, r, f, p)
        ensures HitSome(MyRanges(in_.DownloadEntries(), rel, in_.Downloads(), r), PathOf(in_.entries, rel, f), p)
      {
        var i :| 0 <= i < |cfg.plan| && cfg.plan[i].ownerRank == r && cfg.plan[i].Covers(f, p);
        OwnedByteLands(in_, rel, r, i, p);
      }
    }
  }

  // ---- the whole job

  /** Whatever arguments are accepted, the broadcast stage gets a plan it can run. */
  lemma LedStageIsValid(in_: Inputs, o: Options, t: Tuning)
    requires in_.Valid() && t.Valid() && o.Valid(t.chunk) && o.Lead(in_, t.chunk)
    ensures Stage(in_, t).Valid()
  {
    hide Plan, Stage, Unit, SplitUpTo, EffectiveShardSize;
    EffectiveSizeAligned(o, t, Sizes(in_.DownloadEntries()));
    StageIsValid(in_, t);
  }

  /** The stage begins behind the barrier, on the disks as they are there. */
  ghost predicate Starts(in_: Inputs, o: Options, t: Tuning, rel: string -> string, after: seq<Disk>, w0: World)
    requires in_.Valid() && t.Valid() && o.Valid(t.chunk) && o.Lead(in_, t.chunk)
  {
    LedStageIsValid(in_, o, t);
    && |after| == |w0.ranks| == in_.p.worldSize && w0.wire == map[]
    && forall q: nat | q < in_.p.worldSize ::
         w0.ranks[q] == InitRank(Stage(in_, t), q, DiskFiles(in_.entries, rel, after[q]))
  }

  lemma StartsInit(in_: Inputs, o: Options, t: Tuning, rel: string -> string, blob: string -> seq<Byte>,
                   before: seq<Disk>, after: seq<Disk>, w0: World)
    requires in_.Valid() && t.Valid() && o.Valid(t.chunk) && o.Lead(in_, t.chunk)
    requires RelInjective(in_.entries, rel) && Sizes64(in_, blob)
    requires Starts(in_, o, t, rel, after, w0) && |before| == in_.p.worldSize
    requires forall q: nat | q < in_.p.worldSize ::
               Truthful(in_, rel, blob, q, before[q]) && AtBarrier(in_, rel, blob, q, before[q], after[q])
    ensures InitWorld(Stage(in_, t), Contents(in_.entries, blob), w0)
  {
    hide Plan, BcastShards, SplitUpTo, Presence.Has, OwnedBy, HitSome, AtBarrier, Truthful, Nobody, DiskReady, InitRank, Config.Valid, Unit,
         Options.Lead, EffectiveShardSize;
    var cfg, src := Stage(in_, t), Contents(in_.entries, blob);
    LedStageIsValid(in_, o, t);
    forall q | 0 <= q < cfg.world
      ensures DiskReady(cfg, q, src, w0.ranks[q].disk) && w0.ranks[q] == InitRank(cfg, q, w0.ranks[q].disk)
    {
      ReadyAtBarrier(in_, t, rel, blob, q, before[q], after[q]);
      InitDisk(cfg, q, DiskFiles(in_.entries, rel, after[q]));
    }
  }

  /**
    The whole job: presence exchange, plan, pre-sizing, downloads, broadcast. For every accepted set of arguments
    and whatever the interleaving, a rank that is done holds every listed file byte for byte as the service has it.
  */
  lemma EveryRankEndsWithEveryFile(in_: Inputs, o: Options, t: Tuning, rel: string -> string, blob: string -> seq<Byte>,
                                   before: seq<Disk>, after: seq<Disk>, w0: World, sched: seq<Action>, w: World, r: nat, f: nat)
    requires in_.Valid() && t.Valid() && o.Valid(t.chunk) && o.Lead(in_, t.chunk)
    requires RelInjective(in_.entries, rel) && Sizes64(in_, blob)
    requires Starts(in_, o, t, rel, after, w0) && |before| == in_.p.worldSize
    requires forall q: nat | q < in_.p.worldSize ::
               Truthful(in_, rel, blob, q, before[q]) && AtBarrier(in_, rel, blob, q, before[q], after[q])
    requires r < in_.p.worldSize && f < |in_.entries|
    ensures Stage(in_, t).Valid() && |w0.ranks| == Stage(in_, t).world
    ensures Exec(Stage(in_, t), w0, sched) == Some(w) && r < |w.ranks| && Done(w.ranks[r]) ==>
              f < |w.ranks[r].disk| && w.ranks[r].disk[f] == blob(in_.entries[f].name)
  {
    hide Plan, BcastShards, SplitUpTo, Presence.Has, OwnedBy, HitSome, AtBarrier, Truthful, Nobody, DiskReady, InitRank, Config.Valid, Exec, Done, Tiled,
         Options.Lead, EffectiveShardSize, Starts;
    var cfg, src := Stage(in_, t), Contents(in_.entries, blob);
    StartsInit(in_, o, t, rel, blob, before, after, w0);
    PlannedIsLacking(in_, t, f);
    if Exec(cfg, w0, sched) == Some(w) && r < |w.ranks| && Done(w.ranks[r]) {
      if Lacking(in_.p, f) {
        assert Reachable(cfg, src, w);
        StageIsTiled(in_, t);
        IdenticalCopies(cfg, src, w, r, f);
      } else {
        assert in_.p.Has(r, f);
        StartsDisk(in_, o, t, rel, after, w0, r);
        PresentKept(in_, rel, blob, r, before[r], after[r], f);
        InitKeeps(cfg, src, w0);
        UnplannedKept(cfg, src, w0, sched, r, f);
      }
    }
  }

  lemma StartsDisk(in_: Inputs, o: Options, t: Tuning, rel: string -> string, after: seq<Disk>, w0: World, r: nat)
    requires in_.Valid() && t.Valid() && o.Valid(t.chunk) && o.Lead(in_, t.chunk)
    requires Starts(in_, o, t, rel, after, w0) && r < in_.p.worldSize
    ensures r < |w0.ranks| == |after| && w0.ranks[r].disk == DiskFiles(in_.entries, rel, after[r])
  {
    hide Config.Valid, InitRank, Options.Lead;
    LedStageIsValid(in_, o, t);
    InitDisk(Stage(in_, t), r, DiskFiles(in_.entries, rel, after[r]));
  }

  lemma InitDisk(cfg: Config, r: nat, disk: seq<seq<Byte>>)
    requires cfg.Valid()
    ensures InitRank(cfg, r, disk).disk == disk
  {
    hide Config.Valid, Config.NeedsWrite;
  }
}
