/** What the download engine leaves on disk is what the plan counts on at the barrier. */
module DownloadLands {
  import opened Types
  import opened PlanAssembly
  import opened Landing
  import opened DownloadProtocol

  lemma {:induction false} ForPathIs(ranges: seq<DownloadRange>, path: string)
    ensures forall i | 0 <= i < |ForPath(ranges, path)| :: ForPath(ranges, path)[i] in ranges && ForPath(ranges, path)[i].path == path
    ensures forall i | 0 <= i < |ranges| && ranges[i].path == path :: ranges[i] in ForPath(ranges, path)
  {
    if ranges != [] {
      var n := |ranges| - 1;
      ForPathIs(ranges[..n], path);
      assert ranges == ranges[..n] + [ranges[n]];
    }
  }

  /** A group keeps the order of the ranges. */
  lemma {:induction false} ForPathInOrder(ranges: seq<DownloadRange>, path: string, i: nat, j: nat) returns (a: nat, b: nat)
    requires i < j < |ForPath(ranges, path)|
    ensures a < b < |ranges| && ranges[a] == ForPath(ranges, path)[i] && ranges[b] == ForPath(ranges, path)[j]
  {
    var n := |ranges| - 1;
    var before := ForPath(ranges[..n], path);
    if j < |before| {
      a, b := ForPathInOrder(ranges[..n], path, i, j);
    } else {
      ForPathIs(ranges[..n], path);
      assert before[i] in ranges[..n];
      a :| 0 <= a < n && ranges[..n][a] == before[i];
      b := n;
    }
  }

  lemma {:induction false} ForPathNone(ranges: seq<DownloadRange>, path: string)
    requires forall i | 0 <= i < |ranges| :: ranges[i].path != path
    ensures ForPath(ranges, path) == []
  {
    if ranges != [] {
      ForPathNone(ranges[..|ranges| - 1], path);
    }
  }

  lemma GroupHits(ranges: seq<DownloadRange>, path: string, p: nat)
    ensures RangeHolds(ForPath(ranges, path), p) <==> HitSome(ranges, path, p)
  {
    ForPathIs(ranges, path);
    var group := ForPath(ranges, path);
    if i :| 0 <= i < |group| && InRange(group[i], p) {
      assert group[i] in ranges;
      var k :| 0 <= k < |ranges| && ranges[k] == group[i];
      assert HitsPath(ranges[k], path, p);
    }
    if i :| 0 <= i < |ranges| && HitsPath(ranges[i], path, p) {
      var k :| 0 <= k < |group| && group[k] == ranges[i];
      assert InRange(group[k], p);
    }
  }

  lemma {:induction false} PiecesFit(ranges: seq<DownloadRange>, block: nat, size: nat, i: nat)
    requires block > 0 && i < |AllPieces(ranges, block)|
    requires forall k | 0 <= k < |ranges| :: ranges[k].byteOffset + ranges[k].byteLen <= size
    ensures var q := AllPieces(ranges, block)[i];
            q.offset + q.len <= size && exists k :: 0 <= k < |ranges| && ranges[k].blobName == q.blobName
  {
    var n := |ranges| - 1;
    var before := AllPieces(ranges[..n], block);
    if i < |before| {
      PiecesFit(ranges[..n], block, size, i);
      var k :| 0 <= k < n && ranges[..n][k].blobName == before[i].blobName;
      assert ranges[k].blobName == before[i].blobName;
    } else {
      PieceInside(ranges[n], block, i - |before|);
      assert ranges[n].blobName == AllPieces(ranges, block)[i].blobName;
    }
  }

  lemma GroupIsFit(job: Job, ranges: seq<DownloadRange>, block: nat, g: nat, path: string, content: seq<Byte>)
    requires block > 0 && g < |job.groups| && g < |job.before| && |job.before[g]| == |content|
    requires job.groups[g] == AllPieces(ForPath(ranges, path), block)
    requires Fresh(job.blob, ranges, path, content) && Inside(ranges, path, |content|)
    ensures GroupFits(job, g, content)
  {
    var group := ForPath(ranges, path);
    ForPathIs(ranges, path);
    forall i | 0 <= i < |group|
      ensures group[i].byteOffset + group[i].byteLen <= |content| && job.blob(group[i].blobName) == content
    {
      assert group[i] in ranges;
      var k :| 0 <= k < |ranges| && ranges[k] == group[i];
    }
    forall i | 0 <= i < |job.groups[g]|
      ensures job.blob(job.groups[g][i].blobName) == content && job.groups[g][i].offset + job.groups[g][i].len <= |content|
    {
      PiecesFit(group, block, |content|, i);
    }
  }

  /**
    A file the engine reports as done holds what landing all its ranges in turn would have put there: the schedule of
    files, chunks and completions leaves no trace.
  */
  lemma EngineLands(job: Job, sched: seq<Step>, disk: Disk, ranges: seq<DownloadRange>, block: nat, g: nat, path: string, content: seq<Byte>)
    requires job.Valid() && block > 0 && g < |job.groups| && path in disk && job.before[g] == disk[path] && |disk[path]| == |content|
    requires job.groups[g] == AllPieces(ForPath(ranges, path), block)
    requires Fresh(job.blob, ranges, path, content) && Inside(ranges, path, |content|)
    requires Run(job, Init(job), sched).Some?
    ensures g < |Run(job, Init(job), sched).value.tasks| && path in LandAll(disk, job.blob, ranges)
    ensures Run(job, Init(job), sched).value.tasks[g].pc == Closed(true) ==>
              Run(job, Init(job), sched).value.tasks[g].file == LandAll(disk, job.blob, ranges)[path]
  {
    hide Run, Init, Fresh, Inside, HitSome, RangeHolds, PieceHolds, LandAll, AllPieces, GroupFits;
    GroupIsFit(job, ranges, block, g, path, content);
    ContentsCorrect(job, sched, g, content);
    LandedBytes(disk, job.blob, ranges, path, content);
    forall p: nat | p < |content|
      ensures PieceHolds(job.groups[g], p) <==> HitSome(ranges, path, p)
    {
      PiecesCover(ForPath(ranges, path), block, p);
      GroupHits(ranges, path, p);
    }
  }

  // ---- the whole call

  /** The ranges by local path, in whatever order the map is walked; the files are there, as the caller left them. */
  ghost predicate JobFor(job: Job, disk: Disk, blob: string -> seq<Byte>, ranges: seq<DownloadRange>, block: nat, paths: seq<string>)
    requires block > 0
  {
    && job.Valid() && job.blob == blob && |job.groups| == |paths|
    && (forall g, h | 0 <= g < h < |paths| :: paths[g] != paths[h])
    && (forall path :: path in paths <==> ForPath(ranges, path) != [])
    && (forall g | 0 <= g < |paths| :: IsGroup(job, disk, ranges, block, paths[g], g))
  }

  predicate IsGroup(job: Job, disk: Disk, ranges: seq<DownloadRange>, block: nat, path: string, g: nat)
    requires block > 0
  {
    && path in disk && g < |job.groups| && g < |job.before|
    && job.groups[g] == AllPieces(ForPath(ranges, path), block) && job.before[g] == disk[path]
  }

  /** The disk after a run: the files of the call as their tasks left them, all others as they were. */
  ghost predicate Left(disk: Disk, paths: seq<string>, tasks: seq<Task>, after: Disk) {
    && |tasks| == |paths| && after.Keys == disk.Keys
    && (forall g | 0 <= g < |paths| :: paths[g] in disk && after[paths[g]] == tasks[g].file)
    && (forall path | path in disk && path !in paths :: after[path] == disk[path])
  }

  ghost predicate DownloadRun(job: Job, block: nat, paths: seq<string>, sched: seq<Step>,
                              disk: Disk, blob: string -> seq<Byte>, ranges: seq<DownloadRange>, after: Disk)
  {
    && block > 0 && JobFor(job, disk, blob, ranges, block, paths)
    && Run(job, Init(job), sched).Some?
    && var tasks := Run(job, Init(job), sched).value.tasks;
       Left(disk, paths, tasks, after) && forall g | 0 <= g < |tasks| :: tasks[g].pc == Closed(true)
  }

  /** Some run of download_ranges that reports success for every file leaves this disk. */
  ghost predicate Downloaded(disk: Disk, blob: string -> seq<Byte>, ranges: seq<DownloadRange>, after: Disk) {
    exists job: Job, block: nat, paths: seq<string>, sched: seq<Step> :: DownloadRun(job, block, paths, sched, disk, blob, ranges, after)
  }

  /** The ranges of a path are all of one content, and lie inside it and the file. */
  ghost predicate Sound(disk: Disk, blob: string -> seq<Byte>, ranges: seq<DownloadRange>, path: string, content: seq<Byte>) {
    path in disk && |disk[path]| == |content| && Fresh(blob, ranges, path, content) && Inside(ranges, path, |content|)
  }

  ghost predicate HasContent(disk: Disk, blob: string -> seq<Byte>, ranges: seq<DownloadRange>, path: string) {
    exists content :: Sound(disk, blob, ranges, path, content)
  }

  /**
    Every successful run leaves the disk as landing all the ranges one after the other would, whatever the settings
    and the order of files, chunks and completions.
  */
  lemma DownloadedLands(disk: Disk, blob: string -> seq<Byte>, ranges: seq<DownloadRange>, after: Disk)
    requires Downloaded(disk, blob, ranges, after)
    requires forall i: nat | i < |ranges| :: HasContent(disk, blob, ranges, ranges[i].path)
    ensures after == LandAll(disk, blob, ranges)
  {
    hide DownloadRun, Sound, LandAll;
    var job: Job, block: nat, paths: seq<string>, sched: seq<Step> :| DownloadRun(job, block, paths, sched, disk, blob, ranges, after);
    LandKeeps(disk, blob, ranges);
    RunKeys(job, block, paths, sched, disk, blob, ranges, after);
    forall path | path in disk
      ensures after[path] == LandAll(disk, blob, ranges)[path]
    {
      if i :| 0 <= i < |ranges| && ranges[i].path == path {
        var content :| Sound(disk, blob, ranges, path, content);
        PathLands(job, block, paths, sched, disk, blob, ranges, after, i, content);
      } else {
        PathKept(job, block, paths, sched, disk, blob, ranges, after, path);
      }
    }
  }

  lemma RunKeys(job: Job, block: nat, paths: seq<string>, sched: seq<Step>,
                disk: Disk, blob: string -> seq<Byte>, ranges: seq<DownloadRange>, after: Disk)
    requires DownloadRun(job, block, paths, sched, disk, blob, ranges, after)
    ensures after.Keys == disk.Keys
  {
    hide Run, Init, JobFor;
  }

  lemma PathKept(job: Job, block: nat, paths: seq<string>, sched: seq<Step>,
                 disk: Disk, blob: string -> seq<Byte>, ranges: seq<DownloadRange>, after: Disk, path: string)
    requires DownloadRun(job, block, paths, sched, disk, blob, ranges, after)
    requires path in disk && forall i | 0 <= i < |ranges| :: ranges[i].path != path
    ensures path in after && after[path] == disk[path]
  {
    hide Run, Init, IsGroup;
    ForPathNone(ranges, path);
  }

  lemma PathLands(job: Job, block: nat, paths: seq<string>, sched: seq<Step>,
                  disk: Disk, blob: string -> seq<Byte>, ranges: seq<DownloadRange>, after: Disk, i: nat, content: seq<Byte>)
    requires DownloadRun(job, block, paths, sched, disk, blob, ranges, after)
    requires i < |ranges| && Sound(disk, blob, ranges, ranges[i].path, content)
    ensures var path := ranges[i].path;
            path in after && path in LandAll(disk, blob, ranges) && after[path] == LandAll(disk, blob, ranges)[path]
  {
    hide Run, Init, LandAll, Fresh, Inside, AllPieces;
    var path := ranges[i].path;
    ForPathIs(ranges, path);
    assert ranges[i] in ForPath(ranges, path);
    var g: nat :| g < |paths| && paths[g] == path;
    assert IsGroup(job, disk, ranges, block, path, g);
    EngineLands(job, sched, disk, ranges, block, g, path, content);
  }
}
