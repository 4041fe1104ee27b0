/** Byte ranges landing on a local disk, each at its own offset. */
module Landing {
  import opened Types
  import opened PlanAssembly

  type Disk = map<string, seq<Byte>>

  /** The service's contents; a range request returns exactly the bytes asked for. */
  function Slice(s: seq<Byte>, from: nat, len: nat): seq<Byte> {
    if from + len <= |s| then s[from..from + len] else []
  }

  /** One range lands at its own offset. */
  function Land(disk: Disk, blob: string -> seq<Byte>, r: DownloadRange): Disk {
    if r.path in disk
    then disk[r.path := WriteAt(disk[r.path], r.byteOffset, Slice(blob(r.blobName), r.byteOffset, r.byteLen))]
    else disk
  }

  function LandAll(disk: Disk, blob: string -> seq<Byte>, ranges: seq<DownloadRange>): Disk {
    if ranges == [] then disk
    else Land(LandAll(disk, blob, ranges[..|ranges| - 1]), blob, ranges[|ranges| - 1])
  }

  predicate HitsPath(r: DownloadRange, path: string, p: nat) {
    r.path == path && r.byteOffset <= p < r.byteOffset + r.byteLen
  }

  ghost predicate Fresh(blob: string -> seq<Byte>, ranges: seq<DownloadRange>, path: string, content: seq<Byte>) {
    forall i | 0 <= i < |ranges| && ranges[i].path == path :: blob(ranges[i].blobName) == content
  }

  predicate Inside(ranges: seq<DownloadRange>, path: string, size: nat) {
    forall i | 0 <= i < |ranges| && ranges[i].path == path :: ranges[i].byteOffset + ranges[i].byteLen <= size
  }

  /** Downloaded bytes are the blob's, the others and the length stay as they were. */
  lemma {:induction false} LandedBytes(disk: Disk, blob: string -> seq<Byte>, ranges: seq<DownloadRange>, path: string, content: seq<Byte>)
    requires path in disk && |disk[path]| == |content|
    requires Fresh(blob, ranges, path, content) && Inside(ranges, path, |content|)
    ensures var after := LandAll(disk, blob, ranges);
            && path in after && |after[path]| == |content|
            && (forall p | 0 <= p < |content| ::
                  after[path][p] == if HitSome(ranges, path, p) then content[p] else disk[path][p])
  {
    if ranges != [] {
      var n := |ranges| - 1;
      LandedBytes(disk, blob, ranges[..n], path, content);
      var r := ranges[n];
      forall p | 0 <= p < |content|
        ensures HitSome(ranges, path, p) <==> HitsPath(r, path, p) || HitSome(ranges[..n], path, p)
      {
        HitLast(ranges, path, p);
      }
    }
  }

  predicate HitSome(ranges: seq<DownloadRange>, path: string, p: nat) {
    exists i | 0 <= i < |ranges| :: HitsPath(ranges[i], path, p)
  }

  lemma HitLast(ranges: seq<DownloadRange>, path: string, p: nat)
    requires ranges != []
    ensures HitSome(ranges, path, p) <==> HitsPath(ranges[|ranges| - 1], path, p) || HitSome(ranges[..|ranges| - 1], path, p)
  {
    var n := |ranges| - 1;
    if HitSome(ranges[..n], path, p) {
      var i :| 0 <= i < n && HitsPath(ranges[..n][i], path, p);
      assert HitsPath(ranges[i], path, p);
    }
    if HitSome(ranges, path, p) && !HitsPath(ranges[n], path, p) {
      var i :| 0 <= i < |ranges| && HitsPath(ranges[i], path, p);
      assert HitsPath(ranges[..n][i], path, p);
    }
  }

  lemma {:induction false} LandKeeps(disk: Disk, blob: string -> seq<Byte>, ranges: seq<DownloadRange>)
    ensures LandAll(disk, blob, ranges).Keys == disk.Keys
    ensures forall path | path in disk && (forall i | 0 <= i < |ranges| :: ranges[i].path != path) ::
              LandAll(disk, blob, ranges)[path] == disk[path]
  {
    if ranges != [] {
      var n := |ranges| - 1;
      LandKeeps(disk, blob, ranges[..n]);
      assert forall i | 0 <= i < n :: ranges[..n][i] == ranges[i];
      hide WriteAt, Slice;
    }
  }
}
