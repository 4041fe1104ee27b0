/** Directory sync as a transformer of the destination: what is planned, transferred and deleted. */
module Sync {
  import opened Types

  datatype Method = Always | Size | SizeAndMtime | Md5

  /** A local file; `modified` is in nanoseconds since the epoch, `md5` what hashing it would give. */
  datatype LocalFile = LocalFile(size: nat, modified: Option<int>, md5: string)

  /** A listed blob; `modified` has whole-second precision. */
  datatype Remote = Remote(size: nat, modified: Option<int>, md5: Option<string>)

  const NANOS: int := 1_000_000_000

  /** DateTime::timestamp */
  function Seconds(ns: int): int { ns / NANOS }

  predicate NeedsUpload(method_: Method, l: LocalFile, remote: Option<Remote>) {
    match remote
    case None => true
    case Some(r) =>
      match method_
      case Always => true
      case Size => r.size != l.size
      case SizeAndMtime =>
        r.size != l.size || l.modified.None? || r.modified.None? || Seconds(l.modified.value) > r.modified.value
      case Md5 => r.size != l.size || r.md5.None? || l.md5 != r.md5.value
  }

  predicate NeedsDownload(method_: Method, r: Remote, local: Option<LocalFile>) {
    match local
    case None => true
    case Some(l) =>
      match method_
      case Always => true
      case Size => l.size != r.size
      case SizeAndMtime =>
        l.size != r.size || l.modified.None? || r.modified.None? || r.modified.value * NANOS > l.modified.value
      case Md5 => l.size != r.size || r.md5.None? || l.md5 != r.md5.value
  }

  // ---- names

  function TrimStartSlash(s: string): string {
    if s != [] && s[0] == '/' then TrimStartSlash(s[1..]) else s
  }

  function TrimEndSlash(s: string): string {
    if s != [] && s[|s| - 1] == '/' then TrimEndSlash(s[..|s| - 1]) else s
  }

  /** The name below the synced path. */
  function Relative(name: string, path: string): string {
    TrimStartSlash(if path <= name then name[|path|..] else name)
  }

  /** What follows the path, or the whole name when it does not start with the path, without its leading slashes. */
  lemma RelativeIs(name: string, path: string) returns (k: nat)
    ensures var s := if path <= name then name[|path|..] else name;
            k <= |s| && (forall i | 0 <= i < k :: s[i] == '/') && (k < |s| ==> s[k] != '/') && Relative(name, path) == s[k..]
  {
    k := LeadingSlashes(if path <= name then name[|path|..] else name);
  }

  lemma {:induction false} LeadingSlashes(s: string) returns (k: nat)
    ensures k <= |s| && (forall i | 0 <= i < k :: s[i] == '/') && (k < |s| ==> s[k] != '/') && TrimStartSlash(s) == s[k..]
  {
    k := 0;
    if s != [] && s[0] == '/' {
      k := LeadingSlashes(s[1..]);
      k := k + 1;
    }
  }

  /** The blob an uploaded or deleted file goes by. */
  function Target(rel: string, path: string): string {
    if path == [] then rel else TrimEndSlash(path) + "/" + rel
  }

  predicate GoodRel(rel: string) { rel != [] && rel[0] != '/' }

  /** What reading a name below a path gives: nothing, for a blob named like the path, or a good relative name. */
  predicate Stripped(rel: string) { rel == [] || GoodRel(rel) }

  /** At most one trailing slash. */
  predicate GoodPath(path: string) {
    |path| <= |TrimEndSlash(path)| + 1
  }

  lemma {:induction false} TrimmedEnd(path: string)
    ensures var t := TrimEndSlash(path);
            t <= path && (t != [] ==> t[|t| - 1] != '/') && forall i | |t| <= i < |path| :: path[i] == '/'
  {
    if path != [] && path[|path| - 1] == '/' {
      TrimmedEnd(path[..|path| - 1]);
    }
  }

  lemma {:induction false} TrimmedStart(slashes: string, rel: string)
    requires Stripped(rel) && forall i | 0 <= i < |slashes| :: slashes[i] == '/'
    ensures TrimStartSlash(slashes + rel) == rel
  {
    if slashes == [] {
      assert slashes + rel == rel;
    } else {
      TrimmedStart(slashes[1..], rel);
      assert (slashes + rel)[1..] == slashes[1..] + rel;
    }
  }

  lemma {:induction false} TrimStrips(s: string)
    ensures Stripped(TrimStartSlash(s))
  {
    if s != [] && s[0] == '/' {
      TrimStrips(s[1..]);
    }
  }

  /**
    An uploaded file is found again exactly when the path has at most one trailing slash: its blob is listed under
    the path, and there it reads back as the name it was uploaded for.
  */
  lemma TargetReadsBack(rel: string, path: string)
    requires Stripped(rel)
    ensures path <= Target(rel, path) && Relative(Target(rel, path), path) == rel <==> GoodPath(path)
    ensures path <= Target(rel, path) <==> GoodPath(path)
  {
    var t := TrimEndSlash(path);
    var name := Target(rel, path);
    TrimmedEnd(path);
    if path != [] {
      assert name == t + "/" + rel;
      if |path| <= |t| + 1 {
        assert path <= name;
        assert name[|path|..] == (if |path| == |t| then "/" else "") + rel;
        TrimmedStart(if |path| == |t| then "/" else "", rel);
      } else {
        NotPrefix(rel, path, t);
      }
    }
  }

  lemma NotPrefix(rel: string, path: string, t: string)
    requires Stripped(rel) && t <= path && |path| > |t| + 1 && forall i | |t| <= i < |path| :: path[i] == '/'
    ensures !(path <= t + "/" + rel)
  {
    if rel != [] {
      assert (t + "/" + rel)[|t| + 1] == rel[0];
      assert path[|t| + 1] == '/';
    }
  }

  lemma TargetInjective(a: string, b: string, path: string)
    requires Target(a, path) == Target(b, path)
    ensures a == b
  {
    if path != [] {
      var t := TrimEndSlash(path) + "/";
      assert (t + a)[|t|..] == a && (t + b)[|t|..] == b;
    }
  }

  /** Below the path only one relative name has a given target. */
  lemma OwnTarget(q: string, path: string, n: string)
    requires Stripped(q) && Target(q, path) == n && path <= n
    ensures GoodPath(path) && q == Relative(n, path)
  {
    TargetReadsBack(q, path);
  }

  // ---- the two sides

  type Store = map<string, Remote>

  type Local = map<string, LocalFile>

  predicate GoodNames(local: Local) { forall r | r in local :: GoodRel(r) }

  /** The listed blobs with one relative name: the listing is by raw prefix, so there may be several. */
  function Names(store: Store, path: string, r: string): set<string> {
    set n | n in store && path <= n && Relative(n, path) == r
  }

  lemma NamesStripped(store: Store, path: string, r: string)
    requires Names(store, path, r) != {}
    ensures Stripped(r)
  {
    var n :| n in Names(store, path, r);
    TrimStrips(if path <= n then n[|path|..] else n);
  }

  /** Of some names, the one that stands last in a listing. */
  ghost function Last(names: set<string>, place: string -> real): (n: string)
    requires names != {}
    ensures n in names && forall m | m in names :: place(m) <= place(n)
  {
    SomeLast(names, place);
    var n :| IsLast(names, place, n);
    n
  }

  predicate IsLast(names: set<string>, place: string -> real, n: string) {
    n in names && forall m | m in names :: place(m) <= place(n)
  }

  lemma {:induction false} SomeLast(names: set<string>, place: string -> real)
    requires names != {}
    ensures exists n :: IsLast(names, place, n)
    decreases |names|
  {
    var first :| first in names;
    var rest := names - {first};
    assert names == rest + {first};
    if rest == {} {
      assert IsLast(names, place, first);
    } else {
      SomeLast(rest, place);
      var last :| IsLast(rest, place, last);
      assert IsLast(names, place, if place(last) < place(first) then first else last);
    }
  }

  ghost predicate OneOrder(place: string -> real) {
    forall m, n | place(m) == place(n) :: m == n
  }

  lemma LastIs(names: set<string>, place: string -> real, n: string)
    requires OneOrder(place) && n in names && forall m | m in names :: place(m) <= place(n)
    ensures Last(names, place) == n
  {
    var last := Last(names, place);
    assert place(n) <= place(last);
  }

  /** The listing below the path that passes the filter, by relative name; of several, the last listed stays. */
  ghost function RemoteIndex(store: Store, path: string, keep: string -> bool, place: string -> real): (m: Store)
    ensures forall r :: r in m <==> keep(r) && Names(store, path, r) != {}
    ensures forall r | r in m :: m[r] == store[Last(Names(store, path, r), place)]
  {
    ListedSomewhere(store, path);
    map n | n in store && path <= n && keep(Relative(n, path)) ::
      Relative(n, path) := store[Last(Names(store, path, Relative(n, path)), place)]
  }

  lemma ListedSomewhere(store: Store, path: string)
    ensures forall n | n in store && path <= n :: n in Names(store, path, Relative(n, path))
  {
  }

  ghost predicate Lists(store: Store, path: string, place: string -> real, listing: seq<string>) {
    && (forall i | 0 <= i < |listing| :: listing[i] in store && path <= listing[i])
    && (forall n | n in store && path <= n :: n in listing)
    && (forall i, j | 0 <= i < j < |listing| :: place(listing[i]) < place(listing[j]))
  }

  /** The i-th prefix of the listing has its last blob of relative name `r` at `j`. */
  ghost predicate LatestAt(listing: seq<string>, path: string, i: nat, r: string, j: nat) {
    && j < i <= |listing| && Relative(listing[j], path) == r
    && forall k | j < k < i :: Relative(listing[k], path) != r
  }

  ghost predicate TakenFrom(store: Store, path: string, listing: seq<string>, i: nat, m: Store, r: string, j: nat) {
    LatestAt(listing, path, i, r, j) && listing[j] in store && r in m && m[r] == store[listing[j]]
  }

  /** `m` indexes the first `i` blobs of the listing. */
  ghost predicate Indexed(store: Store, path: string, keep: string -> bool, listing: seq<string>, i: nat, m: Store) {
    && i <= |listing|
    && (forall j | 0 <= j < i && keep(Relative(listing[j], path)) :: Relative(listing[j], path) in m)
    && (forall r | r in m :: keep(r) && exists j: nat :: TakenFrom(store, path, listing, i, m, r, j))
  }

  /** remote_index: the pairs of the listing, in order, collected into a map. */
  method IndexListing(store: Store, path: string, keep: string -> bool, listing: seq<string>, ghost place: string -> real)
    returns (m: Store)
    requires OneOrder(place) && Lists(store, path, place, listing)
    ensures m == RemoteIndex(store, path, keep, place)
  {
    hide Indexed, Relative, RemoteIndex, OneOrder;
    m := map[];
    var i := 0;
    assert Indexed(store, path, keep, listing, 0, m) by { NoneIndexed(store, path, keep, listing); }
    while i < |listing|
      invariant 0 <= i <= |listing| && Indexed(store, path, keep, listing, i, m)
    {
      IndexedNext(store, path, keep, listing, i, m);
      var r := Relative(listing[i], path);
      if keep(r) {
        m := m[r := store[listing[i]]];
      }
      i := i + 1;
    }
    IndexedAll(store, path, keep, listing, place, m);
  }

  lemma NoneIndexed(store: Store, path: string, keep: string -> bool, listing: seq<string>)
    ensures Indexed(store, path, keep, listing, 0, map[])
  {
  }

  lemma IndexedNext(store: Store, path: string, keep: string -> bool, listing: seq<string>, i: nat, m: Store)
    requires i < |listing| && listing[i] in store && Indexed(store, path, keep, listing, i, m)
    ensures var r := Relative(listing[i], path);
            Indexed(store, path, keep, listing, i + 1, if keep(r) then m[r := store[listing[i]]] else m)
  {
    hide Relative;
    var r := Relative(listing[i], path);
    var next: Store := if keep(r) then m[r := store[listing[i]]] else m;
    var i': nat := i + 1;
    forall q | q in next
      ensures keep(q) && exists j: nat :: TakenFrom(store, path, listing, i', next, q, j)
    {
      if q == r && keep(r) {
        assert TakenFrom(store, path, listing, i', next, q, i);
      } else {
        var j: nat :| TakenFrom(store, path, listing, i, m, q, j);
        assert TakenFrom(store, path, listing, i', next, q, j);
      }
    }
  }

  lemma IndexedAll(store: Store, path: string, keep: string -> bool, listing: seq<string>, place: string -> real, m: Store)
    requires OneOrder(place) && Lists(store, path, place, listing) && Indexed(store, path, keep, listing, |listing|, m)
    ensures m == RemoteIndex(store, path, keep, place)
  {
    hide Relative, OneOrder, RemoteIndex, Names, Last, Lists, Indexed;
    var index := RemoteIndex(store, path, keep, place);
    forall r
      ensures r in m <==> r in index
      ensures r in m ==> m[r] == index[r]
    {
      IndexedAt(store, path, keep, listing, place, m, r);
    }
  }

  lemma IndexedAt(store: Store, path: string, keep: string -> bool, listing: seq<string>, place: string -> real, m: Store, r: string)
    requires OneOrder(place) && Lists(store, path, place, listing) && Indexed(store, path, keep, listing, |listing|, m)
    ensures r in m <==> keep(r) && Names(store, path, r) != {}
    ensures r in m ==> m[r] == store[Last(Names(store, path, r), place)]
  {
    hide Relative, OneOrder, Last;
    if r in m {
      var j: nat :| TakenFrom(store, path, listing, |listing|, m, r, j);
      LatestIsLast(store, path, place, listing, r, j);
    }
    if n :| n in Names(store, path, r) {
      assert n in listing;
    }
  }

  lemma LatestIsLast(store: Store, path: string, place: string -> real, listing: seq<string>, r: string, j: nat)
    requires OneOrder(place) && Lists(store, path, place, listing) && LatestAt(listing, path, |listing|, r, j)
    ensures listing[j] in Names(store, path, r) && Last(Names(store, path, r), place) == listing[j]
  {
    hide Relative, OneOrder;
    forall n | n in Names(store, path, r)
      ensures place(n) <= place(listing[j])
    {
      var k :| 0 <= k < |listing| && listing[k] == n;
    }
    LastIs(Names(store, path, r), place, listing[j]);
  }

  function Lookup<V>(m: map<string, V>, r: string): Option<V> { if r in m then Some(m[r]) else None }

  // ---- local to blob

  datatype Args = Args(method_: Method, path: string, keep: string -> bool, deleteDestination: bool)

  function ToUpload(a: Args, local: Local, remote: Store): set<string> {
    set r | r in local && a.keep(r) && NeedsUpload(a.method_, local[r], Lookup(remote, r))
  }

  /** What the service records for each upload, and the place of each name in its listings. */
  datatype Service = Service(stamp: string -> int, md5: string -> Option<string>, place: string -> real)
  {
    function Stored(r: string, l: LocalFile): Remote { Remote(l.size, Some(stamp(r)), md5(r)) }
  }

  function Uploaded(a: Args, local: Local, names: set<string>, svc: Service): (m: Store)
    requires forall r | r in names :: r in local
    ensures forall n :: n in m <==> exists r :: r in names && Target(r, a.path) == n
    ensures forall r | r in names :: Target(r, a.path) in m && m[Target(r, a.path)] == svc.Stored(r, local[r])
  {
    UploadNames(a, names);
    map r | r in names :: Target(r, a.path) := svc.Stored(r, local[r])
  }

  lemma UploadNames(a: Args, names: set<string>)
    ensures forall r, q | r in names && q in names && Target(r, a.path) == Target(q, a.path) :: r == q
  {
    forall r, q | r in names && q in names && Target(r, a.path) == Target(q, a.path)
      ensures r == q
    {
      TargetInjective(r, q, a.path);
    }
  }

  /** Blobs of the listing without a local file, by the names they should have; the local listing is not filtered here. */
  function Stale(a: Args, local: Local, remote: Store): set<string> {
    if a.deleteDestination then set r | r in remote && r !in local :: Target(r, a.path) else {}
  }

  ghost function Seen(a: Args, store: Store, svc: Service): Store {
    RemoteIndex(store, a.path, a.keep, svc.place)
  }

  ghost function Uploads(a: Args, local: Local, store: Store, svc: Service): set<string> {
    ToUpload(a, local, Seen(a, store, svc))
  }

  /** The destination after a sync in which every transfer and every deletion succeeds. */
  ghost function SyncUp(a: Args, local: Local, store: Store, svc: Service): Store {
    (store + Uploaded(a, local, Uploads(a, local, store, svc), svc)) - Stale(a, local, Seen(a, store, svc))
  }

  /** The diff loop over the filtered local files, in whatever order the tasks finish. */
  method PlanUploads(a: Args, local: Local, remote: Store) returns (toUpload: set<string>, skipped: nat)
    ensures toUpload == ToUpload(a, local, remote)
    ensures skipped == |set r | r in local && a.keep(r)| - |toUpload|
  {
    var files := set r | r in local && a.keep(r);
    var left := files;
    toUpload, skipped := {}, 0;
    while left != {}
      invariant left <= files && toUpload <= files - left
      invariant forall r | r in files - left :: r in toUpload <==> NeedsUpload(a.method_, local[r], Lookup(remote, r))
      invariant skipped + |toUpload| + |left| == |files|
      decreases |left|
    {
      var r :| r in left;
      left := left - {r};
      if NeedsUpload(a.method_, local[r], Lookup(remote, r)) {
        toUpload := toUpload + {r};
      } else {
        skipped := skipped + 1;
      }
    }
  }

  /** The deletions take the blob that a name without a local file should have. */
  ghost predicate Gone(a: Args, local: Local, store: Store, r: string) {
    a.deleteDestination && a.keep(r) && Names(store, a.path, r) != {} && r !in local
  }

  lemma UploadedAt(a: Args, local: Local, names: set<string>, svc: Service, n: string)
    requires GoodNames(local) && a.path <= n && forall r | r in names :: r in local
    ensures var r := Relative(n, a.path);
            var m := Uploaded(a, local, names, svc);
            && (n in m <==> r in names && n == Target(r, a.path))
            && (n in m ==> m[n] == svc.Stored(r, local[r]))
  {
    if n in Uploaded(a, local, names, svc) {
      var q :| q in names && Target(q, a.path) == n;
      OwnTarget(q, a.path, n);
    }
  }

  lemma StaleAt(a: Args, local: Local, store: Store, svc: Service, n: string)
    requires a.path <= n
    ensures var r := Relative(n, a.path);
            n in Stale(a, local, Seen(a, store, svc)) <==> Gone(a, local, store, r) && n == Target(r, a.path)
  {
    hide RemoteIndex, Names;
    if n in Stale(a, local, Seen(a, store, svc)) {
      var q :| q in Seen(a, store, svc) && q !in local && Target(q, a.path) == n;
      NamesStripped(store, a.path, q);
      OwnTarget(q, a.path, n);
    }
  }

  /** What the destination holds under a name below the path after the sync. */
  lemma AfterAt(a: Args, local: Local, store: Store, svc: Service, n: string)
    requires GoodNames(local) && a.path <= n
    ensures var r := Relative(n, a.path);
            var after := SyncUp(a, local, store, svc);
            var mine := n == Target(r, a.path);
            && (r in Uploads(a, local, store, svc) && mine ==> n in after && after[n] == svc.Stored(r, local[r]))
            && (!(r in Uploads(a, local, store, svc) && mine) ==>
                  (n in after <==> n in store && !(mine && Gone(a, local, store, r))) && (n in after ==> after[n] == store[n]))
  {
    hide Uploaded, Stale, Seen, Target, Relative, Gone, Uploads;
    UploadsLocal(a, local, store, svc);
    UploadedAt(a, local, Uploads(a, local, store, svc), svc, n);
    StaleAt(a, local, store, svc, n);
    if Gone(a, local, store, Relative(n, a.path)) {
      GoneIs(a, local, store, Relative(n, a.path));
    }
  }

  lemma UploadsLocal(a: Args, local: Local, store: Store, svc: Service)
    ensures forall r | r in Uploads(a, local, store, svc) :: r in local && a.keep(r)
  {
    hide Seen;
  }

  lemma GoneIs(a: Args, local: Local, store: Store, r: string)
    requires Gone(a, local, store, r)
    ensures r !in local && a.keep(r)
  {
  }

  /** Which names the next listing has for a relative name. */
  lemma NamesAfter(a: Args, local: Local, store: Store, svc: Service, r: string)
    requires GoodNames(local)
    ensures var t := Target(r, a.path);
            Names(SyncUp(a, local, store, svc), a.path, r)
            == if Gone(a, local, store, r) then Names(store, a.path, r) - {t}
               else if r in Uploads(a, local, store, svc) && GoodPath(a.path) then Names(store, a.path, r) + {t}
               else Names(store, a.path, r)
  {
    hide SyncUp, Uploads, Gone, GoodPath, Target, Relative;
    var t := Target(r, a.path);
    if Gone(a, local, store, r) {
      GoneIs(a, local, store, r);
    }
    if r in Uploads(a, local, store, svc) {
      UploadsAre(a, local, store, svc, r);
      TargetReadsBack(r, a.path);
    }
    forall n | a.path <= n && Relative(n, a.path) == r
      ensures n in SyncUp(a, local, store, svc)
              <==> (n in store && !(n == t && Gone(a, local, store, r))) || (n == t && r in Uploads(a, local, store, svc))
    {
      AfterAt(a, local, store, svc, n);
    }
  }

  lemma UploadsAre(a: Args, local: Local, store: Store, svc: Service, r: string)
    requires GoodNames(local) && r in Uploads(a, local, store, svc)
    ensures r in local && a.keep(r) && Stripped(r)
  {
    hide Uploads;
    UploadsLocal(a, local, store, svc);
  }

  /** What the listing below the path shows after a sync. */
  ghost function Again(a: Args, local: Local, store: Store, svc: Service): Store {
    Seen(a, SyncUp(a, local, store, svc), svc)
  }

  /** What a second sync in the same direction plans, nothing else having happened. */
  ghost function SecondPlan(a: Args, local: Local, store: Store, svc: Service): set<string> {
    ToUpload(a, local, Again(a, local, store, svc))
  }

  /** A file that has just been uploaded would not be uploaded again. */
  predicate Settled(a: Args, l: LocalFile, r: Remote) { !NeedsUpload(a.method_, l, Some(r)) }

  /**
    The next listing does not show the upload of a file: its name is not below the path as given, or another listed
    blob reads as the same relative name and stands behind it.
  */
  ghost predicate Hidden(store: Store, path: string, r: string, place: string -> real) {
    !GoodPath(path) || exists n :: n in Names(store, path, r) && place(n) > place(Target(r, path))
  }

  /** After the sync the listing shows the upload's record, or what it showed before. */
  lemma FoundAgain(a: Args, local: Local, store: Store, svc: Service, r: string)
    requires GoodNames(local) && OneOrder(svc.place) && r in local && a.keep(r)
    ensures Lookup(Again(a, local, store, svc), r)
            == if r in Uploads(a, local, store, svc) && !Hidden(store, a.path, r, svc.place)
               then Some(svc.Stored(r, local[r])) else Lookup(Seen(a, store, svc), r)
  {
    hide SyncUp, Uploads, GoodPath, Gone, Target, Relative;
    var before, t := Names(store, a.path, r), Target(r, a.path);
    var after := SyncUp(a, local, store, svc);
    NamesAfter(a, local, store, svc, r);
    assert !Gone(a, local, store, r) by {
      if Gone(a, local, store, r) {
        GoneIs(a, local, store, r);
      }
    }
    TargetReadsBack(r, a.path);
    if r in Uploads(a, local, store, svc) && GoodPath(a.path) {
      AfterAt(a, local, store, svc, t);
      if n :| n in before && svc.place(n) > svc.place(t) {
        var last := Last(before, svc.place);
        LastIs(before + {t}, svc.place, last);
        AfterAt(a, local, store, svc, last);
      } else {
        LastIs(before + {t}, svc.place, t);
      }
    } else if before != {} {
      AfterAt(a, local, store, svc, Last(before, svc.place));
    }
  }

  /**
    A second sync plans exactly the files of the first whose upload the listing does not show, or whose upload's
    record does not settle the comparison.
  */
  lemma SecondUpload(a: Args, local: Local, store: Store, svc: Service)
    requires GoodNames(local) && OneOrder(svc.place)
    ensures SecondPlan(a, local, store, svc)
            == set r | r in Uploads(a, local, store, svc)
                       && (Hidden(store, a.path, r, svc.place) || !Settled(a, local[r], svc.Stored(r, local[r])))
  {
    hide SecondPlan, Settled, Hidden, Seen;
    forall r
      ensures r in SecondPlan(a, local, store, svc)
              <==> r in Uploads(a, local, store, svc)
                   && (Hidden(store, a.path, r, svc.place) || !Settled(a, local[r], svc.Stored(r, local[r])))
    {
      PlannedAgain(a, local, store, svc, r);
    }
  }

  lemma PlannedAgain(a: Args, local: Local, store: Store, svc: Service, r: string)
    requires GoodNames(local) && OneOrder(svc.place)
    ensures r in SecondPlan(a, local, store, svc)
            <==> r in Uploads(a, local, store, svc)
                 && (Hidden(store, a.path, r, svc.place) || !Settled(a, local[r], svc.Stored(r, local[r])))
  {
    if r in local && a.keep(r) {
      FoundAgain(a, local, store, svc, r);
      hide Again, Seen, Hidden;
    }
  }

  /** When every listed blob has the name an upload would give it, no upload below a clean path is hidden. */
  lemma CleanListing(store: Store, path: string, r: string, place: string -> real)
    requires GoodPath(path) && forall n | n in store && path <= n :: n == Target(Relative(n, path), path)
    ensures !Hidden(store, path, r, place)
  {
    hide Target, Relative, GoodPath;
  }

  /** Comparing sizes, the second sync plans nothing exactly when the listing shows every upload of the first. */
  lemma UploadConvergesBySize(a: Args, local: Local, store: Store, svc: Service)
    requires GoodNames(local) && OneOrder(svc.place) && a.method_ == Size
    ensures SecondPlan(a, local, store, svc) == {}
            <==> forall r | r in Uploads(a, local, store, svc) :: !Hidden(store, a.path, r, svc.place)
  {
    hide SecondPlan, Uploads, Hidden, Settled, OneOrder;
    SecondUpload(a, local, store, svc);
    forall r | r in Uploads(a, local, store, svc)
      ensures r in SecondPlan(a, local, store, svc) <==> Hidden(store, a.path, r, svc.place)
    {
      UploadsAre(a, local, store, svc, r);
      SettledBySize(a, local[r], svc, r);
    }
  }

  lemma SettledBySize(a: Args, l: LocalFile, svc: Service, r: string)
    requires a.method_ == Size
    ensures Settled(a, l, svc.Stored(r, l))
  {
  }

  /** Comparing times too, no uploaded file may be newer than its own upload either. */
  lemma UploadConvergesByTime(a: Args, local: Local, store: Store, svc: Service)
    requires GoodNames(local) && OneOrder(svc.place) && a.method_ == SizeAndMtime
    ensures SecondPlan(a, local, store, svc) == {}
            <==> forall r | r in Uploads(a, local, store, svc) ::
                   && !Hidden(store, a.path, r, svc.place)
                   && r in local && local[r].modified.Some? && Seconds(local[r].modified.value) <= svc.stamp(r)
  {
    SecondUpload(a, local, store, svc);
    hide SecondPlan, Uploads, Hidden, Settled, Seconds;
    forall r | r in Uploads(a, local, store, svc)
      ensures r in local
      ensures r in SecondPlan(a, local, store, svc)
              <==> !(!Hidden(store, a.path, r, svc.place)
                     && local[r].modified.Some? && Seconds(local[r].modified.value) <= svc.stamp(r))
    {
      UploadsAre(a, local, store, svc, r);
      SettledByTime(a, local[r], svc, r);
    }
  }

  lemma SettledByTime(a: Args, l: LocalFile, svc: Service, r: string)
    requires a.method_ == SizeAndMtime
    ensures Settled(a, l, svc.Stored(r, l)) <==> l.modified.Some? && Seconds(l.modified.value) <= svc.stamp(r)
  {
  }

  /**
    Comparing sizes, the second sync plans nothing for every local side exactly when no name that passes the filter
    is hidden: the path has at most one trailing slash, and behind no name's blob stands another that reads the same.
  */
  lemma ConvergenceIff(a: Args, store: Store, svc: Service)
    requires OneOrder(svc.place) && a.method_ == Size
    ensures (forall local: Local | GoodNames(local) :: SecondPlan(a, local, store, svc) == {})
            <==> forall r | GoodRel(r) && a.keep(r) :: !Hidden(store, a.path, r, svc.place)
  {
    hide SecondPlan, Hidden, Seen;
    if forall r | GoodRel(r) && a.keep(r) :: !Hidden(store, a.path, r, svc.place) {
      forall local: Local | GoodNames(local)
        ensures SecondPlan(a, local, store, svc) == {}
      {
        UploadConvergesBySize(a, local, store, svc);
      }
    } else {
      var r :| GoodRel(r) && a.keep(r) && Hidden(store, a.path, r, svc.place);
      var old' := Lookup(Seen(a, store, svc), r);
      var local: Local := map[r := LocalFile(if old'.Some? then old'.value.size + 1 else 0, None, "")];
      assert GoodNames(local) && r in Uploads(a, local, store, svc);
      UploadConvergesBySize(a, local, store, svc);
    }
  }

  /** With two or more trailing slashes a sync never sees what it uploads, so the next one plans the same again. */
  lemma DirtyPathPlansTheSame(a: Args, local: Local, store: Store, svc: Service)
    requires GoodNames(local) && OneOrder(svc.place) && !GoodPath(a.path)
    ensures SecondPlan(a, local, store, svc) == Uploads(a, local, store, svc)
    ensures forall r | r in Uploads(a, local, store, svc) :: !(a.path <= Target(r, a.path))
    ensures (forall n | n in store :: !(a.path <= n)) ==> SecondPlan(a, local, store, svc) == set r | r in local && a.keep(r)
  {
    hide SecondPlan, Settled, GoodPath, Target, Uploads, OneOrder, GoodNames;
    SecondUpload(a, local, store, svc);
    forall r | r in Uploads(a, local, store, svc)
      ensures !(a.path <= Target(r, a.path)) && Hidden(store, a.path, r, svc.place)
    {
      UploadsAre(a, local, store, svc, r);
      TargetReadsBack(r, a.path);
    }
    if forall n | n in store :: !(a.path <= n) {
      AllUploaded(a, local, store, svc);
    }
  }

  /** With nothing listed everything is uploaded. */
  lemma AllUploaded(a: Args, local: Local, store: Store, svc: Service)
    requires forall n | n in store :: !(a.path <= n)
    ensures Uploads(a, local, store, svc) == set r | r in local && a.keep(r)
  {
    assert forall r :: Names(store, a.path, r) == {};
    assert Seen(a, store, svc) == map[];
  }

  function DoubleSlash(): Args { Args(Size, "//", _ => true, false) }

  function OneFile(r: string): Local { map[r := LocalFile(1, None, "")] }

  /** One file, uploaded into an empty destination below such a path. */
  lemma LostUpload(a: Args, r: string, svc: Service)
    requires OneOrder(svc.place) && GoodRel(r) && a.keep(r) && !GoodPath(a.path)
    ensures SyncUp(a, OneFile(r), map[], svc).Keys == {Target(r, a.path)}
    ensures SecondPlan(a, OneFile(r), map[], svc) == {r}
  {
    hide SecondPlan, SyncUp, Target, GoodPath, OneOrder;
    assert GoodNames(OneFile(r));
    DirtyPathPlansTheSame(a, OneFile(r), map[], svc);
    FirstUpload(a, OneFile(r), svc);
  }

  /** The shortest such path: the upload of `r` below `//` lands at `/r`, and the next sync uploads it again. */
  lemma DoubleSlashUploadsAgain(svc: Service)
    requires OneOrder(svc.place)
    ensures SyncUp(DoubleSlash(), OneFile("r"), map[], svc).Keys == {"/r"}
    ensures SecondPlan(DoubleSlash(), OneFile("r"), map[], svc) == {"r"}
  {
    hide SecondPlan, SyncUp, Target, GoodPath, OneOrder, OneFile;
    SlashTarget();
    LostUpload(DoubleSlash(), "r", svc);
  }

  lemma SlashTarget()
    ensures Target("r", "//") == "/r" && !GoodPath("//")
  {
    assert "//"[..1] == "/" && "/"[..0] == "";
    assert TrimEndSlash("//") == "";
  }

  /** Into an empty destination everything is uploaded. */
  lemma FirstUpload(a: Args, local: Local, svc: Service)
    ensures SyncUp(a, local, map[], svc).Keys == set r | r in local && a.keep(r) :: Target(r, a.path)
  {
    assert Seen(a, map[], svc) == map[];
    assert Uploads(a, local, map[], svc) == set r | r in local && a.keep(r);
  }

  function Sibling(): Store { map["data2/x" := Remote(9, None, None)] }

  function Data(): Args { Args(Size, "data", _ => true, false) }

  /** One file, behind whose blob another of another size stands that reads the same. */
  lemma ShadowedUpload(a: Args, r: string, store: Store, n: string, svc: Service)
    requires OneOrder(svc.place) && GoodRel(r) && a.keep(r) && a.method_ == Size
    requires Names(store, a.path, r) == {n} && n in store && store[n].size != 1 && svc.place(Target(r, a.path)) < svc.place(n)
    ensures SecondPlan(a, OneFile(r), store, svc) == {r}
  {
    hide SecondPlan, Target, GoodPath, Relative, OneOrder, Names;
    assert GoodNames(OneFile(r));
    SecondUpload(a, OneFile(r), store, svc);
    assert Last({n}, svc.place) == n;
    assert Uploads(a, OneFile(r), store, svc) == {r};
    assert n in Names(store, a.path, r);
  }

  /**
    A clean path is not enough: below `data` the blob `data2/x` reads as `2/x` and stands behind `data/2/x` in name
    order, so the file `2/x` is uploaded by every sync.
  */
  lemma SiblingUploadsAgain(svc: Service)
    requires OneOrder(svc.place) && svc.place("data/2/x") < svc.place("data2/x")
    ensures GoodPath("data") && SecondPlan(Data(), OneFile("2/x"), Sibling(), svc) == {"2/x"}
  {
    hide SecondPlan, Target, GoodPath, Relative, OneOrder, Names, OneFile;
    SiblingNames();
    ShadowedUpload(Data(), "2/x", Sibling(), "data2/x", svc);
  }

  lemma SiblingNames()
    ensures Names(Sibling(), "data", "2/x") == {"data2/x"}
    ensures Target("2/x", "data") == "data/2/x" && GoodPath("data")
  {
    assert "data2/x"[|"data"|..] == "2/x";
    assert TrimEndSlash("data") == "data";
  }

  // ---- what an upload achieves

  /** Exactly the filtered files are planned that the listing does not show as the method wants them. */
  lemma UploadPlanIs(a: Args, local: Local, store: Store, svc: Service, r: string)
    ensures var seen := Seen(a, store, svc);
            && (r in Uploads(a, local, store, svc) ==> r in local && a.keep(r))
            && (r in local && a.keep(r) ==>
                  && (r !in seen ==> r in Uploads(a, local, store, svc))
                  && (r in seen ==>
                        match a.method_
                        case Always => r in Uploads(a, local, store, svc)
                        case Size => r !in Uploads(a, local, store, svc) <==> seen[r].size == local[r].size
                        case SizeAndMtime =>
                          r !in Uploads(a, local, store, svc)
                          <==> seen[r].size == local[r].size && local[r].modified.Some? && seen[r].modified.Some?
                               && local[r].modified.value < (seen[r].modified.value + 1) * NANOS
                        case Md5 =>
                          r !in Uploads(a, local, store, svc)
                          <==> seen[r].size == local[r].size && seen[r].md5 == Some(local[r].md5)))
  {
    hide Seen;
  }

  /** After the sync every filtered file that is not hidden is listed with its own size, by every method. */
  lemma UploadSizes(a: Args, local: Local, store: Store, svc: Service, r: string)
    requires GoodNames(local) && OneOrder(svc.place) && r in local && a.keep(r) && !Hidden(store, a.path, r, svc.place)
    ensures r in Again(a, local, store, svc) && Again(a, local, store, svc)[r].size == local[r].size
  {
    FoundAgain(a, local, store, svc, r);
    UploadPlanIs(a, local, store, svc, r);
    hide Again, Seen, Uploads, Hidden, OneOrder;
  }

  /** By digest, with a service that records the digests of the uploads, it is listed with its own digest. */
  lemma UploadDigests(a: Args, local: Local, store: Store, svc: Service, r: string)
    requires GoodNames(local) && OneOrder(svc.place) && r in local && a.keep(r) && !Hidden(store, a.path, r, svc.place)
    requires a.method_ == Md5 && forall q | q in Uploads(a, local, store, svc) && q in local :: svc.md5(q) == Some(local[q].md5)
    ensures r in Again(a, local, store, svc) && Again(a, local, store, svc)[r].size == local[r].size
    ensures Again(a, local, store, svc)[r].md5 == Some(local[r].md5)
  {
    FoundAgain(a, local, store, svc, r);
    UploadPlanIs(a, local, store, svc, r);
    hide Again, Seen, Uploads, Hidden, OneOrder;
  }

  /** By time, with uploads dated no earlier than their files, its record is not older than the file, in whole seconds. */
  lemma UploadTimes(a: Args, local: Local, store: Store, svc: Service, r: string)
    requires GoodNames(local) && OneOrder(svc.place) && r in local && a.keep(r) && !Hidden(store, a.path, r, svc.place)
    requires a.method_ == SizeAndMtime
    requires forall q | q in Uploads(a, local, store, svc) && q in local && local[q].modified.Some? ::
               local[q].modified.value < (svc.stamp(q) + 1) * NANOS
    ensures r in Again(a, local, store, svc) && Again(a, local, store, svc)[r].size == local[r].size
    ensures Again(a, local, store, svc)[r].modified.Some?
    ensures local[r].modified.Some? ==> local[r].modified.value < (Again(a, local, store, svc)[r].modified.value + 1) * NANOS
  {
    FoundAgain(a, local, store, svc, r);
    UploadPlanIs(a, local, store, svc, r);
    hide Again, Seen, Uploads, Hidden, OneOrder;
  }

  /** md5_preflight: every filtered file that is listed with contents is listed with a digest. */
  predicate DigestsKnown(a: Args, local: Local, remote: Store) {
    forall r | r in local && a.keep(r) && r in remote && remote[r].size > 0 :: remote[r].md5.Some?
  }

  /**
    When the service records no digest for an upload that the listing shows and that is not empty, the next sync by
    digest is refused.
  */
  lemma NoDigestNoSync(a: Args, local: Local, store: Store, svc: Service, r: string)
    requires GoodNames(local) && OneOrder(svc.place) && !Hidden(store, a.path, r, svc.place)
    requires r in Uploads(a, local, store, svc) && r in local && local[r].size > 0 && svc.md5(r).None?
    ensures !DigestsKnown(a, local, Again(a, local, store, svc))
  {
    UploadPlanIs(a, local, store, svc, r);
    FoundAgain(a, local, store, svc, r);
    hide Again, Seen, Uploads, Hidden, OneOrder;
  }

  /** Which names the listing has after a sync with delete-destination. */
  lemma NameAfter(a: Args, local: Local, store: Store, svc: Service, r: string)
    requires GoodNames(local) && a.deleteDestination
    ensures r in Again(a, local, store, svc)
            <==> a.keep(r) && if r in local then GoodPath(a.path) || r in Seen(a, store, svc)
                              else exists n :: n in Names(store, a.path, r) && n != Target(r, a.path)
  {
    hide SyncUp, GoodPath, Target, Relative, Names, Uploads;
    NamesAfter(a, local, store, svc, r);
    SeenAt(a, store, svc, r);
    SeenAt(a, SyncUp(a, local, store, svc), svc, r);
    if r in local && a.keep(r) && r !in Seen(a, store, svc) {
      NewUpload(a, local, store, svc, r);
    }
    hide Seen;
    var before, t := Names(store, a.path, r), Target(r, a.path);
    if r in Uploads(a, local, store, svc) {
      UploadsAre(a, local, store, svc, r);
      assert t in before + {t};
    }
    if n :| n in before && n != t {
      assert n in before - {t};
    }
  }

  lemma SeenAt(a: Args, store: Store, svc: Service, r: string)
    ensures r in Seen(a, store, svc) <==> a.keep(r) && Names(store, a.path, r) != {}
  {
    hide Names;
  }

  lemma NewUpload(a: Args, local: Local, store: Store, svc: Service, r: string)
    requires r in local && a.keep(r) && r !in Seen(a, store, svc)
    ensures r in Uploads(a, local, store, svc)
  {
    hide Seen;
  }

  /**
    With delete-destination, the names below the path that pass the filter end up the source's exactly when the
    listing shows every upload and every listed blob that has no local file has the name an upload would give it.
  */
  lemma UploadMirrors(a: Args, local: Local, store: Store, svc: Service)
    requires GoodNames(local) && a.deleteDestination
    ensures Again(a, local, store, svc).Keys == (set r | r in local && a.keep(r))
            <==> (forall r | r in local && a.keep(r) :: GoodPath(a.path) || r in Seen(a, store, svc))
                 && forall n | n in store && a.path <= n ::
                      var r := Relative(n, a.path);
                      a.keep(r) && r !in local ==> n == Target(r, a.path)
  {
    hide Again, GoodPath, Target, Relative, Seen;
    var again := Again(a, local, store, svc);
    forall r
      ensures r in again
              <==> a.keep(r) && if r in local then GoodPath(a.path) || r in Seen(a, store, svc)
                                else exists n :: n in Names(store, a.path, r) && n != Target(r, a.path)
    {
      NameAfter(a, local, store, svc, r);
    }
    if again.Keys == (set r | r in local && a.keep(r)) {
      forall n | n in store && a.path <= n && a.keep(Relative(n, a.path)) && Relative(n, a.path) !in local
        ensures n == Target(Relative(n, a.path), a.path)
      {
        assert n in Names(store, a.path, Relative(n, a.path));
        assert Relative(n, a.path) !in again;
      }
      forall r | r in local && a.keep(r)
        ensures GoodPath(a.path) || r in Seen(a, store, svc)
      {
        assert r in again;
      }
    }
  }

  /** Blobs outside the path, and blobs the filter excludes, are as they were; none appear. */
  lemma UploadSparesOthers(a: Args, local: Local, store: Store, svc: Service, n: string)
    requires GoodNames(local) && GoodPath(a.path)
    requires !(a.path <= n) || !a.keep(Relative(n, a.path))
    ensures n in SyncUp(a, local, store, svc) <==> n in store
    ensures n in store ==> SyncUp(a, local, store, svc)[n] == store[n]
  {
    hide GoodPath, Target, Relative;
    if a.path <= n {
      AfterAt(a, local, store, svc, n);
    } else {
      if r :| r in Uploads(a, local, store, svc) && Target(r, a.path) == n {
        TargetReadsBack(r, a.path);
      }
      if r :| r in Seen(a, store, svc) && Target(r, a.path) == n {
        NamesStripped(store, a.path, r);
        TargetReadsBack(r, a.path);
      }
    }
  }

  /** Without delete-destination every blob stays, and changes only when an uploaded file goes by its name. */
  lemma NothingDeleted(a: Args, local: Local, store: Store, svc: Service, n: string)
    requires !a.deleteDestination && n in store
    ensures n in SyncUp(a, local, store, svc)
    ensures SyncUp(a, local, store, svc)[n] == store[n]
            || exists r :: r in local && a.keep(r) && Target(r, a.path) == n && SyncUp(a, local, store, svc)[n] == svc.Stored(r, local[r])
  {
    hide Target, Seen;
    UploadsLocal(a, local, store, svc);
  }

  // ---- blob to local

  function Filtered(local: Local, keep: string -> bool): Local {
    map r | r in local && keep(r) :: local[r]
  }

  /** The listed blobs that pass the filter. */
  function Kept(a: Args, store: Store): set<string> {
    set n | n in store && a.path <= n && a.keep(Relative(n, a.path))
  }

  /** The plan is by blob: blobs with one relative name are compared with the same local file. */
  function ToDownload(a: Args, store: Store, local: Local): set<string> {
    set n | n in Kept(a, store) && NeedsDownload(a.method_, store[n], Lookup(local, Relative(n, a.path)))
  }

  function Sharing(names: set<string>, path: string, r: string): set<string> {
    set n | n in names && Relative(n, path) == r
  }

  /** What the file system records for each download, and which of several downloads to one file stays. */
  datatype Clock = Clock(stamp: string -> int, md5: string -> string, winner: set<string> -> string)
  {
    function Written(r: string, b: Remote): LocalFile { LocalFile(b.size, Some(stamp(r)), md5(r)) }

    ghost predicate Valid() { forall s: set<string> | s != {} :: winner(s) in s }
  }

  function Downloads(a: Args, store: Store, local: Local): set<string> {
    ToDownload(a, store, Filtered(local, a.keep))
  }

  /** The files the downloads leave; a blob named like the path itself has none. */
  ghost function Fetched(a: Args, store: Store, down: set<string>, clock: Clock): (m: Local)
    requires clock.Valid() && forall n | n in down :: n in store
    ensures forall r :: r in m <==> r != [] && Sharing(down, a.path, r) != {}
    ensures forall r | r in m ::
              clock.winner(Sharing(down, a.path, r)) in store
              && m[r] == clock.Written(r, store[clock.winner(Sharing(down, a.path, r))])
  {
    assert forall n | n in down :: n in Sharing(down, a.path, Relative(n, a.path));
    map n | n in down && Relative(n, a.path) != [] ::
      Relative(n, a.path) := clock.Written(Relative(n, a.path), store[clock.winner(Sharing(down, a.path, Relative(n, a.path)))])
  }

  ghost function SyncDown(a: Args, store: Store, local: Local, clock: Clock): Local
    requires clock.Valid()
  {
    (local + Fetched(a, store, Downloads(a, store, local), clock))
    - if a.deleteDestination then Filtered(local, a.keep).Keys - (set n | n in Kept(a, store) :: Relative(n, a.path)) else {}
  }

  method PlanDownloads(a: Args, store: Store, local: Local) returns (toDownload: set<string>, skipped: nat)
    ensures toDownload == ToDownload(a, store, local)
    ensures skipped == |Kept(a, store)| - |toDownload|
  {
    hide Kept, Relative;
    var left := Kept(a, store);
    toDownload, skipped := {}, 0;
    assert left <= store.Keys by { KeptListed(a, store); }
    while left != {}
      invariant left <= Kept(a, store) <= store.Keys && toDownload <= Kept(a, store) - left
      invariant forall n | n in Kept(a, store) - left ::
                  n in toDownload <==> NeedsDownload(a.method_, store[n], Lookup(local, Relative(n, a.path)))
      invariant skipped + |toDownload| + |left| == |Kept(a, store)|
      decreases |left|
    {
      var n :| n in left;
      left := left - {n};
      if NeedsDownload(a.method_, store[n], Lookup(local, Relative(n, a.path))) {
        toDownload := toDownload + {n};
      } else {
        skipped := skipped + 1;
      }
    }
  }

  lemma KeptListed(a: Args, store: Store)
    ensures Kept(a, store) <= store.Keys
  {
  }

  /** The planned blobs that go to one file. */
  function Rivals(a: Args, store: Store, local: Local, r: string): set<string> {
    Sharing(Downloads(a, store, local), a.path, r)
  }

  /** The local side after the sync, name by name. */
  lemma DownResult(a: Args, store: Store, local: Local, clock: Clock, r: string)
    requires clock.Valid()
    ensures var after := SyncDown(a, store, local, clock);
            var s := Rivals(a, store, local, r);
            && (r != [] && s != {} ==>
                  a.keep(r) && r in after && clock.winner(s) in store && after[r] == clock.Written(r, store[clock.winner(s)]))
            && (r == [] || s == {} ==>
                  (r in after <==> r in local && !(a.deleteDestination && a.keep(r)
                                                   && !exists n :: n in Kept(a, store) && Relative(n, a.path) == r))
                  && (r in after ==> after[r] == local[r]))
  {
    hide Relative, NeedsDownload;
    if s :| s in Rivals(a, store, local, r) {
      assert s in Kept(a, store) && Relative(s, a.path) == r;
    }
  }

  /**
    The second sync plans a blob exactly when it has no local name, or when it or one that shares its file was planned
    before and the file as it was left does not settle the comparison.
  */
  lemma SecondDownload(a: Args, store: Store, local: Local, clock: Clock, n: string)
    requires GoodNames(local) && clock.Valid() && n in Kept(a, store)
    ensures var r := Relative(n, a.path);
            var s := Rivals(a, store, local, r);
            n in Downloads(a, store, SyncDown(a, store, local, clock))
            <==> r == [] || (s != {} && clock.winner(s) in store
                             && NeedsDownload(a.method_, store[n], Some(clock.Written(r, store[clock.winner(s)]))))
  {
    hide SyncDown, Relative, NeedsDownload;
    var r := Relative(n, a.path);
    DownResult(a, store, local, clock, r);
    assert a.keep(r);
    hide Kept;
    if n in Downloads(a, store, local) {
      assert n in Rivals(a, store, local, r);
    }
    if r == [] {
      NothingLocal(a.method_, store[n]);
    }
  }

  lemma NothingLocal(method_: Method, b: Remote)
    ensures NeedsDownload(method_, b, None)
  {
  }

  /** The file as it was left settles the comparison with a blob. */
  predicate Fits(a: Args, b: Remote, left: Remote, stamp: int) {
    b.size == left.size && (a.method_ == Size || (b.modified.Some? && b.modified.value * NANOS <= stamp))
  }

  /**
    Comparing sizes or times, a second download plans nothing exactly when every listed blob has a local name and the
    file that was left for it fits: no blob of another size shares it and, comparing times, none is dated later.
  */
  lemma DownloadConverges(a: Args, store: Store, local: Local, clock: Clock)
    requires GoodNames(local) && clock.Valid() && (a.method_ == Size || a.method_ == SizeAndMtime)
    ensures Downloads(a, store, SyncDown(a, store, local, clock)) == {}
            <==> forall n | n in Kept(a, store) ::
                   var r := Relative(n, a.path);
                   var s := Rivals(a, store, local, r);
                   r != [] && (s == {} || (clock.winner(s) in store && Fits(a, store[n], store[clock.winner(s)], clock.stamp(r))))
  {
    hide SyncDown, Relative, NeedsDownload, Kept, Fits, Rivals;
    var second := Downloads(a, store, SyncDown(a, store, local, clock));
    DownloadsKept(a, store, SyncDown(a, store, local, clock));
    forall n | n in Kept(a, store)
      ensures var r := Relative(n, a.path);
              var s := Rivals(a, store, local, r);
              n in second
              <==> !(r != [] && (s == {} || (clock.winner(s) in store && Fits(a, store[n], store[clock.winner(s)], clock.stamp(r)))))
    {
      var r := Relative(n, a.path);
      SecondDownload(a, store, local, clock, n);
      DownResult(a, store, local, clock, r);
      if r != [] && Rivals(a, store, local, r) != {} {
        FitsIs(a, store[n], store[clock.winner(Rivals(a, store, local, r))], clock, r);
      }
    }
    hide Downloads;
  }

  lemma DownloadsKept(a: Args, store: Store, local: Local)
    ensures Downloads(a, store, local) <= Kept(a, store) <= store.Keys
  {
  }

  lemma FitsIs(a: Args, b: Remote, left: Remote, clock: Clock, r: string)
    requires a.method_ == Size || a.method_ == SizeAndMtime
    ensures Fits(a, b, left, clock.stamp(r)) <==> !NeedsDownload(a.method_, b, Some(clock.Written(r, left)))
  {
  }

  /**
    Comparing sizes, a second download plans nothing for every local side exactly when every listed blob has a local
    name and blobs of different sizes never share one.
  */
  lemma DownloadConvergenceIff(a: Args, store: Store, clock: Clock)
    requires clock.Valid() && a.method_ == Size
    ensures (forall local: Local | GoodNames(local) :: Downloads(a, store, SyncDown(a, store, local, clock)) == {})
            <==> (forall n | n in Kept(a, store) :: Relative(n, a.path) != [])
                 && forall m, n | m in Kept(a, store) && n in Kept(a, store) && Relative(m, a.path) == Relative(n, a.path) ::
                      store[m].size == store[n].size
  {
    hide SyncDown, Relative, NeedsDownload;
    if (forall n | n in Kept(a, store) :: Relative(n, a.path) != [])
       && forall m, n | m in Kept(a, store) && n in Kept(a, store) && Relative(m, a.path) == Relative(n, a.path) ::
            store[m].size == store[n].size {
      forall local: Local | GoodNames(local)
        ensures Downloads(a, store, SyncDown(a, store, local, clock)) == {}
      {
        DownloadConverges(a, store, local, clock);
      }
    }
    if forall local: Local | GoodNames(local) :: Downloads(a, store, SyncDown(a, store, local, clock)) == {} {
      var none: Local := map[];
      assert GoodNames(none);
      DownloadConverges(a, store, none, clock);
      forall n | n in Kept(a, store)
        ensures var s := Rivals(a, store, none, Relative(n, a.path));
                n in s && clock.winner(s) in store && store[n].size == store[clock.winner(s)].size
      {
        NothingLocal(a.method_, store[n]);
        assert n in Rivals(a, store, none, Relative(n, a.path));
      }
    }
  }

  // ---- what a download achieves

  /** Exactly the listed blobs that pass the filter are planned whose local file is not as the method wants it. */
  lemma DownloadPlanIs(a: Args, store: Store, local: Local, n: string)
    ensures n in Downloads(a, store, local) ==> n in Kept(a, store) && n in store
    ensures n in Kept(a, store) ==>
              var r := Relative(n, a.path);
              && n in store
              && (r !in local ==> n in Downloads(a, store, local))
              && (r in local ==>
                    match a.method_
                    case Always => n in Downloads(a, store, local)
                    case Size => n !in Downloads(a, store, local) <==> local[r].size == store[n].size
                    case SizeAndMtime =>
                      n !in Downloads(a, store, local)
                      <==> local[r].size == store[n].size && local[r].modified.Some? && store[n].modified.Some?
                           && store[n].modified.value * NANOS <= local[r].modified.value
                    case Md5 =>
                      n !in Downloads(a, store, local)
                      <==> local[r].size == store[n].size && store[n].md5 == Some(local[r].md5))
  {
    hide Relative;
  }

  /** The blob has a local name, and no other blob that passes the filter shares it. */
  ghost predicate Alone(a: Args, store: Store, n: string) {
    && n in Kept(a, store) && Relative(n, a.path) != []
    && forall m | m in Kept(a, store) && Relative(m, a.path) == Relative(n, a.path) :: m == n
  }

  lemma AloneResult(a: Args, store: Store, local: Local, clock: Clock, n: string)
    requires clock.Valid() && Alone(a, store, n)
    ensures n in store
    ensures var r := Relative(n, a.path);
            var after := SyncDown(a, store, local, clock);
            if n in Downloads(a, store, local) then r in after && after[r] == clock.Written(r, store[n])
            else r in local && r in after && after[r] == local[r]
  {
    var r := Relative(n, a.path);
    DownResult(a, store, local, clock, r);
    DownloadsKept(a, store, local);
    DownloadPlanIs(a, store, local, n);
    hide SyncDown, Relative, Kept, Downloads;
    var s := Rivals(a, store, local, r);
    assert s <= {n};
    if n in Downloads(a, store, local) {
      assert n in s;
    }
  }

  /** After the sync the file of a blob that shares it with no other has the blob's size, by every method. */
  lemma DownloadSizes(a: Args, store: Store, local: Local, clock: Clock, n: string)
    requires clock.Valid() && Alone(a, store, n)
    ensures var r := Relative(n, a.path);
            var after := SyncDown(a, store, local, clock);
            n in store && r in after && after[r].size == store[n].size
  {
    AloneResult(a, store, local, clock, n);
    DownloadPlanIs(a, store, local, n);
    hide SyncDown, Relative, Kept, Downloads;
  }

  /** By digest, when downloads arrive with the blobs' digests, it has the blob's digest. */
  lemma DownloadDigests(a: Args, store: Store, local: Local, clock: Clock, n: string)
    requires clock.Valid() && Alone(a, store, n) && a.method_ == Md5
    requires forall m | m in Downloads(a, store, local) && m in store && store[m].md5.Some? ::
               clock.md5(Relative(m, a.path)) == store[m].md5.value
    ensures var r := Relative(n, a.path);
            var after := SyncDown(a, store, local, clock);
            && n in store && r in after && after[r].size == store[n].size
            && (store[n].md5.Some? ==> after[r].md5 == store[n].md5.value)
  {
    AloneResult(a, store, local, clock, n);
    DownloadPlanIs(a, store, local, n);
    hide SyncDown, Relative, Kept, Downloads;
  }

  /** By time, when downloads are dated no earlier than their blobs, it is not older than the blob. */
  lemma DownloadTimes(a: Args, store: Store, local: Local, clock: Clock, n: string)
    requires clock.Valid() && Alone(a, store, n) && a.method_ == SizeAndMtime
    requires forall m | m in Downloads(a, store, local) && m in store && store[m].modified.Some? ::
               store[m].modified.value * NANOS <= clock.stamp(Relative(m, a.path))
    ensures var r := Relative(n, a.path);
            var after := SyncDown(a, store, local, clock);
            && n in store && r in after && after[r].size == store[n].size && after[r].modified.Some?
            && (store[n].modified.Some? ==> store[n].modified.value * NANOS <= after[r].modified.value)
  {
    AloneResult(a, store, local, clock, n);
    DownloadPlanIs(a, store, local, n);
    hide SyncDown, Relative, Kept, Downloads;
  }

  /** With delete-destination, the local names that pass the filter end up the listing's; other files are untouched. */
  lemma DownloadMirrors(a: Args, store: Store, local: Local, clock: Clock)
    requires GoodNames(local) && clock.Valid()
    ensures a.deleteDestination ==>
              Filtered(SyncDown(a, store, local, clock), a.keep).Keys
              == (set n | n in Kept(a, store) :: Relative(n, a.path)) - {[]}
    ensures forall r | !a.keep(r) ::
              (r in SyncDown(a, store, local, clock) <==> r in local)
              && (r in local ==> SyncDown(a, store, local, clock)[r] == local[r])
  {
    hide SyncDown, Relative;
    var after := SyncDown(a, store, local, clock);
    forall r
      ensures a.deleteDestination ==>
                (r in Filtered(after, a.keep) <==> r != [] && exists n :: n in Kept(a, store) && Relative(n, a.path) == r)
      ensures !a.keep(r) ==> (r in after <==> r in local) && (r in local ==> after[r] == local[r])
    {
      DownResult(a, store, local, clock, r);
      if n :| n in Kept(a, store) && Relative(n, a.path) == r {
        Arrives(a, store, local, n);
      }
    }
  }

  /** Without delete-destination every local file stays, and changes only when a blob that reads as its name is fetched. */
  lemma NothingRemoved(a: Args, store: Store, local: Local, clock: Clock, r: string)
    requires clock.Valid() && !a.deleteDestination && r in local
    ensures r in SyncDown(a, store, local, clock)
    ensures SyncDown(a, store, local, clock)[r] == local[r]
            || exists n :: n in Kept(a, store) && n in store && Relative(n, a.path) == r
                           && SyncDown(a, store, local, clock)[r] == clock.Written(r, store[n])
  {
    hide SyncDown, Relative, Kept;
    DownResult(a, store, local, clock, r);
    if r != [] && Rivals(a, store, local, r) != {} {
      RivalsKept(a, store, local, r);
    }
  }

  lemma RivalsKept(a: Args, store: Store, local: Local, r: string)
    ensures forall n | n in Rivals(a, store, local, r) :: n in Kept(a, store) && n in store && Relative(n, a.path) == r
  {
    hide Relative;
  }

  /** A listed blob is planned, or its local file is there. */
  lemma Arrives(a: Args, store: Store, local: Local, n: string)
    requires n in Kept(a, store)
    ensures var r := Relative(n, a.path); a.keep(r) && (n in Rivals(a, store, local, r) || r in local)
  {
    hide Relative;
  }
}
