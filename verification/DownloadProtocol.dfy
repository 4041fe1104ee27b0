/** download_ranges as a state machine: file tasks and chunk tasks under two semaphores, in any interleaving. */
module DownloadProtocol {
  import opened Types
  import opened Arith
  import opened Counting
  import opened PlanAssembly

  // ---- what there is to do

  /** One GET: `len` bytes of a blob from `offset` on, written at the same offset. */
  datatype Piece = Piece(blobName: string, offset: nat, len: nat)
  {
    predicate Covers(p: nat) { offset <= p < offset + len }
  }

  /** A range in chunks of the block size; an empty range needs none. */
  function Pieces(r: DownloadRange, block: nat): (q: seq<Piece>)
    requires block > 0
    ensures |q| == DivCeil(r.byteLen, block)
    ensures forall i | 0 <= i < |q| :: q[i] == PieceOf(r, block, i)
  {
    seq(DivCeil(r.byteLen, block), i requires 0 <= i => PieceOf(r, block, i))
  }

  function PieceOf(r: DownloadRange, block: nat, i: nat): Piece {
    Piece(r.blobName, r.byteOffset + i * block, Min(block, Max(0, r.byteLen - i * block)))
  }

  function AllPieces(ranges: seq<DownloadRange>, block: nat): seq<Piece>
    requires block > 0
  {
    if ranges == [] then [] else AllPieces(ranges[..|ranges| - 1], block) + Pieces(ranges[|ranges| - 1], block)
  }

  /** Pieces lie inside their range, and cover it. */
  lemma PieceInside(r: DownloadRange, block: nat, i: nat)
    requires block > 0 && i < |Pieces(r, block)|
    ensures var q := Pieces(r, block)[i];
            r.byteOffset <= q.offset && q.offset + q.len <= r.byteOffset + r.byteLen && 0 < q.len <= block
  {
    DivCeilIs(r.byteLen, block);
    Products(i, DivCeil(r.byteLen, block) - 1, block);
    Distrib(DivCeil(r.byteLen, block), 1, block);
  }

  lemma PieceHolding(r: DownloadRange, block: nat, p: nat) returns (i: nat)
    requires block > 0 && r.byteOffset <= p < r.byteOffset + r.byteLen
    ensures i < |Pieces(r, block)| && Pieces(r, block)[i].Covers(p)
  {
    var d := p - r.byteOffset;
    i := d / block;
    QuotientUnique(d, block, i);
    DivCeilIs(r.byteLen, block);
    if i >= DivCeil(r.byteLen, block) {
      Products(DivCeil(r.byteLen, block), i, block);
    }
  }

  ghost predicate RangeHolds(ranges: seq<DownloadRange>, p: nat) {
    exists i :: 0 <= i < |ranges| && InRange(ranges[i], p)
  }

  ghost predicate PieceHolds(q: seq<Piece>, p: nat) {
    exists i :: 0 <= i < |q| && q[i].Covers(p)
  }

  lemma HoldsAppend(a: seq<Piece>, b: seq<Piece>, p: nat)
    ensures PieceHolds(a + b, p) <==> PieceHolds(a, p) || PieceHolds(b, p)
  {
    if PieceHolds(a + b, p) {
      var i :| 0 <= i < |a + b| && (a + b)[i].Covers(p);
      assert if i < |a| then a[i].Covers(p) else b[i - |a|].Covers(p);
    }
    if i :| 0 <= i < |a| && a[i].Covers(p) {
      assert (a + b)[i].Covers(p);
    }
    if i :| 0 <= i < |b| && b[i].Covers(p) {
      assert (a + b)[|a| + i].Covers(p);
    }
  }

  predicate InRange(r: DownloadRange, p: nat) {
    r.byteOffset <= p < r.byteOffset + r.byteLen
  }

  lemma OwnPieces(r: DownloadRange, block: nat, p: nat)
    requires block > 0
    ensures PieceHolds(Pieces(r, block), p) <==> InRange(r, p)
  {
    if PieceHolds(Pieces(r, block), p) {
      var i :| 0 <= i < |Pieces(r, block)| && Pieces(r, block)[i].Covers(p);
      PieceInside(r, block, i);
    }
    if InRange(r, p) {
      var i := PieceHolding(r, block, p);
    }
  }

  /** The pieces of a group of ranges hold exactly the ranges' bytes. */
  lemma {:induction false} PiecesCover(ranges: seq<DownloadRange>, block: nat, p: nat)
    requires block > 0
    ensures PieceHolds(AllPieces(ranges, block), p) <==> RangeHolds(ranges, p)
  {
    if ranges != [] {
      var n := |ranges| - 1;
      PiecesCover(ranges[..n], block, p);
      OwnPieces(ranges[n], block, p);
      HoldsAppend(AllPieces(ranges[..n], block), Pieces(ranges[n], block), p);
      hide PieceHolds;
      if i :| 0 <= i < n && InRange(ranges[..n][i], p) {
        assert InRange(ranges[i], p);
      }
      if i :| 0 <= i < |ranges| && InRange(ranges[i], p) {
        assert i == n || InRange(ranges[..n][i], p);
      }
    }
  }

  // ---- grouping

  function ForPath(ranges: seq<DownloadRange>, path: string): seq<DownloadRange> {
    if ranges == [] then []
    else
      var n := |ranges| - 1;
      ForPath(ranges[..n], path) + if ranges[n].path == path then [ranges[n]] else []
  }

  /** by_path: the ranges of each local path together, in the order they came. */
  method GroupByPath(ranges: seq<DownloadRange>) returns (byPath: map<string, seq<DownloadRange>>)
    ensures forall path :: path in byPath <==> ForPath(ranges, path) != []
    ensures forall path | path in byPath :: byPath[path] == ForPath(ranges, path)
  {
    byPath := map[];
    var i := 0;
    while i < |ranges|
      invariant 0 <= i <= |ranges|
      invariant forall path :: path in byPath <==> ForPath(ranges[..i], path) != []
      invariant forall path | path in byPath :: byPath[path] == ForPath(ranges[..i], path)
    {
      var r := ranges[i];
      assert ranges[..i + 1][..i] == ranges[..i];
      var group := if r.path in byPath then byPath[r.path] else [];
      byPath := byPath[r.path := group + [r]];
      i := i + 1;
    }
    assert ranges[..i] == ranges;
  }

  // ---- the state machine

  datatype PiecePc = Idle | Paced | Getting | Writing | Ended(ok: bool)

  datatype FilePc = Queued | Spawning(next: nat) | Closed(ok: bool)

  datatype Task = Task(pc: FilePc, pieces: seq<PiecePc>, file: seq<Byte>)

  datatype Engine = Engine(tasks: seq<Task>, begun: nat, permits: nat, filePermits: nat)

  /** One group per local path: its pieces, and the file as the caller left it. */
  datatype Job = Job(concurrency: nat, parallelFiles: nat, groups: seq<seq<Piece>>, before: seq<seq<Byte>>, blob: string -> seq<Byte>)
  {
    predicate Valid() { concurrency >= 1 && |before| == |groups| }

    function FileLimit(): nat { Max(parallelFiles, 1) }
  }

  datatype Step =
    | OpenNext
    | Spawn(g: nat)
    | Pace(g: nat, i: nat)
    | GetOk(g: nat, i: nat)
    | GetErr(g: nat, i: nat)
    | WriteOk(g: nat, i: nat)
    | WriteErr(g: nat, i: nat, k: nat)
    | Finish(g: nat)

  function Init(job: Job): Engine
    requires job.Valid()
  {
    Engine(seq(|job.groups|, g requires 0 <= g < |job.groups| => Task(Queued, seq(|job.groups[g]|, _ => Idle), job.before[g])),
           0, job.concurrency, job.FileLimit())
  }

  predicate AllEnded(q: seq<PiecePc>) {
    forall i | 0 <= i < |q| :: q[i].Ended?
  }

  predicate AllOk(q: seq<PiecePc>) {
    forall i | 0 <= i < |q| :: q[i] == Ended(true)
  }

  predicate PieceAt(job: Job, e: Engine, g: nat, i: nat, pc: PiecePc) {
    && g < |e.tasks| && g < |job.groups| && i < |e.tasks[g].pieces| && i < |job.groups[g]|
    && e.tasks[g].pieces[i] == pc
  }

  predicate Can(job: Job, e: Engine, a: Step) {
    match a
    case OpenNext => e.begun < |e.tasks| && e.filePermits > 0
    case Spawn(g) =>
      && g < |e.tasks| && e.tasks[g].pc.Spawning? && e.tasks[g].pc.next < |e.tasks[g].pieces| && e.permits > 0
    case Pace(g, i) => PieceAt(job, e, g, i, Paced)
    case GetOk(g, i) => PieceAt(job, e, g, i, Getting)
    case GetErr(g, i) => PieceAt(job, e, g, i, Getting)
    case WriteOk(g, i) => PieceAt(job, e, g, i, Writing)
    case WriteErr(g, i, k) => PieceAt(job, e, g, i, Writing) && k <= |Data(job, g, i)|
    case Finish(g) =>
      && g < |e.tasks| && e.tasks[g].pc.Spawning? && e.tasks[g].pc.next == |e.tasks[g].pieces|
      && AllEnded(e.tasks[g].pieces)
  }

  /** What the service returns: exactly the bytes asked for. */
  function Data(job: Job, g: nat, i: nat): seq<Byte>
    requires g < |job.groups| && i < |job.groups[g]|
  {
    var q := job.groups[g][i];
    var b := job.blob(q.blobName);
    if q.offset + q.len <= |b| then b[q.offset..q.offset + q.len] else []
  }

  function Put(e: Engine, g: nat, t: Task): Engine
    requires g < |e.tasks|
  {
    e.(tasks := e.tasks[g := t])
  }

  function PutPiece(e: Engine, g: nat, i: nat, pc: PiecePc): Engine
    requires g < |e.tasks| && i < |e.tasks[g].pieces|
  {
    Put(e, g, e.tasks[g].(pieces := e.tasks[g].pieces[i := pc]))
  }

  function Next(job: Job, e: Engine, a: Step): Engine
    requires Can(job, e, a)
  {
    match a
    case OpenNext =>
      Put(e, e.begun, e.tasks[e.begun].(pc := Spawning(0))).(begun := e.begun + 1, filePermits := e.filePermits - 1)
    case Spawn(g) =>
      var t := e.tasks[g];
      Put(e, g, t.(pc := Spawning(t.pc.next + 1), pieces := t.pieces[t.pc.next := Paced])).(permits := e.permits - 1)
    case Pace(g, i) => PutPiece(e, g, i, Getting)
    case GetOk(g, i) => PutPiece(e, g, i, Writing)
    case GetErr(g, i) => PutPiece(e, g, i, Ended(false)).(permits := e.permits + 1)
    case WriteOk(g, i) =>
      var t := e.tasks[g];
      Put(e, g, t.(pieces := t.pieces[i := Ended(true)], file := WriteAt(t.file, job.groups[g][i].offset, Data(job, g, i))))
        .(permits := e.permits + 1)
    case WriteErr(g, i, k) =>
      var t := e.tasks[g];
      Put(e, g, t.(pieces := t.pieces[i := Ended(false)], file := WriteAt(t.file, job.groups[g][i].offset, Data(job, g, i)[..k])))
        .(permits := e.permits + 1)
    case Finish(g) =>
      Put(e, g, e.tasks[g].(pc := Closed(AllOk(e.tasks[g].pieces)))).(filePermits := e.filePermits + 1)
  }

  function Run(job: Job, e: Engine, sched: seq<Step>): Option<Engine>
    decreases |sched|
  {
    if sched == [] then Some(e)
    else if Can(job, e, sched[0]) then Run(job, Next(job, e, sched[0]), sched[1..])
    else None
  }

  // ---- permits

  function HasPermit(): PiecePc -> bool { (pc: PiecePc) => !pc.Idle? && !pc.Ended? }

  function IsGetting(): PiecePc -> bool { (pc: PiecePc) => pc.Getting? }

  function IsOpen(): Task -> bool { (t: Task) => t.pc.Spawning? }

  /** The permits each file's chunks hold. */
  function Held(tasks: seq<Task>): (r: seq<int>)
    ensures |r| == |tasks| && forall g | 0 <= g < |r| :: r[g] == Count(tasks[g].pieces, HasPermit())
  {
    seq(|tasks|, g requires 0 <= g < |tasks| => Count(tasks[g].pieces, HasPermit()))
  }

  function Gets(tasks: seq<Task>): (r: seq<int>)
    ensures |r| == |tasks| && forall g | 0 <= g < |r| :: r[g] == Count(tasks[g].pieces, IsGetting())
  {
    seq(|tasks|, g requires 0 <= g < |tasks| => Count(tasks[g].pieces, IsGetting()))
  }

  /** Chunks are spawned in order; a file is closed only when all of them have ended. */
  predicate TaskOk(t: Task, n: nat) {
    && |t.pieces| == n
    && match t.pc
       case Queued => forall i | 0 <= i < n :: t.pieces[i].Idle?
       case Spawning(next) => next <= n && forall i | 0 <= i < n :: t.pieces[i].Idle? <==> next <= i
       case Closed(ok) => AllEnded(t.pieces) && (ok <==> AllOk(t.pieces))
  }

  ghost predicate Inv(job: Job, e: Engine) {
    && job.Valid() && |e.tasks| == |job.groups| && e.begun <= |e.tasks|
    && (forall g | 0 <= g < |e.tasks| :: TaskOk(e.tasks[g], |job.groups[g]|))
    && (forall g | 0 <= g < |e.tasks| :: e.tasks[g].pc.Queued? <==> e.begun <= g)
    && e.permits + Sum(Held(e.tasks)) == job.concurrency
    && e.filePermits + Count(e.tasks, IsOpen()) == job.FileLimit()
  }

  lemma HeldPut(e: Engine, g: nat, t: Task)
    requires g < |e.tasks|
    ensures Sum(Held(Put(e, g, t).tasks))
            == Sum(Held(e.tasks)) - Count(e.tasks[g].pieces, HasPermit()) + Count(t.pieces, HasPermit())
    ensures Count(Put(e, g, t).tasks, IsOpen())
            == Count(e.tasks, IsOpen()) - (if e.tasks[g].pc.Spawning? then 1 else 0) + (if t.pc.Spawning? then 1 else 0)
  {
    hide Count, Sum;
    var x := Count(t.pieces, HasPermit());
    assert Held(Put(e, g, t).tasks) == Held(e.tasks)[g := x];
    SumUpdate(Held(e.tasks), g, x);
    CountUpdate(e.tasks, g, t, IsOpen());
  }

  /** The only task a step changes. */
  function Touched(e: Engine, a: Step): nat {
    match a
    case OpenNext => e.begun
    case Spawn(g) => g
    case Pace(g, _) => g
    case GetOk(g, _) => g
    case GetErr(g, _) => g
    case WriteOk(g, _) => g
    case WriteErr(g, _, _) => g
    case Finish(g) => g
  }

  /** The changed task is as it should be, and gives back the permits it no longer uses. */
  lemma TaskStep(job: Job, e: Engine, a: Step)
    requires Inv(job, e) && Can(job, e, a)
    ensures var g := Touched(e, a);
            var t := Next(job, e, a);
            && g < |e.tasks| && t.tasks == e.tasks[g := t.tasks[g]]
            && TaskOk(t.tasks[g], |job.groups[g]|)
            && t.permits - e.permits == Count(e.tasks[g].pieces, HasPermit()) - Count(t.tasks[g].pieces, HasPermit())
            && t.filePermits - e.filePermits
               == (if e.tasks[g].pc.Spawning? then 1 else 0) - (if t.tasks[g].pc.Spawning? then 1 else 0)
            && t.begun == e.begun + (if a.OpenNext? then 1 else 0)
            && (t.tasks[g].pc.Queued? <==> e.tasks[g].pc.Queued? && !a.OpenNext?)
  {
    hide Count, Sum, Held, Data;
    var g := Touched(e, a);
    assert TaskOk(e.tasks[g], |job.groups[g]|);
    var t := e.tasks[g];
    match a
    case OpenNext =>
    case Spawn(_) => CountUpdate(t.pieces, t.pc.next, Paced, HasPermit());
    case Pace(_, i) => CountUpdate(t.pieces, i, Getting, HasPermit());
    case GetOk(_, i) => CountUpdate(t.pieces, i, Writing, HasPermit());
    case GetErr(_, i) => CountUpdate(t.pieces, i, Ended(false), HasPermit());
    case WriteOk(_, i) => CountUpdate(t.pieces, i, Ended(true), HasPermit());
    case WriteErr(_, i, k) => CountUpdate(t.pieces, i, Ended(false), HasPermit());
    case Finish(_) =>
  }

  lemma StepKeeps(job: Job, e: Engine, a: Step)
    requires Inv(job, e) && Can(job, e, a)
    ensures Inv(job, Next(job, e, a))
  {
    hide Count, Sum, Can, Next, TaskOk, Job.FileLimit, Held, Put;
    TaskStep(job, e, a);
    var g, t := Touched(e, a), Next(job, e, a);
    HeldPut(e, g, t.tasks[g]);
    PutTasks(e, g, t.tasks[g]);
    forall h | 0 <= h < |t.tasks|
      ensures TaskOk(t.tasks[h], |job.groups[h]|) && (t.tasks[h].pc.Queued? <==> t.begun <= h)
    {
      assert TaskOk(e.tasks[h], |job.groups[h]|) && (e.tasks[h].pc.Queued? <==> e.begun <= h);
    }
  }

  lemma PutTasks(e: Engine, g: nat, t: Task)
    requires g < |e.tasks|
    ensures Put(e, g, t).tasks == e.tasks[g := t]
  {
  }

  lemma InitOk(job: Job)
    requires job.Valid()
    ensures Inv(job, Init(job))
  {
    var e := Init(job);
    forall g | 0 <= g < |e.tasks|
      ensures Held(e.tasks)[g] == 0
    {
      CountZero(e.tasks[g].pieces, HasPermit());
    }
    SumZero(Held(e.tasks));
    CountZero(e.tasks, IsOpen());
  }

  lemma {:induction false} RunKeeps(job: Job, e: Engine, sched: seq<Step>)
    requires Inv(job, e) && Run(job, e, sched).Some?
    ensures Inv(job, Run(job, e, sched).value)
    decreases |sched|
  {
    if sched != [] {
      StepKeeps(job, e, sched[0]);
      hide Inv, Can, Next;
      RunKeeps(job, Next(job, e, sched[0]), sched[1..]);
    }
  }

  // ---- bounds

  lemma {:induction false} SumLess(a: seq<int>, b: seq<int>)
    requires |a| == |b| && forall i | 0 <= i < |a| :: a[i] <= b[i]
    ensures Sum(a) <= Sum(b)
  {
    if a != [] {
      SumLess(a[..|a| - 1], b[..|b| - 1]);
    }
  }

  lemma {:induction false} FewerGets(q: seq<PiecePc>)
    ensures Count(q, IsGetting()) <= Count(q, HasPermit())
  {
    if q != [] {
      FewerGets(q[..|q| - 1]);
    }
  }

  /** At no moment are more than `concurrency` GETs in flight, or more than max(parallel_files, 1) files open. */
  lemma InFlightBounded(job: Job, sched: seq<Step>)
    requires job.Valid() && Run(job, Init(job), sched).Some?
    ensures var e := Run(job, Init(job), sched).value;
            Sum(Gets(e.tasks)) <= job.concurrency && Count(e.tasks, IsOpen()) <= Max(job.parallelFiles, 1)
  {
    InitOk(job);
    RunKeeps(job, Init(job), sched);
    var e := Run(job, Init(job), sched).value;
    hide Run, Init, Count, Sum;
    forall g | 0 <= g < |e.tasks|
      ensures Gets(e.tasks)[g] <= Held(e.tasks)[g]
    {
      FewerGets(e.tasks[g].pieces);
    }
    SumLess(Gets(e.tasks), Held(e.tasks));
  }

  // ---- no deadlock

  predicate AllClosed(e: Engine) {
    forall g | 0 <= g < |e.tasks| :: e.tasks[g].pc.Closed?
  }

  /** A chunk with a permit can always move on: nothing it does waits for another chunk. */
  lemma PieceMoves(job: Job, e: Engine, g: nat) returns (a: Step)
    requires Inv(job, e) && g < |e.tasks| && Count(e.tasks[g].pieces, HasPermit()) > 0
    ensures Can(job, e, a)
  {
    CountZero(e.tasks[g].pieces, HasPermit());
    hide Count, Sum, Data;
    var i :| 0 <= i < |e.tasks[g].pieces| && HasPermit()(e.tasks[g].pieces[i]);
    assert TaskOk(e.tasks[g], |job.groups[g]|);
    match e.tasks[g].pieces[i]
    case Paced => a := Pace(g, i);
    case Getting => a := GetOk(g, i);
    case Writing => a := WriteOk(g, i);
  }

  /** Whatever the schedule has been, something can go on until every file is closed. */
  lemma NoDeadlock(job: Job, e: Engine) returns (a: Step)
    requires Inv(job, e) && !AllClosed(e)
    ensures Can(job, e, a)
  {
    if Sum(Held(e.tasks)) > 0 {
      var g := SumPositive(Held(e.tasks));
      a := PieceMoves(job, e, g);
    } else {
      SumNone(Held(e.tasks));
      a := FileMoves(job, e);
    }
  }

  lemma FileMoves(job: Job, e: Engine) returns (a: Step)
    requires Inv(job, e) && !AllClosed(e)
    requires Sum(Held(e.tasks)) == 0 && forall g | 0 <= g < |e.tasks| :: Held(e.tasks)[g] == 0
    ensures Can(job, e, a)
  {
    if exists g :: 0 <= g < |e.tasks| && e.tasks[g].pc.Spawning? {
      var g :| 0 <= g < |e.tasks| && e.tasks[g].pc.Spawning?;
      assert TaskOk(e.tasks[g], |job.groups[g]|);
      CountZero(e.tasks[g].pieces, HasPermit());
      assert Held(e.tasks)[g] == 0;
      hide Count, Sum;
      a := if e.tasks[g].pc.next < |e.tasks[g].pieces| then Spawn(g) else Finish(g);
      assert forall i | 0 <= i < |e.tasks[g].pieces| :: !HasPermit()(e.tasks[g].pieces[i]);
    } else {
      CountZero(e.tasks, IsOpen());
      hide Count, Sum;
      a := OpenNext;
      var g :| 0 <= g < |e.tasks| && !e.tasks[g].pc.Closed?;
      assert e.tasks[g].pc.Queued?;
    }
  }

  // ---- every run ends

  function PieceWork(pc: PiecePc): nat {
    match pc
    case Idle => 4
    case Paced => 3
    case Getting => 2
    case Writing => 1
    case Ended(_) => 0
  }

  function PiecesWork(q: seq<PiecePc>): nat {
    if q == [] then 0 else PiecesWork(q[..|q| - 1]) + PieceWork(q[|q| - 1])
  }

  function TaskWork(t: Task): nat {
    PiecesWork(t.pieces) + match t.pc case Queued => 2 case Spawning(_) => 1 case Closed(_) => 0
  }

  function Work(tasks: seq<Task>): nat {
    if tasks == [] then 0 else Work(tasks[..|tasks| - 1]) + TaskWork(tasks[|tasks| - 1])
  }

  lemma {:induction false} PiecesWorkUpdate(q: seq<PiecePc>, i: nat, pc: PiecePc)
    requires i < |q|
    ensures PiecesWork(q[i := pc]) == PiecesWork(q) - PieceWork(q[i]) + PieceWork(pc)
  {
    var n := |q| - 1;
    if i == n {
      assert q[i := pc][..n] == q[..n];
    } else {
      PiecesWorkUpdate(q[..n], i, pc);
      assert q[i := pc][..n] == q[..n][i := pc];
    }
  }

  lemma {:induction false} WorkUpdate(tasks: seq<Task>, g: nat, t: Task)
    requires g < |tasks|
    ensures Work(tasks[g := t]) == Work(tasks) - TaskWork(tasks[g]) + TaskWork(t)
  {
    var n := |tasks| - 1;
    if g == n {
      assert tasks[g := t][..n] == tasks[..n];
    } else {
      WorkUpdate(tasks[..n], g, t);
      assert tasks[g := t][..n] == tasks[..n][g := t];
    }
  }

  lemma StepWorks(job: Job, e: Engine, a: Step)
    requires Inv(job, e) && Can(job, e, a)
    ensures Work(Next(job, e, a).tasks) < Work(e.tasks)
  {
    hide Count, Sum, Work, Data, PiecesWork;
    var g, u := Touched(e, a), Next(job, e, a);
    assert TaskOk(e.tasks[g], |job.groups[g]|);
    var t := e.tasks[g];
    match a
    case OpenNext => WorkUpdate(e.tasks, g, u.tasks[g]);
    case Spawn(_) => WorkUpdate(e.tasks, g, u.tasks[g]); PiecesWorkUpdate(t.pieces, t.pc.next, Paced);
    case Pace(_, i) => WorkUpdate(e.tasks, g, u.tasks[g]); PiecesWorkUpdate(t.pieces, i, Getting);
    case GetOk(_, i) => WorkUpdate(e.tasks, g, u.tasks[g]); PiecesWorkUpdate(t.pieces, i, Writing);
    case GetErr(_, i) => WorkUpdate(e.tasks, g, u.tasks[g]); PiecesWorkUpdate(t.pieces, i, Ended(false));
    case WriteOk(_, i) => WorkUpdate(e.tasks, g, u.tasks[g]); PiecesWorkUpdate(t.pieces, i, Ended(true));
    case WriteErr(_, i, k) => WorkUpdate(e.tasks, g, u.tasks[g]); PiecesWorkUpdate(t.pieces, i, Ended(false));
    case Finish(_) => WorkUpdate(e.tasks, g, u.tasks[g]);
  }

  /** No run is longer than the work there is, so every run that cannot go on has closed every file. */
  lemma {:induction false} RunsEnd(job: Job, e: Engine, sched: seq<Step>)
    requires Inv(job, e) && Run(job, e, sched).Some?
    ensures |sched| + Work(Run(job, e, sched).value.tasks) <= Work(e.tasks)
    decreases |sched|
  {
    if sched != [] {
      StepKeeps(job, e, sched[0]);
      StepWorks(job, e, sched[0]);
      hide Inv, Can, Next, Work;
      RunsEnd(job, Next(job, e, sched[0]), sched[1..]);
    }
  }

  /** A run that goes on as long as it can has closed every file. */
  lemma MaximalRunFinishes(job: Job, sched: seq<Step>, e: Engine)
    requires job.Valid() && Run(job, Init(job), sched) == Some(e)
    requires forall a: Step :: !Can(job, e, a)
    ensures AllClosed(e)
    ensures |sched| <= Work(Init(job).tasks)
  {
    InitOk(job);
    hide Inv, Can, Run, Init, Work, AllClosed;
    RunKeeps(job, Init(job), sched);
    RunsEnd(job, Init(job), sched);
    if !AllClosed(e) {
      var a := NoDeadlock(job, e);
    }
  }

  // ---- contents

  /** The pieces of a group come from blobs with one content, and lie inside it and inside the file. */
  predicate GroupFits(job: Job, g: nat, content: seq<Byte>)
    requires g < |job.groups| && g < |job.before|
  {
    && |job.before[g]| == |content|
    && forall i | 0 <= i < |job.groups[g]| ::
         job.blob(job.groups[g][i].blobName) == content && job.groups[g][i].offset + job.groups[g][i].len <= |content|
  }

  /** Each byte is the blob's or untouched; those of a finished piece are the blob's, those in no piece untouched. */
  ghost predicate FileInv(job: Job, g: nat, content: seq<Byte>, t: Task)
    requires g < |job.groups| && g < |job.before|
  {
    && |t.file| == |content| && |job.before[g]| == |content| && |t.pieces| == |job.groups[g]|
    && (forall p | 0 <= p < |content| :: t.file[p] == content[p] || t.file[p] == job.before[g][p])
    && (forall p: nat | p < |content| && !PieceHolds(job.groups[g], p) :: t.file[p] == job.before[g][p])
    && (forall i, p: nat | 0 <= i < |t.pieces| && t.pieces[i] == Ended(true) && p < |content| && job.groups[g][i].Covers(p) ::
          t.file[p] == content[p])
  }

  lemma WriteKeeps(job: Job, g: nat, content: seq<Byte>, t: Task, i: nat, n: nat, pc: PiecePc)
    requires g < |job.groups| && g < |job.before| && GroupFits(job, g, content) && FileInv(job, g, content, t)
    requires i < |job.groups[g]| && n <= |Data(job, g, i)| && pc.Ended? && (pc.ok ==> n == |Data(job, g, i)|)
    ensures FileInv(job, g, content, t.(pieces := t.pieces[i := pc], file := WriteAt(t.file, job.groups[g][i].offset, Data(job, g, i)[..n])))
  {
    var q := job.groups[g][i];
    var data := Data(job, g, i)[..n];
    var file := WriteAt(t.file, q.offset, data);
    assert job.blob(q.blobName) == content && q.offset + q.len <= |content|;
    hide WriteAt;
    forall p: nat | p < |content|
      ensures file[p] == if q.offset <= p < q.offset + n then content[p] else t.file[p]
    {
    }
    forall p: nat | p < |content| && !PieceHolds(job.groups[g], p)
      ensures file[p] == job.before[g][p]
    {
      assert !job.groups[g][i].Covers(p);
    }
  }

  lemma FileStep(job: Job, e: Engine, a: Step, g: nat, content: seq<Byte>)
    requires Inv(job, e) && Can(job, e, a) && g < |job.groups| && GroupFits(job, g, content)
    requires FileInv(job, g, content, e.tasks[g])
    ensures FileInv(job, g, content, Next(job, e, a).tasks[g])
  {
    TaskStep(job, e, a);
    if g == Touched(e, a) {
      var t := e.tasks[g];
      match a
      case WriteOk(_, i) =>
        WriteKeeps(job, g, content, t, i, |Data(job, g, i)|, Ended(true));
        assert Data(job, g, i)[..|Data(job, g, i)|] == Data(job, g, i);
      case WriteErr(_, i, k) => WriteKeeps(job, g, content, t, i, k, Ended(false));
      case OpenNext => OtherStep(job, e, a, g, content);
      case Spawn(_) => OtherStep(job, e, a, g, content);
      case Pace(_, _) => OtherStep(job, e, a, g, content);
      case GetOk(_, _) => OtherStep(job, e, a, g, content);
      case GetErr(_, _) => OtherStep(job, e, a, g, content);
      case Finish(_) => OtherStep(job, e, a, g, content);
    }
  }

  lemma OtherStep(job: Job, e: Engine, a: Step, g: nat, content: seq<Byte>)
    requires Inv(job, e) && Can(job, e, a) && g < |job.groups| && g == Touched(e, a) && !a.WriteOk? && !a.WriteErr?
    requires |job.before| == |job.groups| && FileInv(job, g, content, e.tasks[g])
    ensures FileInv(job, g, content, Next(job, e, a).tasks[g])
  {
    hide Count, Sum, Data, PieceHolds;
  }

  lemma {:induction false} FileRun(job: Job, e: Engine, sched: seq<Step>, g: nat, content: seq<Byte>)
    requires Inv(job, e) && Run(job, e, sched).Some? && g < |job.groups| && GroupFits(job, g, content)
    requires FileInv(job, g, content, e.tasks[g])
    ensures Inv(job, Run(job, e, sched).value)
    ensures FileInv(job, g, content, Run(job, e, sched).value.tasks[g])
    decreases |sched|
  {
    if sched != [] {
      StepKeeps(job, e, sched[0]);
      FileStep(job, e, sched[0], g, content);
      hide Can, Next, FileInv, GroupFits;
      FileRun(job, Next(job, e, sched[0]), sched[1..], g, content);
    }
  }

  /**
    When a file task reports success, the requested bytes of its file are the blob's and all others are as they were,
    whatever the schedule and whatever became of the other files.
  */
  lemma ContentsCorrect(job: Job, sched: seq<Step>, g: nat, content: seq<Byte>)
    requires job.Valid() && Run(job, Init(job), sched).Some? && g < |job.groups| && GroupFits(job, g, content)
    ensures g < |Run(job, Init(job), sched).value.tasks|
    ensures var t := Run(job, Init(job), sched).value.tasks[g];
            && |t.file| == |content|
            && (t.pc == Closed(true) ==>
                  forall p: nat | p < |content| ::
                    t.file[p] == if PieceHolds(job.groups[g], p) then content[p] else job.before[g][p])
  {
    InitOk(job);
    FileRun(job, Init(job), sched, g, content);
    var e := Run(job, Init(job), sched).value;
    var t := e.tasks[g];
    assert TaskOk(t, |job.groups[g]|);
    hide Run, Init, Count, Sum;
    if t.pc == Closed(true) {
      forall p: nat | p < |content|
        ensures t.file[p] == if PieceHolds(job.groups[g], p) then content[p] else job.before[g][p]
      {
        if PieceHolds(job.groups[g], p) {
          var i :| 0 <= i < |job.groups[g]| && job.groups[g][i].Covers(p);
          assert t.pieces[i] == Ended(true);
        }
      }
    }
  }

  // ---- what each request carries

  /** A range goes in full blocks from its first byte on; only its last request is shorter. */
  lemma PieceSizes(r: DownloadRange, block: nat, i: nat)
    requires block > 0 && i < |Pieces(r, block)|
    ensures var q := Pieces(r, block)[i];
            && q.blobName == r.blobName && q.offset == r.byteOffset + i * block && 0 < q.len <= block
            && (i + 1 < |Pieces(r, block)| ==> q.len == block)
            && (i + 1 == |Pieces(r, block)| ==> q.offset + q.len == r.byteOffset + r.byteLen)
  {
    PieceInside(r, block, i);
    DivCeilIs(r.byteLen, block);
    var n := |Pieces(r, block)|;
    assert (i + 1) * block == i * block + block;
    if i + 1 < n {
      Products(i + 1, n - 1, block);
    }
  }

  /** In a group of ranges, too, no request is longer than a block, and a shorter one ends its range. */
  lemma {:induction false} ChunkSizes(ranges: seq<DownloadRange>, block: nat, i: nat) returns (k: nat)
    requires block > 0 && i < |AllPieces(ranges, block)|
    ensures var q := AllPieces(ranges, block)[i];
            && k < |ranges| && q.blobName == ranges[k].blobName && 0 < q.len <= block
            && ranges[k].byteOffset <= q.offset && q.offset + q.len <= ranges[k].byteOffset + ranges[k].byteLen
            && (q.len < block ==> q.offset + q.len == ranges[k].byteOffset + ranges[k].byteLen)
  {
    var n := |ranges| - 1;
    var before := AllPieces(ranges[..n], block);
    if i < |before| {
      k := ChunkSizes(ranges[..n], block, i);
    } else {
      k := n;
      PieceInside(ranges[n], block, i - |before|);
      PieceSizes(ranges[n], block, i - |before|);
    }
  }

  function PieceCovers(p: nat): Piece -> bool { (q: Piece) => q.Covers(p) }

  function RangeCovers(p: nat): DownloadRange -> bool { (r: DownloadRange) => InRange(r, p) }

  lemma OwnCount(r: DownloadRange, block: nat, p: nat)
    requires block > 0
    ensures Count(Pieces(r, block), PieceCovers(p)) == if InRange(r, p) then 1 else 0
  {
    var q := Pieces(r, block);
    if InRange(r, p) {
      var d := p - r.byteOffset;
      var k := PieceHolding(r, block, p);
      forall i | 0 <= i < |q|
        ensures PieceCovers(p)(q[i]) <==> i == d / block
      {
        PieceSizes(r, block, i);
        QuotientUnique(d, block, i);
      }
      hide Count;
      assert PieceCovers(p)(q[k]);
      CountOnly(q, PieceCovers(p), d / block);
    } else {
      forall i | 0 <= i < |q|
        ensures !PieceCovers(p)(q[i])
      {
        PieceInside(r, block, i);
      }
      hide Count;
      CountZero(q, PieceCovers(p));
    }
  }

  /** Every byte is asked for as often as it is in a range: no byte twice for one range. */
  lemma {:induction false} PiecesCount(ranges: seq<DownloadRange>, block: nat, p: nat)
    requires block > 0
    ensures Count(AllPieces(ranges, block), PieceCovers(p)) == Count(ranges, RangeCovers(p))
  {
    if ranges != [] {
      var n := |ranges| - 1;
      PiecesCount(ranges[..n], block, p);
      OwnCount(ranges[n], block, p);
      CountAppend(AllPieces(ranges[..n], block), Pieces(ranges[n], block), PieceCovers(p));
      CountLast(ranges, RangeCovers(p));
    }
  }

  /** A free permit is never left unused: with fewer chunks under way the next can start, with fewer files the next can open. */
  lemma PermitsAreUsed(job: Job, e: Engine)
    requires Inv(job, e)
    ensures Count(e.tasks, IsOpen()) < Max(job.parallelFiles, 1) && e.begun < |e.tasks| ==> Can(job, e, OpenNext)
    ensures Sum(Held(e.tasks)) < job.concurrency ==>
              forall g: nat | g < |e.tasks| && e.tasks[g].pc.Spawning? && e.tasks[g].pc.next < |e.tasks[g].pieces| :: Can(job, e, Spawn(g))
  {
    hide TaskOk, Sum, Held, Count;
  }
}
