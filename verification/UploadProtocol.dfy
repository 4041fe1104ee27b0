/** upload_entries as a state machine: one dispatcher, block tasks and commit tasks under one semaphore. */
module UploadProtocol {
  import opened Types
  import opened Arith
  import opened Counting
  import opened BlockIds

  // ---- what there is to upload

  datatype Job = Job(concurrency: nat, block: nat, files: seq<seq<Byte>>)
  {
    predicate Valid() {
      concurrency >= 1 && block >= 1 && forall f | 0 <= f < |files| :: |files[f]| < TWO64
    }

    /** Files below one block go up in a single request. */
    predicate IsSmall(f: nat)
      requires f < |files|
    {
      |files[f]| == 0 || |files[f]| < block
    }

    function Blocks(f: nat): nat
      requires f < |files| && block >= 1
    {
      if IsSmall(f) then 0 else DivCeil(|files[f]|, block)
    }

    /** Block `i` of a file: `block` bytes at `i * block`, the last one shorter. */
    function BlockData(f: nat, i: nat): seq<Byte>
      requires f < |files| && block >= 1
    {
      Cut(files[f], i * block, block)
    }
  }

  function Cut(s: seq<Byte>, offset: nat, n: nat): seq<Byte> {
    s[Min(offset, |s|)..Min(offset + n, |s|)]
  }

  /** What a block list stands for: the staged blocks with those ids, in that order. */
  function Assembled(staged: map<string, seq<Byte>>, n: nat): seq<Byte> {
    if n == 0 then []
    else Assembled(staged, n - 1) + if BlockId(n - 1) in staged then staged[BlockId(n - 1)] else []
  }

  // ---- the state machine

  datatype BlockPc = Idle | Sending | Ended(ok: bool)

  datatype FilePc = Waiting | Whole | Dispatching(next: nat) | Joining | Committing | Done(ok: bool)

  /** `staged` and `blob` are the service's side. */
  datatype Upload = Upload(pc: FilePc, blocks: seq<BlockPc>, staged: map<string, seq<Byte>>, blob: Option<seq<Byte>>)

  datatype State = State(files: seq<Upload>, cur: nat, permits: nat)

  datatype Step =
    | PutWhole
    | Begin
    | Dispatch
    | EndDispatch
    | WholeEnds(f: nat, ok: bool)
    | BlockEnds(f: nat, i: nat, ok: bool)
    | GiveUp(f: nat)
    | Commit(f: nat)
    | CommitEnds(f: nat, ok: bool)

  function Init(job: Job): State
    requires job.Valid()
  {
    State(seq(|job.files|, f requires 0 <= f < |job.files| => Upload(Waiting, seq(job.Blocks(f), _ => Idle), map[], None)),
          0, job.concurrency)
  }

  predicate AllEnded(q: seq<BlockPc>) { forall i | 0 <= i < |q| :: q[i].Ended? }

  predicate AllOk(q: seq<BlockPc>) { forall i | 0 <= i < |q| :: q[i] == Ended(true) }

  predicate Can(job: Job, s: State, a: Step)
    requires |s.files| == |job.files|
  {
    match a
    case PutWhole => s.cur < |s.files| && s.files[s.cur].pc.Waiting? && job.IsSmall(s.cur) && s.permits > 0
    case Begin => s.cur < |s.files| && s.files[s.cur].pc.Waiting? && !job.IsSmall(s.cur)
    case Dispatch =>
      && s.cur < |s.files| && s.files[s.cur].pc.Dispatching? && s.files[s.cur].pc.next < |s.files[s.cur].blocks| && s.permits > 0
    case EndDispatch =>
      s.cur < |s.files| && s.files[s.cur].pc.Dispatching? && s.files[s.cur].pc.next == |s.files[s.cur].blocks|
    case WholeEnds(f, _) => f < |s.files| && s.files[f].pc.Whole?
    case BlockEnds(f, i, _) => f < |s.files| && i < |s.files[f].blocks| && s.files[f].blocks[i].Sending?
    case GiveUp(f) => f < |s.files| && s.files[f].pc.Joining? && AllEnded(s.files[f].blocks) && !AllOk(s.files[f].blocks)
    case Commit(f) => f < |s.files| && s.files[f].pc.Joining? && AllOk(s.files[f].blocks) && s.permits > 0
    case CommitEnds(f, _) => f < |s.files| && s.files[f].pc.Committing?
  }

  function Touched(s: State, a: Step): nat {
    match a
    case PutWhole => s.cur
    case Begin => s.cur
    case Dispatch => s.cur
    case EndDispatch => s.cur
    case WholeEnds(f, _) => f
    case BlockEnds(f, _, _) => f
    case GiveUp(f) => f
    case Commit(f) => f
    case CommitEnds(f, _) => f
  }

  /** The file's next state. */
  function FileNext(job: Job, s: State, a: Step): Upload
    requires job.Valid() && |s.files| == |job.files| && Can(job, s, a)
  {
    var u := s.files[Touched(s, a)];
    match a
    case PutWhole => u.(pc := Whole)
    case Begin => u.(pc := Dispatching(0))
    case Dispatch => u.(pc := Dispatching(u.pc.next + 1), blocks := u.blocks[u.pc.next := Sending])
    case EndDispatch => u.(pc := Joining)
    case WholeEnds(f, ok) => u.(pc := Done(ok), blob := if ok then Some(job.files[f]) else u.blob)
    case BlockEnds(f, i, ok) =>
      u.(blocks := u.blocks[i := Ended(ok)], staged := if ok then u.staged[BlockId(i) := job.BlockData(f, i)] else u.staged)
    case GiveUp(_) => u.(pc := Done(false))
    case Commit(_) => u.(pc := Committing)
    case CommitEnds(_, ok) => u.(pc := Done(ok), blob := if ok then Some(Assembled(u.staged, |u.blocks|)) else u.blob)
  }

  /** Permits a step takes (negative: gives back). */
  function Takes(a: Step): int {
    match a
    case PutWhole => 1
    case Dispatch => 1
    case Commit(_) => 1
    case WholeEnds(_, _) => -1
    case BlockEnds(_, _, _) => -1
    case CommitEnds(_, _) => -1
    case Begin => 0
    case EndDispatch => 0
    case GiveUp(_) => 0
  }

  function Next(job: Job, s: State, a: Step): State
    requires job.Valid() && |s.files| == |job.files| && Can(job, s, a)
  {
    State(s.files[Touched(s, a) := FileNext(job, s, a)],
          if a.PutWhole? || a.EndDispatch? then s.cur + 1 else s.cur,
          s.permits - Takes(a))
  }

  function Run(job: Job, s: State, sched: seq<Step>): Option<State>
    requires job.Valid()
    decreases |sched|
  {
    if sched == [] then Some(s)
    else if |s.files| == |job.files| && Can(job, s, sched[0]) then Run(job, Next(job, s, sched[0]), sched[1..])
    else None
  }

  // ---- the invariant

  function IsSending(): BlockPc -> bool { (b: BlockPc) => b.Sending? }

  /** Permits in use for one file. */
  function InUse(u: Upload): nat {
    Count(u.blocks, IsSending()) + if u.pc.Whole? || u.pc.Committing? then 1 else 0
  }

  function Used(files: seq<Upload>): (r: seq<int>)
    ensures |r| == |files| && forall f | 0 <= f < |r| :: r[f] == InUse(files[f])
  {
    seq(|files|, f requires 0 <= f < |files| => InUse(files[f]))
  }

  /** The dispatcher is at file `cur`: earlier files are beyond it, later ones untouched. */
  predicate PcOk(u: Upload, f: nat, cur: nat, small: bool) {
    match u.pc
    case Waiting => f >= cur && forall i | 0 <= i < |u.blocks| :: u.blocks[i].Idle?
    case Dispatching(next) => f == cur && !small && next <= |u.blocks| && forall i | 0 <= i < |u.blocks| :: u.blocks[i].Idle? <==> next <= i
    case Whole => f < cur && small && u.blocks == []
    case Joining => f < cur && !small && forall i | 0 <= i < |u.blocks| :: !u.blocks[i].Idle?
    case Committing => f < cur && !small && AllOk(u.blocks)
    case Done(_) => f < cur && AllEnded(u.blocks)
  }

  /** Blocks that went up are staged under their own ids; a finished blob is the file. */
  ghost predicate StagedOk(job: Job, f: nat, u: Upload)
    requires f < |job.files| && job.block >= 1
  {
    && |u.blocks| == job.Blocks(f)
    && (forall i | 0 <= i < |u.blocks| && u.blocks[i] == Ended(true) ::
          BlockId(i) in u.staged && u.staged[BlockId(i)] == job.BlockData(f, i))
    && (u.pc == Done(true) ==> u.blob == Some(job.files[f]))
  }

  ghost predicate Inv(job: Job, s: State) {
    && job.Valid() && |s.files| == |job.files| && s.cur <= |s.files|
    && (forall f | 0 <= f < |s.files| :: PcOk(s.files[f], f, s.cur, job.IsSmall(f)))
    && (forall f | 0 <= f < |s.files| :: StagedOk(job, f, s.files[f]))
    && s.permits + Sum(Used(s.files)) == job.concurrency
  }

  // ---- the block list names the file

  lemma CutsJoin(s: seq<Byte>, offset: nat, n: nat)
    ensures s[..Min(offset, |s|)] + Cut(s, offset, n) == s[..Min(offset + n, |s|)]
  {
  }

  lemma {:induction false} AssembledIs(job: Job, f: nat, staged: map<string, seq<Byte>>, n: nat)
    requires f < |job.files| && job.block >= 1
    requires forall i: nat | i < n :: BlockId(i) in staged && staged[BlockId(i)] == job.BlockData(f, i)
    ensures Assembled(staged, n) == job.files[f][..Min(n * job.block, |job.files[f]|)]
  {
    hide BlockId, Cut;
    if n > 0 {
      AssembledIs(job, f, staged, n - 1);
      Distrib(n, 1, job.block);
      CutsJoin(job.files[f], (n - 1) * job.block, job.block);
    }
  }

  /** Whatever order the blocks went up in, the list in number order is the whole file. */
  lemma CommitIsFile(job: Job, f: nat, u: Upload)
    requires job.Valid() && f < |job.files| && !job.IsSmall(f) && StagedOk(job, f, u) && AllOk(u.blocks)
    ensures Assembled(u.staged, |u.blocks|) == job.files[f]
  {
    AssembledIs(job, f, u.staged, |u.blocks|);
    DivCeilIs(|job.files[f]|, job.block);
    assert job.files[f][..|job.files[f]|] == job.files[f];
  }

  lemma StagedStep(job: Job, s: State, a: Step)
    requires Inv(job, s) && Can(job, s, a)
    ensures StagedOk(job, Touched(s, a), FileNext(job, s, a))
  {
    hide BlockId, Assembled, Sum, Count, Used, Cut;
    var f := Touched(s, a);
    assert StagedOk(job, f, s.files[f]) && PcOk(s.files[f], f, s.cur, job.IsSmall(f));
    if a.CommitEnds? {
      CommitIsFile(job, f, s.files[f]);
    }
    if a.BlockEnds? {
      forall i: nat | i < |s.files[f].blocks| && i != a.i
        ensures BlockId(i) != BlockId(a.i)
      {
        BlocksFew(job, f);
        if BlockId(i) == BlockId(a.i) {
          IdsDistinct(i, a.i);
        }
      }
    }
  }

  lemma BlocksFew(job: Job, f: nat)
    requires job.Valid() && f < |job.files|
    ensures job.Blocks(f) <= |job.files[f]| < TWO64
  {
    DivCeilSmall(|job.files[f]|, job.block);
  }

  lemma PcStep(job: Job, s: State, a: Step)
    requires Inv(job, s) && Can(job, s, a)
    ensures PcOk(FileNext(job, s, a), Touched(s, a), Next(job, s, a).cur, job.IsSmall(Touched(s, a)))
    ensures InUse(FileNext(job, s, a)) == InUse(s.files[Touched(s, a)]) + Takes(a)
  {
    hide BlockId, Assembled, Sum, Count, Used, Cut, StagedOk;
    var f := Touched(s, a);
    var u := s.files[f];
    assert PcOk(u, f, s.cur, job.IsSmall(f)) && StagedOk(job, f, u);
    SmallHasNone(job, f, u);
    match a
    case PutWhole =>
    case Begin =>
    case Dispatch => CountUpdate(u.blocks, u.pc.next, Sending, IsSending());
    case EndDispatch =>
    case WholeEnds(_, ok) =>
    case BlockEnds(_, i, ok) => CountUpdate(u.blocks, i, Ended(ok), IsSending());
    case GiveUp(_) =>
    case Commit(_) =>
    case CommitEnds(_, ok) =>
  }

  lemma SmallHasNone(job: Job, f: nat, u: Upload)
    requires f < |job.files| && job.block >= 1 && StagedOk(job, f, u)
    ensures job.IsSmall(f) ==> u.blocks == []
  {
    hide BlockId;
  }

  lemma StepKeeps(job: Job, s: State, a: Step)
    requires Inv(job, s) && Can(job, s, a)
    ensures Inv(job, Next(job, s, a))
  {
    hide StagedOk, FileNext, InUse, Sum, Used, Job.IsSmall, Job.Valid, Can, Takes, PcOk;
    StagedStep(job, s, a);
    PcStep(job, s, a);
    var f, t := Touched(s, a), Next(job, s, a);
    TouchedFile(job, s, a);
    UsedUpdate(s.files, f, t.files[f]);
    forall g | 0 <= g < |t.files| && g != f
      ensures PcOk(t.files[g], g, t.cur, job.IsSmall(g))
    {
      OtherPc(job, s, a, g);
    }
  }

  lemma TouchedFile(job: Job, s: State, a: Step)
    requires job.Valid() && |s.files| == |job.files| && s.cur <= |s.files| && Can(job, s, a)
    ensures Touched(s, a) < |s.files| && Next(job, s, a).cur <= |s.files|
  {
    hide FileNext, Takes;
  }

  lemma UsedUpdate(files: seq<Upload>, f: nat, u: Upload)
    requires f < |files|
    ensures Sum(Used(files[f := u])) == Sum(Used(files)) - InUse(files[f]) + InUse(u)
  {
    hide Sum, InUse;
    assert Used(files[f := u]) == Used(files)[f := InUse(u)];
    SumUpdate(Used(files), f, InUse(u));
  }

  /** The dispatcher moves on only from the file it is at. */
  lemma OtherPc(job: Job, s: State, a: Step, g: nat)
    requires Inv(job, s) && Can(job, s, a) && g < |s.files| && g != Touched(s, a)
    ensures PcOk(s.files[g], g, Next(job, s, a).cur, job.IsSmall(g))
  {
    hide StagedOk, FileNext, Sum, Used, Job.IsSmall, Job.Valid;
    assert PcOk(s.files[g], g, s.cur, job.IsSmall(g)) && PcOk(s.files[Touched(s, a)], Touched(s, a), s.cur, job.IsSmall(Touched(s, a)));
  }

  lemma InitOk(job: Job)
    requires job.Valid()
    ensures Inv(job, Init(job))
  {
    hide BlockId;
    var s := Init(job);
    forall f | 0 <= f < |s.files|
      ensures Used(s.files)[f] == 0
    {
      CountZero(s.files[f].blocks, IsSending());
    }
    SumZero(Used(s.files));
  }

  lemma {:induction false} RunKeeps(job: Job, s: State, sched: seq<Step>)
    requires Inv(job, s) && Run(job, s, sched).Some?
    ensures Inv(job, Run(job, s, sched).value)
    decreases |sched|
  {
    if sched != [] {
      StepKeeps(job, s, sched[0]);
      hide Can, Next, PcOk, StagedOk;
      RunKeeps(job, Next(job, s, sched[0]), sched[1..]);
    }
  }

  /** A file reported as uploaded is at the service byte for byte, in every run and any order of block uploads. */
  lemma UploadedIsFile(job: Job, sched: seq<Step>, f: nat)
    requires job.Valid() && Run(job, Init(job), sched).Some? && f < |job.files|
    ensures var s := Run(job, Init(job), sched).value;
            f < |s.files| && (s.files[f].pc == Done(true) ==> s.files[f].blob == Some(job.files[f]))
  {
    InitOk(job);
    hide Run, Init;
    RunKeeps(job, Init(job), sched);
    var s := Run(job, Init(job), sched).value;
    assert StagedOk(job, f, s.files[f]);
  }

  /** At no moment are more than `concurrency` requests in flight: blocks, whole files and commits together. */
  lemma InFlightBounded(job: Job, sched: seq<Step>)
    requires job.Valid() && Run(job, Init(job), sched).Some?
    ensures Sum(Used(Run(job, Init(job), sched).value.files)) <= job.concurrency
  {
    hide Run, Init, Used;
    InitOk(job);
    RunKeeps(job, Init(job), sched);
  }

  // ---- no deadlock

  predicate AllDone(s: State) { forall f | 0 <= f < |s.files| :: s.files[f].pc.Done? }

  /** Whoever holds a permit can finish and give it back. */
  lemma HolderMoves(job: Job, s: State, f: nat) returns (a: Step)
    requires Inv(job, s) && f < |s.files| && InUse(s.files[f]) > 0
    ensures Can(job, s, a)
  {
    hide StagedOk, Sum, Used;
    var u := s.files[f];
    if u.pc.Whole? {
      a := WholeEnds(f, true);
    } else if u.pc.Committing? {
      a := CommitEnds(f, true);
    } else {
      CountZero(u.blocks, IsSending());
      var i :| 0 <= i < |u.blocks| && IsSending()(u.blocks[i]);
      a := BlockEnds(f, i, true);
    }
  }

  /** The commit's extra permit cannot block the blocks, nor they it: until all files are done, something can go on. */
  lemma NoDeadlock(job: Job, s: State) returns (a: Step)
    requires Inv(job, s) && !AllDone(s)
    ensures Can(job, s, a)
  {
    if Sum(Used(s.files)) > 0 {
      var f := SumPositive(Used(s.files));
      a := HolderMoves(job, s, f);
    } else {
      SumNone(Used(s.files));
      a := FreeMoves(job, s);
    }
  }

  lemma FreeMoves(job: Job, s: State) returns (a: Step)
    requires Inv(job, s) && !AllDone(s) && Sum(Used(s.files)) == 0
    requires forall f | 0 <= f < |s.files| :: Used(s.files)[f] == 0
    ensures Can(job, s, a)
  {
    hide StagedOk, Sum;
    var f :| 0 <= f < |s.files| && !s.files[f].pc.Done?;
    assert PcOk(s.files[f], f, s.cur, job.IsSmall(f)) && Used(s.files)[f] == 0;
    if s.files[f].pc.Joining? {
      var u := s.files[f];
      CountZero(u.blocks, IsSending());
      assert forall i | 0 <= i < |u.blocks| :: !IsSending()(u.blocks[i]);
      hide Count;
      a := if AllOk(u.blocks) then Commit(f) else GiveUp(f);
    } else {
      hide Count;
      var c := s.cur;
      assert c < |s.files| && PcOk(s.files[c], c, c, job.IsSmall(c));
      a := if s.files[c].pc.Waiting? then (if job.IsSmall(c) then PutWhole else Begin)
           else if s.files[c].pc.next < |s.files[c].blocks| then Dispatch else EndDispatch;
    }
  }

  // ---- every run ends

  function IsIdle(): BlockPc -> bool { (b: BlockPc) => b.Idle? }

  function PcWork(pc: FilePc): nat {
    match pc
    case Waiting => 4
    case Dispatching(_) => 3
    case Joining => 2
    case Whole => 1
    case Committing => 1
    case Done(_) => 0
  }

  /** Steps a file can still take. */
  function FileWork(u: Upload): nat {
    2 * Count(u.blocks, IsIdle()) + Count(u.blocks, IsSending()) + PcWork(u.pc)
  }

  function Works(files: seq<Upload>): (r: seq<int>)
    ensures |r| == |files| && forall f | 0 <= f < |r| :: r[f] == FileWork(files[f])
  {
    seq(|files|, f requires 0 <= f < |files| => FileWork(files[f]))
  }

  function Work(files: seq<Upload>): nat {
    SumAtLeast(Works(files), 0);
    Sum(Works(files))
  }

  lemma FileWorks(job: Job, s: State, a: Step)
    requires Inv(job, s) && Can(job, s, a)
    ensures FileWork(FileNext(job, s, a)) < FileWork(s.files[Touched(s, a)])
  {
    hide BlockId, Assembled, Sum, Count, Used, Cut, StagedOk;
    var u := s.files[Touched(s, a)];
    assert PcOk(u, Touched(s, a), s.cur, job.IsSmall(Touched(s, a)));
    if a.Dispatch? {
      CountUpdate(u.blocks, u.pc.next, Sending, IsSending());
      CountUpdate(u.blocks, u.pc.next, Sending, IsIdle());
    } else if a.BlockEnds? {
      CountUpdate(u.blocks, a.i, Ended(a.ok), IsSending());
      CountUpdate(u.blocks, a.i, Ended(a.ok), IsIdle());
    }
  }

  lemma StepWorks(job: Job, s: State, a: Step)
    requires Inv(job, s) && Can(job, s, a)
    ensures Work(Next(job, s, a).files) < Work(s.files)
  {
    FileWorks(job, s, a);
    hide Sum, FileNext, FileWork, Inv;
    var f, t := Touched(s, a), Next(job, s, a);
    assert Works(t.files) == Works(s.files)[f := FileWork(t.files[f])];
    SumUpdate(Works(s.files), f, FileWork(t.files[f]));
  }

  /** No run is longer than the work there is: with NoDeadlock, every run that cannot go on has finished every file. */
  lemma {:induction false} RunsEnd(job: Job, s: State, sched: seq<Step>)
    requires Inv(job, s) && Run(job, s, sched).Some?
    ensures |sched| + Work(Run(job, s, sched).value.files) <= Work(s.files)
    decreases |sched|
  {
    if sched != [] {
      StepKeeps(job, s, sched[0]);
      StepWorks(job, s, sched[0]);
      hide Inv, Can, Next, Work;
      RunsEnd(job, Next(job, s, sched[0]), sched[1..]);
    }
  }

  /** A run that goes on as long as it can has finished every file. */
  lemma MaximalRunFinishes(job: Job, sched: seq<Step>, s: State)
    requires job.Valid() && Run(job, Init(job), sched) == Some(s) && |s.files| == |job.files|
    requires forall a: Step :: !Can(job, s, a)
    ensures AllDone(s)
    ensures |sched| <= Work(Init(job).files)
  {
    InitOk(job);
    hide Inv, Can, Run, Init, Work, AllDone;
    RunKeeps(job, Init(job), sched);
    RunsEnd(job, Init(job), sched);
    if !AllDone(s) {
      var a := NoDeadlock(job, s);
    }
  }

  // ---- what each request carries

  /** Blocks are full from the first on; only the last is shorter, none is empty, and together they are the file. */
  lemma BlockSizes(job: Job, f: nat, i: nat)
    requires job.Valid() && f < |job.files| && i < job.Blocks(f)
    ensures job.block <= |job.files[f]|
    ensures |job.BlockData(f, i)| == Min(job.block, |job.files[f]| - i * job.block) > 0
    ensures i + 1 == job.Blocks(f) <==> (i + 1) * job.block >= |job.files[f]|
  {
    BlockPlace(|job.files[f]|, job.block, i);
    hide DivCeil;
  }

  /** Which block is the last. */
  lemma BlockPlace(size: nat, block: nat, i: nat)
    requires block > 0 && i < DivCeil(size, block)
    ensures i * block < size && (i + 1) * block == i * block + block
    ensures i + 1 == DivCeil(size, block) <==> (i + 1) * block >= size
  {
    var n := DivCeil(size, block);
    DivCeilIs(size, block);
    hide DivCeil;
    Distrib(i, -1, block);
    Distrib(n, 1, block);
    Products(i, n - 1, block);
    if i + 1 < n {
      Products(i + 1, n - 1, block);
    }
  }

  /**
    A file goes up in one request exactly when it is shorter than a block, or empty; otherwise in blocks. So no request
    ever carries more than one block's bytes.
  */
  lemma OneRequestIff(job: Job, sched: seq<Step>, f: nat)
    requires job.Valid() && Run(job, Init(job), sched).Some? && f < |job.files|
    ensures f < |Run(job, Init(job), sched).value.files|
    ensures var u := Run(job, Init(job), sched).value.files[f];
            && (u.pc.Whole? ==> |job.files[f]| < job.block || job.files[f] == [])
            && (u.pc.Dispatching? || u.pc.Joining? || u.pc.Committing? ==> 0 < job.block <= |job.files[f]|)
            && (|u.blocks| > 0 <==> 0 < job.block <= |job.files[f]|)
            && (|u.blocks| > 0 ==> (|u.blocks| - 1) * job.block < |job.files[f]| <= |u.blocks| * job.block)
  {
    InitOk(job);
    hide Run, Init, Sum, Used;
    RunKeeps(job, Init(job), sched);
    var s := Run(job, Init(job), sched).value;
    assert PcOk(s.files[f], f, s.cur, job.IsSmall(f)) && StagedOk(job, f, s.files[f]);
    if !job.IsSmall(f) {
      DivCeilIs(|job.files[f]|, job.block);
    }
  }

  /** A free permit is never left unused: with fewer requests in flight, whatever waits for one can have it. */
  lemma PermitsAreUsed(job: Job, s: State)
    requires Inv(job, s) && Sum(Used(s.files)) < job.concurrency
    ensures s.cur < |s.files| && s.files[s.cur].pc.Waiting? && job.IsSmall(s.cur) ==> Can(job, s, PutWhole)
    ensures s.cur < |s.files| && s.files[s.cur].pc.Dispatching? && s.files[s.cur].pc.next < |s.files[s.cur].blocks| ==>
              Can(job, s, Dispatch)
    ensures forall f: nat | f < |s.files| && s.files[f].pc.Joining? && AllOk(s.files[f].blocks) :: Can(job, s, Commit(f))
  {
    hide StagedOk, PcOk, Sum, Used, Job.IsSmall;
  }
}
