/** Safety of whole runs: matching collectives, slot conservation, file life cycle, identical copies. */
module PipelineSafety {
  import opened Types
  import opened Counting
  import opened PipelineModel
  import opened PipelineInv
  import opened PipelinePosts
  import opened PipelineClose
  import opened PipelineTake
  import opened PipelinePost
  import opened PipelineAck
  import opened PipelineReap
  import opened PipelineWrite
  import opened PipelineComplete
  import opened PipelineWorld

  // ---- runs

  ghost predicate InitWorld(cfg: Config, src: seq<seq<Byte>>, w: World) {
    && cfg.Valid() && |w.ranks| == cfg.world && w.wire == map[]
    && forall r | 0 <= r < cfg.world ::
         DiskReady(cfg, r, src, w.ranks[r].disk) && w.ranks[r] == InitRank(cfg, r, w.ranks[r].disk)
  }

  /** Runs a schedule; None when one of its actions is not enabled. */
  function Exec(cfg: Config, w: World, sched: seq<Action>): (o: Option<World>)
    requires cfg.Valid() && |w.ranks| == cfg.world
    ensures o.Some? ==> |o.value.ranks| == cfg.world
    decreases |sched|
  {
    if sched == [] then Some(w)
    else if Enabled(cfg, w, sched[0]) then Exec(cfg, Apply(cfg, w, sched[0]), sched[1..])
    else None
  }

  ghost predicate Reachable(cfg: Config, src: seq<seq<Byte>>, w: World) {
    exists w0: World, sched: seq<Action> :: InitWorld(cfg, src, w0) && Exec(cfg, w0, sched) == Some(w)
  }

  predicate AllDone(w: World) {
    forall r | 0 <= r < |w.ranks| :: Done(w.ranks[r])
  }

  // ---- the one posting order

  function Order(cfg: Config): seq<Post>
    requires cfg.chunk > 0
  {
    AllPosts(PlanChunks(cfg.plan, cfg.chunk))
  }

  /** What a rank has posted is the beginning of the one order, apart from its choice of slots. */
  lemma PostsArePrefix(cfg: Config, r: nat, s: Rank)
    requires PosInv(cfg, r, s)
    ensures |s.posts| <= |Order(cfg)|
    ensures forall k | 0 <= k < |s.posts| :: NoSlot(s.posts[k]) == Order(cfg)[k]
    ensures s.chunks <= PlanChunks(cfg.plan, cfg.chunk)
    ensures !WorkLeft(cfg, s) ==> s.chunks == PlanChunks(cfg.plan, cfg.chunk) && |s.posts| == |Order(cfg)|
  {
    AllPostsPrefix(s.chunks, Remaining(cfg, s));
    if !WorkLeft(cfg, s) {
      assert Remaining(cfg, s) == [];
    }
  }

  ghost predicate WireOk(cfg: Config, src: seq<seq<Byte>>, wire: map<nat, seq<Byte>>)
    requires cfg.chunk > 0
  {
    forall k | k in wire ::
      && k < |Order(cfg)|
      && |wire[k]| == Order(cfg)[k].len
      && Order(cfg)[k].chunk < |PlanChunks(cfg.plan, cfg.chunk)|
      && PayloadOk(src, PlanChunks(cfg.plan, cfg.chunk)[Order(cfg)[k].chunk], Order(cfg)[k].off, wire[k])
  }

  ghost predicate WorldInv(cfg: Config, src: seq<seq<Byte>>, w: World) {
    && cfg.Valid() && |w.ranks| == cfg.world
    && (forall r: nat | r < cfg.world :: Inv(cfg, r, src, w.ranks[r]))
    && WireOk(cfg, src, w.wire)
    && (forall r: nat, k | r < cfg.world && k in w.ranks[r].completed :: k in w.wire)
  }

  // ---- every step keeps it

  lemma LocalKeeps(cfg: Config, src: seq<seq<Byte>>, w: World, a: Action)
    requires WorldInv(cfg, src, w) && Enabled(cfg, w, a) && !a.ACapture? && !a.AComplete?
    ensures Inv(cfg, a.r, src, Apply(cfg, w, a).ranks[a.r])
    ensures Apply(cfg, w, a).ranks[a.r].completed == w.ranks[a.r].completed
  {
    hide Inv, Take, PostChunk, TakeAck, Reap, ShapeOk, WireOk, WriterStep, CanWrite, CanReap, CanAck, CanPost, CanTake, CanEndPosting, ReadOk, Config.Valid, PayloadOk, Order;
    var s := w.ranks[a.r];
    match a
    case ATake(r) => TakeKeeps(cfg, r, src, s); TakeDone(cfg, r, s);
    case APost(r) => PostKeeps(cfg, r, src, s); PostDone(cfg, s);
    case AEndPosting(r) => EndPostingKeeps(cfg, r, src, s);
    case AAck(r) => AckKeeps(cfg, r, src, s); AckDone(cfg, s);
    case AEndDrain(r) => EndDrainKeeps(cfg, r, src, s);
    case AReap(r, i) => ReapKeeps(cfg, r, src, s, i); ReapDone(cfg, s, i);
    case AWriter(r, v) => WriteKeeps(cfg, r, src, s, v); WriterDone(cfg, s, v);
  }

  // Only MPI completes requests, and only writers touch the disk, one file at a time.

  lemma TakeDone(cfg: Config, r: nat, s: Rank)
    requires cfg.Valid() && ShapeOk(cfg, s) && CanTake(cfg, s)
    ensures Take(cfg, r, s).completed == s.completed && Take(cfg, r, s).disk == s.disk
  {
    hide Config.WriterOf;
  }

  lemma PostDone(cfg: Config, s: Rank)
    requires cfg.Valid() && ShapeOk(cfg, s) && CanPost(cfg, s) && ReadOk(cfg, s)
    ensures PostChunk(cfg, s).completed == s.completed && PostChunk(cfg, s).disk == s.disk
  {
    hide Config.WriterOf, SubPosts;
  }

  lemma AckDone(cfg: Config, s: Rank)
    requires cfg.Valid() && ShapeOk(cfg, s) && CanAck(s)
    ensures TakeAck(cfg, s).completed == s.completed && TakeAck(cfg, s).disk == s.disk
  {
    hide Config.WriterOf;
  }

  lemma ReapDone(cfg: Config, s: Rank, i: nat)
    requires cfg.Valid() && ShapeOk(cfg, s) && CanReap(cfg, s, i)
    ensures Reap(cfg, s, i).completed == s.completed && Reap(cfg, s, i).disk == s.disk
  {
    hide Config.WriterOf, SwapRemove;
  }

  lemma WriterDone(cfg: Config, s: Rank, v: nat)
    requires CanWrite(cfg, s, v)
    ensures WriterStep(cfg, s, v).completed == s.completed
    ensures var t := WriterStep(cfg, s, v);
            |t.disk| == |s.disk| && forall f | 0 <= f < |s.disk| && f != s.sent[v][s.received[v]].file :: t.disk[f] == s.disk[f]
  {
    hide WriteAt, SetLen;
  }

  /** MPI takes the source's bytes from the root's buffer, whenever it takes them. */
  lemma CaptureOk(cfg: Config, r: nat, src: seq<seq<Byte>>, s: Rank, k: nat)
    requires Inv(cfg, r, src, s) && k < |s.posts| && k !in s.completed && s.posts[k].root == r
    ensures s.posts[k].slot < |s.bufs| && s.bufs[s.posts[k].slot].Some?
    ensures var p := s.posts[k];
            && p.off + p.len <= |s.bufs[p.slot].value|
            && k < |Order(cfg)| && p.len == Order(cfg)[k].len
            && Order(cfg)[k].chunk < |PlanChunks(cfg.plan, cfg.chunk)|
            && PayloadOk(src, PlanChunks(cfg.plan, cfg.chunk)[Order(cfg)[k].chunk], Order(cfg)[k].off,
                         s.bufs[p.slot].value[p.off..p.off + p.len])
  {
    hide SlotInv, QueueInv, FlightInv, PosInv, CountInv, LifeInv, OpenInv, ContentInv, SizeInv, Config.Valid, SourceOk, WellChunk, Order, PlanChunks;
    RequestSlot(cfg, s, k);
    PostAt(cfg, r, s, k);
    PostsArePrefix(cfg, r, s);
    var p := s.posts[k];
    assert NoSlot(p) == Order(cfg)[k];
    SlotChunkAt(cfg, s, p.slot);
    RootBytes(cfg, r, src, s, p.slot);
    var ch := s.places[p.slot].chunk;
    PartOfWhole(s.bufs[p.slot].value, src[ch.file], ch.offset, ch.n, p.off, p.len);
  }

  lemma RootBytes(cfg: Config, r: nat, src: seq<seq<Byte>>, s: Rank, x: nat)
    requires ContentInv(cfg, r, src, s) && x < cfg.depth && s.places[x].Flying? && s.places[x].chunk.root == r
    ensures s.bufs[x].Some? && s.places[x].chunk.file < |src|
            && HoldsPart(s.bufs[x].value, src[s.places[x].chunk.file], s.places[x].chunk.offset, 0, s.places[x].chunk.n)
  {
    hide HoldsPart, RangeOk, Base, QueuedBytes, Carried;
  }

  lemma CaptureKeeps(cfg: Config, src: seq<seq<Byte>>, w: World, a: Action)
    requires WorldInv(cfg, src, w) && Enabled(cfg, w, a) && a.ACapture?
    ensures WorldInv(cfg, src, Apply(cfg, w, a))
  {
    hide Inv, PlanChunks, AllPosts, Order, PayloadOk, ShapeOk, Config.Valid;
    assert a.k !in w.ranks[a.r].completed;
    CaptureOk(cfg, a.r, src, w.ranks[a.r], a.k);
  }

  lemma InvPos(cfg: Config, r: nat, src: seq<seq<Byte>>, s: Rank)
    requires Inv(cfg, r, src, s)
    ensures PosInv(cfg, r, s) && FlightInv(cfg, s) && SlotInv(cfg, s)
  {
    hide PosInv, FlightInv, SlotInv, QueueInv, CountInv, LifeInv, OpenInv, ContentInv, SizeInv, Config.Valid;
  }

  lemma ArriveKeeps(cfg: Config, src: seq<seq<Byte>>, w: World, a: Action)
    requires WorldInv(cfg, src, w) && Enabled(cfg, w, a) && a.AComplete?
    ensures WorldInv(cfg, src, Apply(cfg, w, a))
  {
    hide Inv, PlanChunks, Order, AllPosts, PayloadOk, ShapeOk, Config.Valid, PosInv, FlightInv, SlotInv, WellChunk, SubOk;
    var s := w.ranks[a.r];
    InvPos(cfg, a.r, src, s);
    Positive(cfg);
    PostsArePrefix(cfg, a.r, s);
    PostAt(cfg, a.r, s, a.k);
    assert NoSlot(s.posts[a.k]) == Order(cfg)[a.k];
    CompleteKeeps(cfg, a.r, src, s, a.k, w.wire[a.k]);
  }

  lemma LocalStepKeeps(cfg: Config, src: seq<seq<Byte>>, w: World, a: Action)
    requires WorldInv(cfg, src, w) && Enabled(cfg, w, a) && !a.ACapture? && !a.AComplete?
    ensures WorldInv(cfg, src, Apply(cfg, w, a))
  {
    hide Inv, Take, PostChunk, TakeAck, Reap, ShapeOk, WireOk, WriterStep, CanWrite, CanReap, CanAck, CanPost, CanTake, CanEndPosting, ReadOk, EndPosting, EndDrain, Config.Valid, PayloadOk, Order;
    LocalKeeps(cfg, src, w, a);
    var w' := Apply(cfg, w, a);
    assert w'.wire == w.wire && forall q | 0 <= q < cfg.world && q != a.r :: w'.ranks[q] == w.ranks[q];
  }

  lemma StepKeeps(cfg: Config, src: seq<seq<Byte>>, w: World, a: Action)
    requires WorldInv(cfg, src, w) && Enabled(cfg, w, a)
    ensures WorldInv(cfg, src, Apply(cfg, w, a))
  {
    hide WorldInv, Enabled, Apply;
    if a.ACapture? {
      CaptureKeeps(cfg, src, w, a);
    } else if a.AComplete? {
      ArriveKeeps(cfg, src, w, a);
    } else {
      LocalStepKeeps(cfg, src, w, a);
    }
  }

  lemma InitKeeps(cfg: Config, src: seq<seq<Byte>>, w: World)
    requires InitWorld(cfg, src, w)
    ensures WorldInv(cfg, src, w)
  {
    hide Inv, DiskReady, Config.Valid;
    assert 0 < cfg.chunk by { Positive(cfg); }
    forall r: nat | r < cfg.world
      ensures Inv(cfg, r, src, w.ranks[r]) && w.ranks[r].completed == {}
    {
      InitHolds(cfg, r, src, w.ranks[r].disk);
    }
  }

  lemma {:induction false} ExecKeeps(cfg: Config, src: seq<seq<Byte>>, w: World, sched: seq<Action>)
    requires WorldInv(cfg, src, w) && Exec(cfg, w, sched).Some?
    ensures WorldInv(cfg, src, Exec(cfg, w, sched).value)
    decreases |sched|
  {
    if sched != [] {
      StepKeeps(cfg, src, w, sched[0]);
      hide WorldInv, Enabled, Apply, Config.Valid;
      ExecKeeps(cfg, src, Apply(cfg, w, sched[0]), sched[1..]);
    }
  }

  /** The invariant holds in every state any schedule can reach. */
  lemma ReachableInv(cfg: Config, src: seq<seq<Byte>>, w: World)
    requires cfg.Valid() && Reachable(cfg, src, w)
    ensures WorldInv(cfg, src, w)
  {
    var w0: World, sched: seq<Action> :| InitWorld(cfg, src, w0) && Exec(cfg, w0, sched) == Some(w);
    hide WorldInv;
    InitKeeps(cfg, src, w0);
    ExecKeeps(cfg, src, w0, sched);
  }
}
