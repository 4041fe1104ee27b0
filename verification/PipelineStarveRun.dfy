/**
  The other half: whenever the plan is starvable for a rank, some run starves it.

  The schedule holds back the rank's writers until every slot waits for them, then lets them all
  acknowledge between the rank's last wait and its next drain.
*/
module PipelineStarveRun {
  import opened Types
  import opened Counting
  import opened PipelineModel
  import opened PipelineInv
  import opened PipelinePosts
  import opened PipelineClose
  import opened PipelineTake
  import opened PipelinePost
  import opened PipelineAck
  import opened PipelineReap
  import opened PipelineWrite
  import opened PipelineComplete
  import opened PipelineWorld
  import opened PipelineSafety
  import opened PipelineTheorems
  import opened PipelineProgress
  import opened PipelineMeasure
  import opened PipelineStarve

  /** Nothing in flight, every slot at the writers, work left, about to drain an empty ack channel. */
  predicate Ripe(cfg: Config, s: Rank) {
    s.pc.Draining? && s.inFlight == [] && s.free == [] && s.acks == [] && WorkLeft(cfg, s)
  }

  /** The schedule's choice of steps: victim `v` is fed but its writers wait; others never have two acks at once. */
  predicate Allowed(cfg: Config, v: nat, w: World, a: Action)
    requires a.r < |w.ranks|
  {
    match a
    case AWriter(q, _) => q != v && w.ranks[q].pc.AckWait? && w.ranks[q].acks == []
    case AEndDrain(q) => q != v || !Ripe(cfg, w.ranks[q])
    case _ => true
  }

  ghost predicate Orderly(cfg: Config, s: Rank) {
    && |s.acks| <= 1 && (s.acks != [] ==> s.pc.AckWait?)
    && (Parked(s) && WorkLeft(cfg, s) ==> s.free == [])
  }

  ghost predicate Fattened(cfg: Config, v: nat, s: Rank) {
    && s.acks == [] && WorkLeft(cfg, s) && !s.pc.AckWait? && !s.pc.Finished?
    && Count(s.places, Holding(cfg, v)) == Count(s.chunks, Written(cfg, v))
    && HeldInv(cfg, v, s)
  }

  ghost predicate Staged(cfg: Config, v: nat, w: World) {
    && |w.ranks| == cfg.world && v < cfg.world
    && (forall q: nat | q < cfg.world :: Orderly(cfg, w.ranks[q]))
    && Fattened(cfg, v, w.ranks[v])
  }

  // ---- the schedule keeps its stage

  lemma TakeOrderly(cfg: Config, r: nat, src: seq<seq<Byte>>, s: Rank)
    requires Inv(cfg, r, src, s) && ShapeOk(cfg, s) && CanTake(cfg, s) && Orderly(cfg, s)
    ensures var t := Take(cfg, r, s);
            Orderly(cfg, t) && t.acks == s.acks && t.pc == s.pc && t.places == s.places && t.chunks == s.chunks
  {
    hide Config.WriterOf, Config.Valid, SlotInv, QueueInv, FlightInv, PosInv, CountInv, LifeInv, OpenInv, ContentInv, SizeInv, Count;
  }

  lemma PostOrderly(cfg: Config, r: nat, src: seq<seq<Byte>>, s: Rank)
    requires Inv(cfg, r, src, s) && ShapeOk(cfg, s) && CanPost(cfg, s) && ReadOk(cfg, s) && Orderly(cfg, s)
    ensures var t := PostChunk(cfg, s); Orderly(cfg, t) && t.acks == s.acks && t.pc == s.pc
  {
    hide SubPosts, Config.WriterOf, Config.Valid, SlotInv, QueueInv, FlightInv, PosInv, CountInv, LifeInv, OpenInv, ContentInv, SizeInv, Count;
  }

  lemma AckOrderly(cfg: Config, r: nat, src: seq<seq<Byte>>, s: Rank)
    requires Inv(cfg, r, src, s) && ShapeOk(cfg, s) && CanAck(s) && Orderly(cfg, s)
    ensures Orderly(cfg, TakeAck(cfg, s))
  {
    hide Config.WriterOf, Config.Valid, SlotInv, QueueInv, FlightInv, PosInv, CountInv, LifeInv, OpenInv, ContentInv, SizeInv, Count;
  }

  lemma ReapOrderly(cfg: Config, r: nat, src: seq<seq<Byte>>, s: Rank, i: nat)
    requires Inv(cfg, r, src, s) && ShapeOk(cfg, s) && CanReap(cfg, s, i) && Orderly(cfg, s)
    ensures var t := Reap(cfg, s, i);
            && Orderly(cfg, t) && t.acks == s.acks && t.chunks == s.chunks && t.pc == Posting
            && t.nextPlan == s.nextPlan && t.active == s.active
  {
    hide SwapRemove, Config.WriterOf, Config.Valid, SlotInv, QueueInv, FlightInv, PosInv, CountInv, LifeInv, OpenInv, ContentInv, SizeInv, Count;
  }

  lemma WriterOrderly(cfg: Config, r: nat, src: seq<seq<Byte>>, s: Rank, v: nat)
    requires Inv(cfg, r, src, s) && CanWrite(cfg, s, v) && Orderly(cfg, s) && s.pc.AckWait? && s.acks == []
    ensures Orderly(cfg, WriterStep(cfg, s, v))
  {
    hide WriteAt, SetLen, Config.WriterOf, Config.Valid, SlotInv, QueueInv, FlightInv, PosInv, CountInv, LifeInv, OpenInv, ContentInv, SizeInv, Count;
  }

  lemma StepOrderly(cfg: Config, src: seq<seq<Byte>>, v: nat, w: World, a: Action)
    requires WorldInv(cfg, src, w) && Enabled(cfg, w, a) && Allowed(cfg, v, w, a)
    requires Orderly(cfg, w.ranks[a.r])
    ensures Orderly(cfg, Apply(cfg, w, a).ranks[a.r])
  {
    hide Inv, Take, PostChunk, TakeAck, Reap, WriterStep, ShapeOk, CanWrite, CanPost, CanTake, ReadOk, Config.Valid, WireOk;
    var s := w.ranks[a.r];
    match a
    case ATake(r) => TakeOrderly(cfg, r, src, s);
    case APost(r) => PostOrderly(cfg, r, src, s);
    case AEndPosting(r) =>
    case AAck(r) => AckOrderly(cfg, r, src, s);
    case AEndDrain(r) =>
    case AReap(r, i) => ReapOrderly(cfg, r, src, s, i);
    case AWriter(r, k) => WriterOrderly(cfg, r, src, s, k);
    case ACapture(r, k) =>
    case AComplete(r, k) =>
  }

  // ---- the victim never runs out of work before it is ripe

  lemma HoldLess(cfg: Config, r: nat, s: Rank)
    requires SlotInv(cfg, s) && s.free != []
    ensures Count(s.places, Holding(cfg, r)) < cfg.depth
  {
    hide Count, Config.NeedsWrite;
    CountBound(s.places, Holding(cfg, r));
    assert !Holding(cfg, r)(s.places[s.free[0]]);
  }

  /** The step that uses up the plan starts exactly where BeforeLast ends. */
  lemma LastTake(cfg: Config, r: nat, s: Rank)
    requires PosInv(cfg, r, s) && s.active.None? && s.nextPlan + 1 == |cfg.plan|
    requires cfg.plan[s.nextPlan].byteLen == 0
    ensures s.chunks == BeforeLast(cfg)
  {
    hide AllPosts, WellChunk;
    var rest := cfg.plan[s.nextPlan..];
    assert rest[1..] == [];
    assert ShardChunks(rest[0], cfg.chunk, 0) == [];
    assert PlanChunks(rest[1..], cfg.chunk) == [];
    assert PlanChunks(rest, cfg.chunk) == [];
    assert Remaining(cfg, s) == [];
  }

  lemma LastPost(cfg: Config, r: nat, s: Rank)
    requires PosInv(cfg, r, s) && s.active.Some? && s.nextPlan == |cfg.plan|
    requires var c := s.active.value; c.nextPost + NextChunk(cfg, c).n >= c.shard.byteLen
    ensures s.chunks == BeforeLast(cfg)
  {
    hide AllPosts, WellChunk;
    var c := s.active.value;
    assert ShardChunks(c.shard, cfg.chunk, c.nextPost + NextChunk(cfg, c).n) == [];
    assert cfg.plan[s.nextPlan..] == [];
    assert Remaining(cfg, s) == [NextChunk(cfg, c)];
    assert c.shard.byteLen > 0;
  }

  lemma TakeFattens(cfg: Config, v: nat, src: seq<seq<Byte>>, s: Rank)
    requires Inv(cfg, v, src, s) && ShapeOk(cfg, s) && CanTake(cfg, s) && Orderly(cfg, s) && Fattened(cfg, v, s)
    requires cfg.chunk > 0 && Starvable(cfg, v)
    ensures Fattened(cfg, v, Take(cfg, v, s))
  {
    hide Take, BeforeLast, Written, Holding, ShapeOk, Config.Valid, SlotInv, QueueInv, FlightInv, PosInv, CountInv, LifeInv, OpenInv, ContentInv, SizeInv, Count, HeldInv;
    TakeOrderly(cfg, v, src, s);
    TakeHeld(cfg, v, src, s);
    var t := Take(cfg, v, s);
    TakeLeft(cfg, v, src, s);
    if !WorkLeft(cfg, t) {
      LastTake(cfg, v, s);
      HoldLess(cfg, v, s);
    }
  }

  lemma TakeLeft(cfg: Config, r: nat, src: seq<seq<Byte>>, s: Rank)
    requires Inv(cfg, r, src, s) && ShapeOk(cfg, s) && CanTake(cfg, s)
    ensures WorkLeft(cfg, Take(cfg, r, s)) || (s.nextPlan + 1 == |cfg.plan| && cfg.plan[s.nextPlan].byteLen == 0)
  {
    hide Config.WriterOf, Config.Valid, SlotInv, QueueInv, FlightInv, PosInv, CountInv, LifeInv, OpenInv, ContentInv, SizeInv;
  }

  lemma PostLeft(cfg: Config, r: nat, src: seq<seq<Byte>>, s: Rank)
    requires Inv(cfg, r, src, s) && ShapeOk(cfg, s) && CanPost(cfg, s) && ReadOk(cfg, s)
    ensures WorkLeft(cfg, PostChunk(cfg, s))
            || (s.nextPlan >= |cfg.plan| && s.active.value.nextPost + NextChunk(cfg, s.active.value).n >= s.active.value.shard.byteLen)
  {
    hide SubPosts, Config.WriterOf, Config.Valid, SlotInv, QueueInv, FlightInv, PosInv, CountInv, LifeInv, OpenInv, ContentInv, SizeInv;
  }

  lemma PostFattens(cfg: Config, v: nat, src: seq<seq<Byte>>, s: Rank)
    requires Inv(cfg, v, src, s) && ShapeOk(cfg, s) && CanPost(cfg, s) && ReadOk(cfg, s) && Orderly(cfg, s) && Fattened(cfg, v, s)
    requires cfg.chunk > 0 && Starvable(cfg, v)
    ensures Fattened(cfg, v, PostChunk(cfg, s))
  {
    hide PostChunk, BeforeLast, Written, Holding, ShapeOk, Config.Valid, SlotInv, QueueInv, FlightInv, PosInv, CountInv, LifeInv, OpenInv, ContentInv, SizeInv, Count, HeldInv;
    PostOrderly(cfg, v, src, s);
    PostHeld(cfg, v, src, s);
    PostLeft(cfg, v, src, s);
    if !WorkLeft(cfg, PostChunk(cfg, s)) {
      PlanBound(cfg, v, s);
      LastPost(cfg, v, s);
      HoldLess(cfg, v, s);
    }
  }

  lemma StepFattens(cfg: Config, src: seq<seq<Byte>>, v: nat, w: World, a: Action)
    requires WorldInv(cfg, src, w) && Enabled(cfg, w, a) && Allowed(cfg, v, w, a) && a.r == v
    requires cfg.chunk > 0 && Starvable(cfg, v)
    requires Orderly(cfg, w.ranks[v]) && Fattened(cfg, v, w.ranks[v])
    ensures Fattened(cfg, v, Apply(cfg, w, a).ranks[v])
  {
    hide Inv, Take, PostChunk, TakeAck, Reap, WriterStep, ShapeOk, CanWrite, CanPost, CanTake, ReadOk, Config.Valid, WireOk, Starvable, Count;
    var s := w.ranks[v];
    match a
    case ATake(r) => TakeFattens(cfg, r, src, s);
    case APost(r) => PostFattens(cfg, r, src, s);
    case AEndPosting(r) =>
    case AAck(r) =>
    case AEndDrain(r) =>
    case AReap(r, i) => ReapHeld(cfg, r, src, s, i); ReapOrderly(cfg, r, src, s, i);
    case AWriter(r, k) =>
    case ACapture(r, k) =>
    case AComplete(r, k) =>
  }

  lemma StepStaged(cfg: Config, src: seq<seq<Byte>>, v: nat, w: World, a: Action)
    requires WorldInv(cfg, src, w) && Enabled(cfg, w, a) && Allowed(cfg, v, w, a) && Staged(cfg, v, w)
    requires cfg.chunk > 0 && Starvable(cfg, v)
    ensures Staged(cfg, v, Apply(cfg, w, a))
  {
    hide WorldInv, Orderly, Fattened, Allowed, Enabled, Apply, Starvable, Config.Valid;
    WorldShape(cfg, src, w);
    OtherRanks(cfg, w, a);
    StepOrderly(cfg, src, v, w, a);
    if a.r == v {
      StepFattens(cfg, src, v, w, a);
    }
    if a.ACapture? {
      CaptureWork(cfg, src, w, a);
    }
  }

  // ---- some allowed step until the victim is ripe

  lemma NotStarvedHere(cfg: Config, r: nat, src: seq<seq<Byte>>, s: Rank)
    requires Inv(cfg, r, src, s) && Orderly(cfg, s)
    ensures !Starved(s)
  {
    if Starved(s) {
      StarvedSlots(cfg, r, src, s);
      Positive(cfg);
    }
  }

  lemma StagedStep(cfg: Config, src: seq<seq<Byte>>, v: nat, w: World) returns (a: Action)
    requires WorldInv(cfg, src, w) && Staged(cfg, v, w) && !Ripe(cfg, w.ranks[v])
    ensures Sure(cfg, w, a) && Allowed(cfg, v, w, a)
  {
    hide Inv, Config.Valid, WireOk, Enabled, Sure, ShapeOk, ReadOk, CanPost, CanWrite, Count;
    if q: nat :| q < cfg.world && (w.ranks[q].pc.Posting? || w.ranks[q].pc.Draining?) {
      a := DriverStep(cfg, src, v, w, q);
    } else if q: nat :| q < cfg.world && w.ranks[q].pc.AckWait? {
      a := AckStep(cfg, src, w, q);
    } else {
      a := LeastStep(cfg, src, v, w);
    }
  }

  lemma DriverStep(cfg: Config, src: seq<seq<Byte>>, v: nat, w: World, q: nat) returns (a: Action)
    requires WorldInv(cfg, src, w) && Staged(cfg, v, w) && !Ripe(cfg, w.ranks[v])
    requires q < cfg.world && (w.ranks[q].pc.Posting? || w.ranks[q].pc.Draining?)
    ensures Sure(cfg, w, a) && Allowed(cfg, v, w, a)
  {
    hide CoreInv, ShapeOk, CanTake, CanPost, ReadOk, CanEndPosting, CanAck, Config.Valid, WireOk, Ripe, Fattened;
    var s := w.ranks[q];
    DriverRuns(cfg, q, src, s);
    a := if CanTake(cfg, s) then ATake(q)
         else if CanPost(cfg, s) && ReadOk(cfg, s) then APost(q)
         else if CanEndPosting(cfg, s) then AEndPosting(q)
         else if CanAck(s) then AAck(q)
         else AEndDrain(q);
  }

  /** In the receive a rank takes its one ack, or a writer makes it. */
  lemma AckStep(cfg: Config, src: seq<seq<Byte>>, w: World, q: nat) returns (a: Action)
    requires WorldInv(cfg, src, w) && q < cfg.world && Orderly(cfg, w.ranks[q]) && w.ranks[q].pc.AckWait?
    ensures Sure(cfg, w, a) && a.r == q && (a.AAck? || (a.AWriter? && w.ranks[q].acks == []))
  {
    hide CoreInv, ShapeOk, CanTake, CanPost, ReadOk, CanEndPosting, CanWrite, Config.Valid, WireOk, Count;
    var s := w.ranks[q];
    assert Inv(cfg, q, src, s);
    NotStarvedHere(cfg, q, src, s);
    if s.acks != [] {
      AckIsOk(cfg, q, src, s);
      a := AAck(q);
    } else {
      var k := AckComes(cfg, q, src, s);
      assert !DriverSteps(cfg, s) by { AckWaitIdle(cfg, s); }
      a := AWriter(q, k);
    }
  }

  lemma AckWaitIdle(cfg: Config, s: Rank)
    requires cfg.Valid() && s.pc.AckWait? && s.acks == []
    ensures !DriverSteps(cfg, s)
  {
  }

  lemma LeastStep(cfg: Config, src: seq<seq<Byte>>, v: nat, w: World) returns (a: Action)
    requires WorldInv(cfg, src, w) && Staged(cfg, v, w)
    requires forall q: nat | q < cfg.world :: !w.ranks[q].pc.Posting? && !w.ranks[q].pc.Draining? && !w.ranks[q].pc.AckWait?
    ensures Sure(cfg, w, a) && Allowed(cfg, v, w, a)
  {
    hide Inv, Config.Valid, WireOk, Count, Orderly;
    hide ShapeOk;
    a := LeastMoves(cfg, src, w, v);
  }

  lemma {:induction false} RunToRipe(cfg: Config, src: seq<seq<Byte>>, v: nat, w0: World, w: World, bound: nat) returns (w': World)
    requires WorldInv(cfg, src, w) && Staged(cfg, v, w) && cfg.chunk > 0 && Starvable(cfg, v)
    requires |w0.ranks| == cfg.world && SurelyFrom(cfg, w0, w)
    requires forall r | 0 <= r < |w.ranks| :: w.ranks[r].nextPlan <= |cfg.plan| && |w.ranks[r].received| == |w.ranks[r].sent|
    requires WorldWork(cfg, w) <= bound
    ensures SurelyFrom(cfg, w0, w')
    ensures WorldInv(cfg, src, w') && Staged(cfg, v, w') && v < |w'.ranks| && Ripe(cfg, w'.ranks[v])
    decreases bound
  {
    hide WorldInv, Enabled, Apply, WorldWork, Config.Valid, Starvable, Ripe, Allowed, Orderly, Fattened, SurelyFrom;
    WorldShape(cfg, src, w);
    if Ripe(cfg, w.ranks[v]) {
      w' := w;
    } else {
      var a := StagedStep(cfg, src, v, w);
      StepStaged(cfg, src, v, w, a);
      StepUsesWork(cfg, src, w, a);
      SurelyNext(cfg, w0, w, a);
      w' := RunToRipe(cfg, src, v, w0, Apply(cfg, w, a), bound - 1);
    }
  }

  // ---- the writers answer all at once

  /** Like Ripe, with some of the writes already acknowledged. */
  ghost predicate Answering(cfg: Config, s: Rank) {
    s.pc.Draining? && s.inFlight == [] && WorkLeft(cfg, s)
  }

  lemma WriterAnswers(cfg: Config, src: seq<seq<Byte>>, v: nat, w: World, k: nat)
    requires WorldInv(cfg, src, w) && v < cfg.world && Answering(cfg, w.ranks[v])
    requires k < cfg.writers && k < |w.ranks[v].sent| && k < |w.ranks[v].received| && w.ranks[v].received[k] < |w.ranks[v].sent[k]|
    ensures Enabled(cfg, w, AWriter(v, k))
    ensures var t := Apply(cfg, w, AWriter(v, k)); |t.ranks| == cfg.world && Answering(cfg, t.ranks[v])
  {
    hide CoreInv, ShapeOk, Config.Valid, WireOk;
    var s := w.ranks[v];
    assert Inv(cfg, v, src, s);
    ShapeIs(cfg, v, src, s);
    WriteIsOk(cfg, v, src, s, k);
    TurnFields(cfg, v, src, s, k);
  }

  lemma AckAnswers(cfg: Config, src: seq<seq<Byte>>, v: nat, w: World)
    requires WorldInv(cfg, src, w) && v < cfg.world && Answering(cfg, w.ranks[v]) && w.ranks[v].acks != []
    ensures Enabled(cfg, w, AAck(v))
    ensures var t := Apply(cfg, w, AAck(v)); |t.ranks| == cfg.world && Answering(cfg, t.ranks[v])
  {
    hide CoreInv, ShapeOk, Config.Valid, WireOk, MaybeClose;
    var s := w.ranks[v];
    assert Inv(cfg, v, src, s);
    ShapeIs(cfg, v, src, s);
    AckIsOk(cfg, v, src, s);
    InvLengths(cfg, v, src, s);
    Positive(cfg);
    CloseFields(cfg, AckBody(s), s.acks[0].file);
  }

  lemma {:induction false} RunToStarved(cfg: Config, src: seq<seq<Byte>>, v: nat, w0: World, w: World, bound: nat) returns (w': World)
    requires WorldInv(cfg, src, w) && v < cfg.world && Answering(cfg, w.ranks[v]) && cfg.chunk > 0
    requires |w0.ranks| == cfg.world && SurelyFrom(cfg, w0, w)
    requires forall r | 0 <= r < |w.ranks| :: w.ranks[r].nextPlan <= |cfg.plan| && |w.ranks[r].received| == |w.ranks[r].sent|
    requires WorldWork(cfg, w) <= bound
    ensures SurelyFrom(cfg, w0, w') && v < |w'.ranks| && Starved(w'.ranks[v])
    decreases bound
  {
    hide WorldInv, Enabled, Apply, WorldWork, Config.Valid, Answering, Starved, SurelyFrom;
    WorldShape(cfg, src, w);
    var s := w.ranks[v];
    WorldLengths(cfg, src, w, v);
    var a: Action;
    if k: nat :| k < cfg.writers && s.received[k] < |s.sent[k]| {
      WriterAnswers(cfg, src, v, w, k);
      a := AWriter(v, k);
    } else if s.acks != [] {
      AckAnswers(cfg, src, v, w);
      a := AAck(v);
    } else {
      LastStep(cfg, src, v, w);
      SurelyNext(cfg, w0, w, AEndDrain(v));
      return Apply(cfg, w, AEndDrain(v));
    }
    StepUsesWork(cfg, src, w, a);
    SurelyNext(cfg, w0, w, a);
    w' := RunToStarved(cfg, src, v, w0, Apply(cfg, w, a), bound - 1);
  }

  lemma WorldLengths(cfg: Config, src: seq<seq<Byte>>, w: World, v: nat)
    requires WorldInv(cfg, src, w) && v < cfg.world
    ensures |w.ranks[v].sent| == |w.ranks[v].received| == cfg.writers
  {
    hide CoreInv, WireOk, Config.Valid;
    assert Inv(cfg, v, src, w.ranks[v]);
    InvLengths(cfg, v, src, w.ranks[v]);
  }

  /** Every ack has been drained and none is to come: the receive after the drain blocks for ever. */
  lemma LastStep(cfg: Config, src: seq<seq<Byte>>, v: nat, w: World)
    requires WorldInv(cfg, src, w) && v < cfg.world && Answering(cfg, w.ranks[v]) && w.ranks[v].acks == []
    requires |w.ranks[v].sent| == |w.ranks[v].received| == cfg.writers
    requires forall k: nat | k < cfg.writers :: w.ranks[v].received[k] >= |w.ranks[v].sent[k]|
    ensures Enabled(cfg, w, AEndDrain(v))
    ensures var t := Apply(cfg, w, AEndDrain(v)); v < |t.ranks| && Starved(t.ranks[v])
  {
    hide SlotInv, QueueInv, FlightInv, PosInv, CountInv, LifeInv, OpenInv, ContentInv, SizeInv, ShapeOk, Config.Valid, WireOk, Count;
    var s := w.ranks[v];
    assert Inv(cfg, v, src, s);
    ShapeIs(cfg, v, src, s);
    if s.pending != 0 {
      var x := SomeWriting(cfg, v, s);
      WriterPlace(cfg, s, x);
    }
  }

  // ---- a start from which it all happens

  lemma SomeStart(cfg: Config, src: seq<seq<Byte>>) returns (w: World)
    requires cfg.Valid() && SourceOk(cfg, src)
    ensures InitWorld(cfg, src, w)
  {
    w := World(seq(cfg.world, r requires 0 <= r => InitRank(cfg, r, src)), map[]);
    hide InitFile, Base, Config.NeedsWrite, Config.Valid;
    forall r | 0 <= r < cfg.world
      ensures DiskReady(cfg, r, src, w.ranks[r].disk) && w.ranks[r] == InitRank(cfg, r, w.ranks[r].disk)
    {
      assert w.ranks[r] == InitRank(cfg, r, src);
    }
  }

  lemma StartStaged(cfg: Config, src: seq<seq<Byte>>, w: World, v: nat)
    requires InitWorld(cfg, src, w) && v < cfg.world && cfg.chunk > 0 && Starvable(cfg, v)
    ensures Staged(cfg, v, w)
  {
    hide DiskReady, Config.NeedsWrite, Count, InitFile, Config.Valid, HeldInv;
    InitHeld(cfg, src, w);
    Positive(cfg);
    NoneCounted(cfg.depth, Holding(cfg, v));
    CountZero(BeforeLast(cfg), Written(cfg, v));
    CountZero(w.ranks[v].chunks, Written(cfg, v));
  }

  /**
    A rank can be starved, whatever the pipeline depth, exactly when at least `depth` chunks that it has to
    write come before the last piece of work of the plan. It makes no difference how soon MPI moves collectives.
  */
  lemma StarvationIff(cfg: Config, src: seq<seq<Byte>>, v: nat)
    requires cfg.Valid() && SourceOk(cfg, src) && v < cfg.world
    ensures cfg.chunk > 0
    ensures Starvable(cfg, v) <==> exists w: World :: Reachable(cfg, src, w) && v < |w.ranks| && Starved(w.ranks[v])
    ensures Starvable(cfg, v) <==> exists w: World :: SurelyReachable(cfg, src, w) && v < |w.ranks| && Starved(w.ranks[v])
  {
    hide Reachable, SurelyFrom, InitWorld, Starvable, Starved, Config.Valid;
    Positive(cfg);
    forall w: World | SurelyReachable(cfg, src, w)
      ensures Reachable(cfg, src, w)
    {
      SurelyIsReachable(cfg, src, w);
    }
    if w: World :| Reachable(cfg, src, w) && v < |w.ranks| && Starved(w.ranks[v]) {
      StarvedIsStarvable(cfg, src, w, v);
    }
    if Starvable(cfg, v) {
      var w0 := SomeStart(cfg, src);
      var w := StarvingRun(cfg, src, w0, v);
    }
  }

  /** From every start. */
  lemma StarvingRun(cfg: Config, src: seq<seq<Byte>>, w0: World, v: nat) returns (w: World)
    requires InitWorld(cfg, src, w0) && v < cfg.world && cfg.chunk > 0 && Starvable(cfg, v)
    ensures SurelyFrom(cfg, w0, w) && v < |w.ranks| && Starved(w.ranks[v])
  {
    hide WorldInv, InitRank, DiskReady, WorldWork, Config.Valid, Starvable, Ripe, Orderly, Fattened, Starved, Enabled, Apply, SurelyFrom;
    InitKeeps(cfg, src, w0);
    StartStaged(cfg, src, w0, v);
    SurelyStart(cfg, w0);
    WorldShape(cfg, src, w0);
    var w1 := RunToRipe(cfg, src, v, w0, w0, WorldWork(cfg, w0));
    WorldShape(cfg, src, w1);
    assert Answering(cfg, w1.ranks[v]) by { RipeAnswers(cfg, w1.ranks[v]); }
    w := RunToStarved(cfg, src, v, w0, w1, WorldWork(cfg, w1));
  }

  lemma RipeAnswers(cfg: Config, s: Rank)
    requires Ripe(cfg, s)
    ensures Answering(cfg, s)
  {
  }
}
