/** What starvation means for the job: the rank never moves again. And the smallest plan that allows it. */
module PipelineStuck {
  import opened Types
  import opened Counting
  import opened PipelineModel
  import opened PipelineInv
  import opened PipelineReap
  import opened PipelineWorld
  import opened PipelineSafety
  import opened PipelineTheorems
  import opened PipelineProgress
  import opened PipelineStarve
  import opened PipelineStarveRun

  /** With no write outstanding no acknowledgement is under way, nor can a writer make one. */
  lemma NoAckComes(cfg: Config, r: nat, src: seq<seq<Byte>>, s: Rank)
    requires Inv(cfg, r, src, s) && Starved(s)
    ensures s.acks == []
    ensures forall v: nat | v < cfg.writers && CanWrite(cfg, s, v) :: !s.sent[v][s.received[v]].Write?
  {
    hide SlotInv, QueueInv, FlightInv, PosInv, CountInv, LifeInv, OpenInv, ContentInv, SizeInv, Config.Valid, SourceOk;
    forall x: nat | x < cfg.depth
      ensures !s.places[x].AtWriter()
    {
      NothingWriting(cfg, r, s, x);
    }
    QueuesEmpty(cfg, s);
  }

  lemma AckShows(cfg: Config, s: Rank)
    requires QueueInv(cfg, s) && |s.places| == cfg.depth
    ensures s.acks == [] || exists x: nat :: x < cfg.depth && s.places[x].AtWriter()
  {
    hide Config.WriterOf;
    if s.acks != [] {
      assert s.places[s.acks[0].slot].AtWriter();
    }
  }

  lemma QueuesEmpty(cfg: Config, s: Rank)
    requires QueueInv(cfg, s) && |s.places| == cfg.depth && forall x: nat | x < cfg.depth :: !s.places[x].AtWriter()
    ensures s.acks == []
    ensures forall v: nat | v < cfg.writers && CanWrite(cfg, s, v) :: !s.sent[v][s.received[v]].Write?
  {
    hide Config.WriterOf;
    AckShows(cfg, s);
  }

  /** A starved driver stays where it is, whatever the other ranks, MPI and its writers do. */
  lemma StarvedStays(cfg: Config, src: seq<seq<Byte>>, w: World, a: Action, r: nat)
    requires WorldInv(cfg, src, w) && Enabled(cfg, w, a) && r < cfg.world && Starved(w.ranks[r])
    ensures Starved(Apply(cfg, w, a).ranks[r])
  {
    hide Inv, Config.Valid, ShapeOk, WireOk, CanWrite, ReadOk, WriteAt, SetLen;
    var s := w.ranks[r];
    assert Inv(cfg, r, src, s);
    NoAckComes(cfg, r, src, s);
    if a.r == r {
      match a
      case AWriter(_, v) => WriterIdle(cfg, s, v);
      case ACapture(_, _) =>
      case AComplete(_, k) =>
      case _ =>
    }
  }

  lemma WriterIdle(cfg: Config, s: Rank, v: nat)
    requires CanWrite(cfg, s, v)
    ensures WriterStep(cfg, s, v).pc == s.pc && WriterStep(cfg, s, v).pending == s.pending
  {
    hide WriteAt, SetLen, Config.WriterOf;
  }

  /** Once a rank is starved, no continuation of the run ever completes. */
  lemma {:induction false} StarvedForever(cfg: Config, src: seq<seq<Byte>>, w: World, sched: seq<Action>, r: nat)
    requires WorldInv(cfg, src, w) && Exec(cfg, w, sched).Some? && r < cfg.world && Starved(w.ranks[r])
    ensures Starved(Exec(cfg, w, sched).value.ranks[r]) && !AllDone(Exec(cfg, w, sched).value)
    decreases |sched|
  {
    if sched != [] {
      StepKeeps(cfg, src, w, sched[0]);
      StarvedStays(cfg, src, w, sched[0], r);
      hide WorldInv, Enabled, Apply, Config.Valid;
      StarvedForever(cfg, src, Apply(cfg, w, sched[0]), sched[1..], r);
    } else {
      assert !Done(w.ranks[r]);
    }
  }

  // ---- the smallest example

  /** Two ranks, one file of two chunks that rank 0 has and rank 1 lacks, one buffer. */
  function TwoChunks(chunk: nat): Config {
    Config(2, [ShardSpec(0, 0, 0, 2 * chunk, 0)], chunk, 1, 1, false, [2 * chunk], {(0, 0)})
  }

  /** With one buffer, two chunks are enough to starve the receiving rank. */
  lemma DepthOneStarves(chunk: nat, src: seq<seq<Byte>>)
    requires chunk > 0 && SourceOk(TwoChunks(chunk), src)
    ensures TwoChunks(chunk).Valid()
    ensures exists w: World :: SurelyReachable(TwoChunks(chunk), src, w) && 1 < |w.ranks| && Starved(w.ranks[1])
  {
    var cfg := TwoChunks(chunk);
    var s := cfg.plan[0];
    assert cfg.ValidShard(s);
    var first, second := Chunk(0, 0, 0, chunk), Chunk(0, 0, chunk, chunk);
    assert ShardChunks(s, chunk, chunk) == [second] by {
      assert ShardChunks(s, chunk, 2 * chunk) == [];
    }
    assert ShardChunks(s, chunk, 0) == [first, second];
    assert PlanChunks(cfg.plan[1..], chunk) == [];
    assert PlanChunks(cfg.plan, chunk) == [first, second];
    assert BeforeLast(cfg) == [first];
    assert !cfg.OwnsAll(1, 0) by { assert cfg.plan[0].fileIdx == 0; }
    assert cfg.NeedsWrite(1, 0);
    CountLast([first], Written(cfg, 1));
    assert Count([first], Written(cfg, 1)) >= 1;
    assert Starvable(cfg, 1);
    StarvationIff(cfg, src, 1);
  }
}
