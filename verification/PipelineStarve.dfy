/** When the blocking ack receive can starve: only if more chunks must be written than the pipeline is deep. */
module PipelineStarve {
  import opened Types
  import opened Counting
  import opened PipelineModel
  import opened PipelineInv
  import opened PipelinePosts
  import opened PipelineClose
  import opened PipelineTake
  import opened PipelinePost
  import opened PipelineAck
  import opened PipelineReap
  import opened PipelineWrite
  import opened PipelineComplete
  import opened PipelineWorld
  import opened PipelineSafety
  import opened PipelineTheorems
  import opened PipelineMeasure

  /** The chunks a rank has to hand to a writer. */
  function Written(cfg: Config, r: nat): Chunk -> bool { (c: Chunk) => cfg.NeedsWrite(r, c.file) }

  /** The slots that hold such a chunk. */
  function Holding(cfg: Config, r: nat): Place -> bool { (p: Place) => !p.Free? && cfg.NeedsWrite(r, p.chunk.file) }

  /** Everything that comes before the last piece of work of the plan: an empty shard, or a chunk. */
  function BeforeLast(cfg: Config): seq<Chunk>
    requires cfg.chunk > 0
  {
    var all := PlanChunks(cfg.plan, cfg.chunk);
    if all == [] || cfg.plan == [] || cfg.plan[|cfg.plan| - 1].byteLen == 0 then all else all[..|all| - 1]
  }

  /** A check on the plan alone: at least `depth` chunks to write before the last piece of work. */
  predicate Starvable(cfg: Config, r: nat)
    requires cfg.chunk > 0
  {
    Count(BeforeLast(cfg), Written(cfg, r)) >= cfg.depth
  }

  // ---- slots held for the writer never outnumber the chunks posted for it

  predicate Parked(s: Rank) { s.pc.Draining? || s.pc.AckWait? || s.pc.RequestWait? }

  ghost predicate HeldInv(cfg: Config, r: nat, s: Rank) {
    && Count(s.places, Holding(cfg, r)) <= Count(s.chunks, Written(cfg, r))
    && (Parked(s) && WorkLeft(cfg, s) ==>
          |s.free| + Count(s.places, Holding(cfg, r)) <= Count(s.chunks, Written(cfg, r)))
  }

  ghost predicate WorldHeld(cfg: Config, w: World) {
    |w.ranks| == cfg.world && forall r: nat | r < cfg.world :: HeldInv(cfg, r, w.ranks[r])
  }

  lemma HeldSame(cfg: Config, r: nat, s: Rank, t: Rank)
    requires HeldInv(cfg, r, s) && t.places == s.places && t.chunks == s.chunks && t.free == s.free
    requires Parked(t) && WorkLeft(cfg, t) ==> Parked(s) && WorkLeft(cfg, s)
    ensures HeldInv(cfg, r, t)
  {
  }

  lemma TakeHeld(cfg: Config, r: nat, src: seq<seq<Byte>>, s: Rank)
    requires Inv(cfg, r, src, s) && ShapeOk(cfg, s) && CanTake(cfg, s) && HeldInv(cfg, r, s)
    ensures HeldInv(cfg, r, Take(cfg, r, s))
  {
    hide Config.WriterOf, Config.Valid, SlotInv, QueueInv, FlightInv, PosInv, CountInv, LifeInv, OpenInv, ContentInv, SizeInv, Count;
    HeldSame(cfg, r, s, Take(cfg, r, s));
  }

  lemma PostHeld(cfg: Config, r: nat, src: seq<seq<Byte>>, s: Rank)
    requires Inv(cfg, r, src, s) && ShapeOk(cfg, s) && CanPost(cfg, s) && ReadOk(cfg, s) && HeldInv(cfg, r, s)
    ensures HeldInv(cfg, r, PostChunk(cfg, s))
    ensures var t := PostChunk(cfg, s);
            Count(t.places, Holding(cfg, r)) - Count(t.chunks, Written(cfg, r))
            == Count(s.places, Holding(cfg, r)) - Count(s.chunks, Written(cfg, r))
  {
    hide PostBody, MaybeClose, ShapeOk, Config.Valid, SlotInv, QueueInv, FlightInv, PosInv, CountInv, LifeInv, OpenInv, ContentInv, SizeInv, SubPosts, Entries, Config.NeedsWrite, Count;
    var slot, ch, data := PostFields(cfg, s);
    var t := PostBody(cfg, s);
    PostSlot(cfg, s, t, slot, ch, data);
    CountUpdate(s.places, slot, t.places[slot], Holding(cfg, r));
    CountLast(t.chunks, Written(cfg, r));
    assert t.chunks[..|t.chunks| - 1] == s.chunks;
    if t.active.None? {
      CountAt(cfg, r, s, ch.file);
      ReceivedBound(cfg, s);
      CloseFields(cfg, t, ch.file);
    }
  }

  lemma AckHeld(cfg: Config, r: nat, src: seq<seq<Byte>>, s: Rank)
    requires Inv(cfg, r, src, s) && ShapeOk(cfg, s) && CanAck(s) && HeldInv(cfg, r, s)
    ensures HeldInv(cfg, r, TakeAck(cfg, s))
  {
    hide MaybeClose, ShapeOk, Config.Valid, SlotInv, QueueInv, FlightInv, PosInv, CountInv, LifeInv, OpenInv, ContentInv, SizeInv, Config.NeedsWrite, Count;
    var a := s.acks[0];
    var t := AckBody(s);
    AckHead(cfg, s);
    WriterFiles(cfg, r, s, a.slot);
    CountUpdate(s.places, a.slot, Free, Holding(cfg, r));
    ReceivedBound(cfg, s);
    CloseFields(cfg, t, a.file);
  }

  lemma WriterFiles(cfg: Config, r: nat, s: Rank, x: nat)
    requires CountInv(cfg, r, s) && x < cfg.depth && s.places[x].AtWriter()
    ensures cfg.NeedsWrite(r, s.places[x].chunk.file)
  {
  }

  lemma ReapHeld(cfg: Config, r: nat, src: seq<seq<Byte>>, s: Rank, i: nat)
    requires Inv(cfg, r, src, s) && ShapeOk(cfg, s) && CanReap(cfg, s, i) && HeldInv(cfg, r, s)
    ensures HeldInv(cfg, r, Reap(cfg, s, i))
    ensures Count(Reap(cfg, s, i).places, Holding(cfg, r)) == Count(s.places, Holding(cfg, r))
  {
    hide ReapBody, MaybeClose, ShapeOk, Config.Valid, SlotInv, QueueInv, FlightInv, PosInv, CountInv, LifeInv, OpenInv, ContentInv, SizeInv, SwapRemove, Config.WriterOf, Config.NeedsWrite, Count;
    var e := s.inFlight[i];
    EntryAt(cfg, s, i);
    FlyingAt(cfg, s, e.slot);
    CountAt(cfg, r, s, e.file);
    ReapFields(cfg, s, i);
    var t := ReapBody(cfg, s, i);
    if s.subs[e.slot] <= 1 {
      CountUpdate(s.places, e.slot, t.places[e.slot], Holding(cfg, r));
      ReceivedBound(cfg, s);
      CloseFields(cfg, t, e.file);
    }
  }

  lemma WriterHeld(cfg: Config, r: nat, src: seq<seq<Byte>>, s: Rank, v: nat)
    requires Inv(cfg, r, src, s) && CanWrite(cfg, s, v) && HeldInv(cfg, r, s)
    ensures HeldInv(cfg, r, WriterStep(cfg, s, v))
    ensures Count(WriterStep(cfg, s, v).places, Holding(cfg, r)) == Count(s.places, Holding(cfg, r))
  {
    hide WriterStep, Config.Valid, SlotInv, QueueInv, FlightInv, PosInv, CountInv, LifeInv, OpenInv, ContentInv, SizeInv, Count, Config.NeedsWrite;
    TurnFields(cfg, r, src, s, v);
    var t := WriterStep(cfg, s, v);
    var cmd := Next(s, v);
    if cmd.Write? {
      CountUpdate(s.places, cmd.slot, t.places[cmd.slot], Holding(cfg, r));
    }
  }

  lemma StepHeld(cfg: Config, src: seq<seq<Byte>>, w: World, a: Action)
    requires WorldInv(cfg, src, w) && Enabled(cfg, w, a) && WorldHeld(cfg, w)
    ensures WorldHeld(cfg, Apply(cfg, w, a))
  {
    hide Inv, HeldInv, Take, PostChunk, TakeAck, Reap, WriterStep, ShapeOk, CanWrite, CanPost, CanTake, ReadOk, Config.Valid, WireOk;
    var s := w.ranks[a.r];
    assert HeldInv(cfg, a.r, s);
    var t := Apply(cfg, w, a).ranks[a.r];
    match a
    case ATake(r) => TakeHeld(cfg, r, src, s);
    case APost(r) => PostHeld(cfg, r, src, s);
    case AEndPosting(r) => EndPostingHeld(cfg, r, src, s);
    case AAck(r) => AckHeld(cfg, r, src, s);
    case AEndDrain(r) => HeldSame(cfg, r, s, t);
    case AReap(r, i) => ReapHeld(cfg, r, src, s, i);
    case AWriter(r, v) => WriterHeld(cfg, r, src, s, v);
    case ACapture(r, k) =>
    case AComplete(r, k) => HeldSame(cfg, r, s, t);
  }

  lemma EndPostingHeld(cfg: Config, r: nat, src: seq<seq<Byte>>, s: Rank)
    requires CanEndPosting(cfg, s) && HeldInv(cfg, r, s)
    ensures HeldInv(cfg, r, EndPosting(s))
  {
  }

  lemma InitHeld(cfg: Config, src: seq<seq<Byte>>, w: World)
    requires InitWorld(cfg, src, w)
    ensures WorldHeld(cfg, w)
  {
    hide DiskReady, Config.Valid, Config.NeedsWrite, Count, InitFile;
    forall r: nat | r < cfg.world
      ensures HeldInv(cfg, r, w.ranks[r])
    {
      NoneCounted(cfg.depth, Holding(cfg, r));
    }
  }

  lemma {:induction false} ExecHeld(cfg: Config, src: seq<seq<Byte>>, w: World, sched: seq<Action>)
    requires WorldInv(cfg, src, w) && WorldHeld(cfg, w) && Exec(cfg, w, sched).Some?
    ensures WorldHeld(cfg, Exec(cfg, w, sched).value)
    decreases |sched|
  {
    if sched != [] {
      hide WorldInv, WorldHeld, Enabled, Apply, Config.Valid;
      WorldShape(cfg, src, w);
      StepKeeps(cfg, src, w, sched[0]);
      StepHeld(cfg, src, w, sched[0]);
      ExecHeld(cfg, src, Apply(cfg, w, sched[0]), sched[1..]);
    }
  }

  // ---- a starved rank has been through its whole pipeline at least once

  lemma {:induction false} EmptyTail(plan: seq<ShardSpec>, chunk: nat)
    requires chunk > 0 && plan != [] && PlanChunks(plan, chunk) == []
    ensures plan[|plan| - 1].byteLen == 0
  {
    if |plan| > 1 {
      EmptyTail(plan[1..], chunk);
    }
  }

  lemma PrefixCount(a: seq<Chunk>, b: seq<Chunk>, p: Chunk -> bool)
    requires a <= b
    ensures Count(a, p) <= Count(b, p)
  {
    CountAppend(a, b[|a|..], p);
    assert b == a + b[|a|..];
  }

  /** What is posted while work is left comes before the last piece of work. */
  lemma PostedBefore(cfg: Config, r: nat, s: Rank)
    requires PosInv(cfg, r, s) && WorkLeft(cfg, s)
    ensures s.chunks <= BeforeLast(cfg)
  {
    hide AllPosts, WellChunk, PlanChunks, ShardChunks;
    var all := PlanChunks(cfg.plan, cfg.chunk);
    var rest := Remaining(cfg, s);
    assert all == s.chunks + rest;
    if s.active.Some? {
      NextOfShard(s.active.value.shard, cfg.chunk, s.active.value.nextPost);
      assert rest != [];
    } else if rest == [] {
      EmptyTail(cfg.plan[s.nextPlan..], cfg.chunk);
    }
  }

  lemma StarvedSlots(cfg: Config, r: nat, src: seq<seq<Byte>>, s: Rank)
    requires Inv(cfg, r, src, s) && Starved(s)
    ensures WorkLeft(cfg, s) && |s.free| == cfg.depth && Count(s.places, Holding(cfg, r)) == 0
  {
    hide SlotInv, QueueInv, FlightInv, PosInv, CountInv, LifeInv, OpenInv, ContentInv, SizeInv, Config.Valid, SourceOk, Count, Config.NeedsWrite;
    forall x | 0 <= x < cfg.depth
      ensures s.places[x].Free?
    {
      NothingWriting(cfg, r, s, x);
      NothingFlying(cfg, s, x);
    }
    CountZero(s.places, Holding(cfg, r));
    AllFree(cfg, s);
  }

  lemma AllFree(cfg: Config, s: Rank)
    requires SlotInv(cfg, s) && forall x | 0 <= x < cfg.depth :: s.places[x].Free?
    ensures |s.free| == cfg.depth
  {
    FreeSet(s.free, cfg.depth);
  }

  /** A list without repetitions that lists exactly the numbers below n has n entries. */
  lemma {:induction false} FreeSet(q: seq<nat>, n: nat)
    requires forall i | 0 <= i < |q| :: q[i] < n
    requires forall i, j | 0 <= i < j < |q| :: q[i] != q[j]
    requires forall x: nat | x < n :: x in q
    ensures |q| == n
  {
    if n == 0 {
      assert q == [];
    } else {
      var last: nat := n - 1;
      assert last in q;
      var i :| 0 <= i < |q| && q[i] == last;
      var q' := q[..i] + q[i + 1..];
      forall x: nat | x < n - 1
        ensures x in q'
      {
        assert x in q;
        StillIn(q, i, x);
      }
      FreeSet(q', n - 1);
    }
  }

  lemma StillIn(q: seq<nat>, i: nat, x: nat)
    requires i < |q| && x in q && q[i] != x
    ensures x in q[..i] + q[i + 1..]
  {
    var j :| 0 <= j < |q| && q[j] == x;
    assert (q[..i] + q[i + 1..])[if j < i then j else j - 1] == x;
  }

  /** Starvation needs a plan that is starvable for the rank: `depth` writes before the last piece of work. */
  lemma StarvedIsStarvable(cfg: Config, src: seq<seq<Byte>>, w: World, r: nat)
    requires cfg.Valid() && Reachable(cfg, src, w) && r < cfg.world && Starved(w.ranks[r])
    ensures cfg.chunk > 0 && Starvable(cfg, r)
  {
    hide Inv, HeldInv, Config.Valid, WireOk, DiskReady, InitRank, Starved, BeforeLast, Written, PosInv, SlotInv, FlightInv;
    ReachableInv(cfg, src, w);
    var w0: World, sched: seq<Action> :| InitWorld(cfg, src, w0) && Exec(cfg, w0, sched) == Some(w);
    InitKeeps(cfg, src, w0);
    InitHeld(cfg, src, w0);
    ExecHeld(cfg, src, w0, sched);
    var s := w.ranks[r];
    Positive(cfg);
    InvPos(cfg, r, src, s);
    StarvedSlots(cfg, r, src, s);
    PostedBefore(cfg, r, s);
    HeldAtStarved(cfg, r, s);
    PrefixCount(s.chunks, BeforeLast(cfg), Written(cfg, r));
  }

  lemma HeldAtStarved(cfg: Config, r: nat, s: Rank)
    requires HeldInv(cfg, r, s) && Starved(s) && WorkLeft(cfg, s) && |s.free| == cfg.depth
    ensures cfg.depth <= Count(s.chunks, Written(cfg, r))
  {
    hide Count;
  }
}
