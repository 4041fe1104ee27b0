/** What the broadcast stage promises, stated on the states and logs of whole runs. */
module PipelineTheorems {
  import opened Types
  import opened Counting
  import opened PipelineModel
  import opened PipelineInv
  import opened PipelinePosts
  import opened PipelineClose
  import opened PipelineReap
  import opened PipelineWrite
  import opened PipelineComplete
  import opened PipelineWorld
  import opened PipelineSafety

  /** Every byte of every planned file is in some shard. */
  ghost predicate Tiled(cfg: Config) {
    forall f: nat, p: nat | f < |cfg.size| && cfg.Planned(f) && p < cfg.size[f] :: InPlan(cfg, f, p)
  }

  ghost predicate InPlan(cfg: Config, f: nat, p: nat) {
    exists i :: 0 <= i < |cfg.plan| && cfg.plan[i].Covers(f, p)
  }

  // ---- collective matching

  /** The k-th broadcast posted by any rank agrees with the k-th posted by every other rank. */
  lemma CollectivesMatch(cfg: Config, src: seq<seq<Byte>>, w: World, r: nat, q: nat, k: nat)
    requires cfg.Valid() && Reachable(cfg, src, w) && r < cfg.world && q < cfg.world
    requires k < |w.ranks[r].posts| && k < |w.ranks[q].posts|
    ensures w.ranks[r].posts[k].root == w.ranks[q].posts[k].root < cfg.world
    ensures w.ranks[r].posts[k].len == w.ranks[q].posts[k].len
    ensures 0 < w.ranks[r].posts[k].len < 0x7fff_ffff
  {
    hide Inv, Reachable, PosInv, FlightInv, SlotInv, Config.Valid, AllPosts, PlanChunks, WireOk, SubOk;
    ReachableInv(cfg, src, w);
    Positive(cfg);
    var s, t := w.ranks[r], w.ranks[q];
    InvPos(cfg, r, src, s);
    InvPos(cfg, q, src, t);
    PostsArePrefix(cfg, r, s);
    PostsArePrefix(cfg, q, t);
    assert NoSlot(s.posts[k]) == Order(cfg)[k] == NoSlot(t.posts[k]);
    PostAt(cfg, r, s, k);
    assert SubOk(s.posts[k].(slot := 0), s.chunks[s.posts[k].chunk], s.posts[k].chunk, 0);
    PostBounds(s.posts[k], s.chunks[s.posts[k].chunk]);
    RootInWorld(cfg, s.chunks[s.posts[k].chunk]);
  }

  lemma PostBounds(p: Post, c: Chunk)
    requires SubOk(p.(slot := 0), c, p.chunk, 0)
    ensures p.root == c.root && 0 < p.len <= MAX_SUB_BCAST
  {
  }

  lemma RootInWorld(cfg: Config, ch: Chunk)
    requires cfg.Valid() && WellChunk(cfg, ch)
    ensures ch.root < cfg.world
  {
    var i :| 0 <= i < |cfg.plan| && InShard(cfg.plan[i], ch);
    assert cfg.ValidShard(cfg.plan[i]);
  }

  // ---- slots

  predicate InFree(s: Rank, x: nat) { x in s.free }

  ghost predicate UnderBroadcast(s: Rank, x: nat) {
    exists i :: 0 <= i < |s.inFlight| && s.inFlight[i].slot == x
  }

  ghost predicate InCommand(s: Rank, x: nat) {
    exists w, i :: 0 <= w < |s.sent| && w < |s.received| && s.received[w] <= i < |s.sent[w]|
                   && s.sent[w][i].Write? && s.sent[w][i].slot == x
  }

  ghost predicate InAck(s: Rank, x: nat) {
    exists i :: 0 <= i < |s.acks| && s.acks[i].slot == x
  }

  /** The three groups of places a slot can be in, read off the lists themselves. */
  lemma PlaceOf(cfg: Config, s: Rank, x: nat)
    requires SlotInv(cfg, s) && QueueInv(cfg, s) && FlightInv(cfg, s) && x < cfg.depth
    ensures InFree(s, x) <==> s.places[x].Free?
    ensures UnderBroadcast(s, x) <==> s.places[x].Flying?
    ensures InCommand(s, x) <==> s.places[x].Queued?
    ensures InAck(s, x) <==> s.places[x].Acked?
    ensures s.subs[x] == Count(s.inFlight, OnSlot(x))
  {
    FreePlace(cfg, s, x);
    FlyingPlace(cfg, s, x);
    WriterPlace(cfg, s, x);
  }

  lemma FreePlace(cfg: Config, s: Rank, x: nat)
    requires SlotInv(cfg, s) && x < cfg.depth
    ensures InFree(s, x) <==> s.places[x].Free?
  {
  }

  lemma FlyingPlace(cfg: Config, s: Rank, x: nat)
    requires SlotInv(cfg, s) && FlightInv(cfg, s) && x < cfg.depth
    ensures UnderBroadcast(s, x) <==> s.places[x].Flying?
    ensures s.subs[x] == Count(s.inFlight, OnSlot(x))
  {
    hide Count;
    CountZero(s.inFlight, OnSlot(x));
    if UnderBroadcast(s, x) {
      var i :| 0 <= i < |s.inFlight| && s.inFlight[i].slot == x;
      assert OnSlot(x)(s.inFlight[i]);
    }
  }

  lemma WriterPlace(cfg: Config, s: Rank, x: nat)
    requires QueueInv(cfg, s) && x < cfg.depth
    ensures InCommand(s, x) <==> s.places[x].Queued?
    ensures InAck(s, x) <==> s.places[x].Acked?
  {
    hide Config.WriterOf;
    if s.places[x].Queued? {
      assert QueuedAt(cfg, s, x);
    }
  }

  /**
    Slot conservation: every slot is in exactly one of the free list, flight, a writer's queue and the ack
    channel; its count of outstanding sub-broadcasts is right; and its buffer is missing exactly while it is
    with a writer.
  */
  lemma SlotConservation(cfg: Config, src: seq<seq<Byte>>, w: World, r: nat, x: nat)
    requires cfg.Valid() && Reachable(cfg, src, w) && r < cfg.world && x < cfg.depth
    ensures |w.ranks[r].bufs| == cfg.depth == |w.ranks[r].subs|
    ensures var s := w.ranks[r];
            && (InFree(s, x) || UnderBroadcast(s, x) || InCommand(s, x) || InAck(s, x))
            && !(InFree(s, x) && (UnderBroadcast(s, x) || InCommand(s, x) || InAck(s, x)))
            && !(UnderBroadcast(s, x) && (InCommand(s, x) || InAck(s, x)))
            && !(InCommand(s, x) && InAck(s, x))
            && s.subs[x] == Count(s.inFlight, OnSlot(x))
            && (s.bufs[x].None? <==> InCommand(s, x) || InAck(s, x))
  {
    ReachableInv(cfg, src, w);
    hide Reachable, Config.Valid, QueueInv, FlightInv, PosInv, CountInv, LifeInv, OpenInv, ContentInv, SizeInv, InFree, UnderBroadcast, InCommand, InAck, Count, WireOk, OnSlot;
    assert Inv(cfg, r, src, w.ranks[r]);
    PlaceOf(cfg, w.ranks[r], x);
  }

  /** The buffer the next chunk goes into is used by no broadcast and no write. */
  lemma RefillIsSafe(cfg: Config, src: seq<seq<Byte>>, w: World, r: nat)
    requires cfg.Valid() && Reachable(cfg, src, w) && Enabled(cfg, w, APost(r))
    ensures var s := w.ranks[r];
            var x := s.free[0];
            && !UnderBroadcast(s, x) && !InCommand(s, x) && !InAck(s, x)
            && forall k | 0 <= k < |s.posts| && s.posts[k].slot == x :: k in s.completed
  {
    ReachableInv(cfg, src, w);
    var s := w.ranks[r];
    hide Reachable, Config.Valid, QueueInv, FlightInv, PosInv, CountInv, LifeInv, OpenInv, ContentInv, SizeInv, UnderBroadcast, InCommand, InAck, Count, WireOk, OnSlot;
    assert Inv(cfg, r, src, s);
    var x := s.free[0];
    PlaceOf(cfg, s, x);
    forall k | 0 <= k < |s.posts| && s.posts[k].slot == x
      ensures k in s.completed
    {
      if k !in s.completed {
        RequestSlot(cfg, s, k);
      }
    }
  }

  // ---- file life cycle

  /** Per file: one Open first, no Write or Close before it, nothing after the Close. */
  ghost predicate OpenWritesClose(log: seq<Cmd>, f: nat) {
    && (forall i, j | 0 <= i < j < |log| && log[i].file == f && log[j].file == f ::
          !log[j].OpenFile? && !log[i].CloseFile?)
    && (forall j | 0 <= j < |log| && log[j].file == f && !log[j].OpenFile? ::
          exists i :: 0 <= i < j && log[i].OpenFile? && log[i].file == f)
  }

  /** The automaton accepts exactly the logs of that shape, and its state says how far the file is. */
  lemma {:induction false} LifeMeans(log: seq<Cmd>, f: nat)
    ensures !LifeOf(log, f).Broken? <==> OpenWritesClose(log, f)
    ensures LifeOf(log, f).Never? <==> forall i | 0 <= i < |log| :: log[i].file != f
    ensures LifeOf(log, f).Closed? ==> exists i :: 0 <= i < |log| && log[i] == CloseFile(f)
    ensures LifeOf(log, f).Opened? ==> exists i :: 0 <= i < |log| && log[i].OpenFile? && log[i].file == f
    ensures LifeOf(log, f).Opened? ==> forall i | 0 <= i < |log| :: log[i] != CloseFile(f)
  {
    if log != [] {
      var n := |log| - 1;
      var init := log[..n];
      LifeMeans(init, f);
      var cmd := log[n];
      assert log == init + [cmd];
      LifeStepMeans(init, cmd, f);
    }
  }

  lemma LifeStepMeans(init: seq<Cmd>, cmd: Cmd, f: nat)
    requires !LifeOf(init, f).Broken? <==> OpenWritesClose(init, f)
    requires LifeOf(init, f).Never? <==> forall i | 0 <= i < |init| :: init[i].file != f
    requires LifeOf(init, f).Closed? ==> exists i :: 0 <= i < |init| && init[i] == CloseFile(f)
    requires LifeOf(init, f).Opened? ==> exists i :: 0 <= i < |init| && init[i].OpenFile? && init[i].file == f
    requires LifeOf(init, f).Opened? ==> forall i | 0 <= i < |init| :: init[i] != CloseFile(f)
    ensures var log := init + [cmd];
            && (!LifeOf(log, f).Broken? <==> OpenWritesClose(log, f))
            && (LifeOf(log, f).Never? <==> forall i | 0 <= i < |log| :: log[i].file != f)
            && (LifeOf(log, f).Closed? ==> exists i :: 0 <= i < |log| && log[i] == CloseFile(f))
            && (LifeOf(log, f).Opened? ==> exists i :: 0 <= i < |log| && log[i].OpenFile? && log[i].file == f)
            && (LifeOf(log, f).Opened? ==> forall i | 0 <= i < |log| :: log[i] != CloseFile(f))
  {
    var n := |init|;
    var log := init + [cmd];
    LifeAppend(init, cmd, f);
    hide LifeOf;
    assert forall i | 0 <= i < n :: log[i] == init[i];
    assert log[n] == cmd;
    if OpenWritesClose(log, f) {
      assert OpenWritesClose(init, f);
    }
    if OpenWritesClose(init, f) && cmd.file != f {
      assert OpenWritesClose(log, f);
    }
    if !LifeOf(init, f).Broken? && !LifeStep(LifeOf(init, f), cmd, f).Broken? {
      assert OpenWritesClose(log, f);
    }
  }

  /** Along every run, each writer sees every file opened once, written while open, and closed at most once. */
  lemma FileLifeCycle(cfg: Config, src: seq<seq<Byte>>, w: World, r: nat, f: nat)
    requires cfg.Valid() && Reachable(cfg, src, w) && r < cfg.world && f < |cfg.size| && cfg.Planned(f)
    ensures |w.ranks[r].sent| == cfg.writers
    ensures OpenWritesClose(w.ranks[r].sent[cfg.WriterOf(f)], f)
  {
    ReachableInv(cfg, src, w);
    hide Reachable, SlotInv, QueueInv, FlightInv, PosInv, CountInv, LifeInv, OpenInv, ContentInv, SizeInv, LifeOf, Count, WireOk, OpenWritesClose, Config.WriterOf;
    var s := w.ranks[r];
    assert Inv(cfg, r, src, s);
    FileListed(cfg, r, s, f);
    LifeAt(cfg, r, s, f);
    LifeMeans(s.sent[cfg.WriterOf(f)], f);
  }

  lemma FileListed(cfg: Config, r: nat, s: Rank, f: nat)
    requires CountInv(cfg, r, s) && cfg.Planned(f)
    ensures f in s.files
  {
  }

  /** A writer's next command always finds its file in the right state, so no writer ever fails on it. */
  lemma WriterNeverFails(cfg: Config, src: seq<seq<Byte>>, w: World, r: nat, v: nat)
    requires cfg.Valid() && Reachable(cfg, src, w) && r < cfg.world && v < cfg.writers
    ensures |w.ranks[r].sent| == |w.ranks[r].received| == |w.ranks[r].open| == cfg.writers
    ensures var s := w.ranks[r];
            s.received[v] < |s.sent[v]| ==>
              && CanWrite(cfg, s, v)
              && var cmd := s.sent[v][s.received[v]];
                 if cmd.OpenFile? then cmd.file !in s.open[v] && cmd.file < |cfg.size| && cmd.size == cfg.size[cmd.file]
                 else cmd.file in s.open[v]
  {
    ReachableInv(cfg, src, w);
    hide Reachable, SlotInv, QueueInv, FlightInv, PosInv, CountInv, LifeInv, OpenInv, ContentInv, SizeInv, LifeOf, Count, WireOk, Config.WriterOf, Config.Valid, SourceOk;
    var s := w.ranks[r];
    assert Inv(cfg, r, src, s);
    if s.received[v] < |s.sent[v]| {
      WriteIsOk(cfg, r, src, s, v);
      NextLife(cfg, r, s, v);
      OpenAt(cfg, s, v, Next(s, v).file);
    }
  }

  // ---- the end of the run

  lemma NothingWriting(cfg: Config, r: nat, s: Rank, x: nat)
    requires CountInv(cfg, r, s) && s.pending == 0 && x < cfg.depth
    ensures !s.places[x].AtWriter()
  {
    hide Count, Config.NeedsWrite, FileCounts;
    CountZero(s.places, Writing());
    assert !Writing()(s.places[x]);
  }

  lemma NothingFlying(cfg: Config, s: Rank, x: nat)
    requires SlotInv(cfg, s) && FlightInv(cfg, s) && s.inFlight == [] && x < cfg.depth
    ensures !s.places[x].Flying?
  {
    FlyingPlace(cfg, s, x);
  }

  /** At the end all slots are idle and the whole plan has been posted. */
  lemma AtExit(cfg: Config, r: nat, src: seq<seq<Byte>>, s: Rank)
    requires Inv(cfg, r, src, s) && s.pc.Finished?
    ensures s.inFlight == [] && !WorkLeft(cfg, s)
    ensures |s.places| == cfg.depth && forall x | 0 <= x < cfg.depth :: s.places[x].Free?
    ensures s.chunks == PlanChunks(cfg.plan, cfg.chunk)
  {
    hide SlotInv, QueueInv, FlightInv, PosInv, CountInv, LifeInv, OpenInv, ContentInv, SizeInv, Config.Valid, SourceOk, PlanChunks;
    PostsArePrefix(cfg, r, s);
    forall x | 0 <= x < cfg.depth
      ensures s.places[x].Free?
    {
      NothingWriting(cfg, r, s, x);
      NothingFlying(cfg, s, x);
    }
  }

  /** At normal exit every opened file has been closed. */
  lemma ClosedAtExit(cfg: Config, r: nat, src: seq<seq<Byte>>, s: Rank, f: nat)
    requires Inv(cfg, r, src, s) && s.pc.Finished? && f in s.files
    ensures s.files[f].isOpen ==> s.files[f].isClosed
  {
    hide SlotInv, QueueInv, FlightInv, PosInv, CountInv, LifeInv, OpenInv, ContentInv, SizeInv, Config.Valid, SourceOk, Count, Config.NeedsWrite;
    AtExit(cfg, r, src, s);
    CountAt(cfg, r, s, f);
    assert Eager(s, f);
    CountZero(s.places, FlyingOf(f));
    CountZero(s.places, WritingOf(f));
    assert s.nextPlan == |cfg.plan|;
    assert cfg.plan[..s.nextPlan] == cfg.plan;
  }

  /**
    When a driver has left its loop, every file it opened has been closed exactly once, wherever the other ranks are;
    once its writers have run too, none of them has the file open.
  */
  lemma EveryOpenIsClosed(cfg: Config, src: seq<seq<Byte>>, w: World, r: nat, f: nat)
    requires cfg.Valid() && Reachable(cfg, src, w) && r < |w.ranks| && w.ranks[r].pc.Finished? && f < |cfg.size| && cfg.Planned(f)
    ensures |w.ranks[r].sent| == cfg.writers == |w.ranks[r].open|
    ensures var log := w.ranks[r].sent[cfg.WriterOf(f)];
            && OpenWritesClose(log, f)
            && ((exists i :: 0 <= i < |log| && log[i].OpenFile? && log[i].file == f) ==>
                  exists i :: 0 <= i < |log| && log[i] == CloseFile(f))
    ensures Done(w.ranks[r]) ==> f !in w.ranks[r].open[cfg.WriterOf(f)]
  {
    FileLifeCycle(cfg, src, w, r, f);
    ReachableInv(cfg, src, w);
    hide Reachable, SlotInv, QueueInv, FlightInv, PosInv, CountInv, LifeInv, OpenInv, ContentInv, SizeInv, LifeOf, Count, WireOk, OpenWritesClose, Config.WriterOf, Config.Valid;
    var s := w.ranks[r];
    assert Inv(cfg, r, src, s);
    FileListed(cfg, r, s, f);
    LifeAt(cfg, r, s, f);
    ClosedAtExit(cfg, r, src, s, f);
    LifeMeans(s.sent[cfg.WriterOf(f)], f);
    if Done(s) {
      NotOpenAtExit(cfg, r, src, s, f);
    }
  }

  lemma NotOpenAtExit(cfg: Config, r: nat, src: seq<seq<Byte>>, s: Rank, f: nat)
    requires Inv(cfg, r, src, s) && Done(s) && f in s.files
    ensures f !in s.open[cfg.WriterOf(f)]
  {
    hide SlotInv, QueueInv, FlightInv, PosInv, CountInv, LifeInv, OpenInv, ContentInv, SizeInv, LifeOf, Count, Config.WriterOf, Config.Valid, SourceOk;
    ClosedAtExit(cfg, r, src, s, f);
    LifeAt(cfg, r, s, f);
    var v := cfg.WriterOf(f);
    OpenAt(cfg, s, v, f);
    assert s.sent[v][..s.received[v]] == s.sent[v];
  }

  lemma ChunkSettled(cfg: Config, r: nat, src: seq<seq<Byte>>, s: Rank, c: nat)
    requires ContentInv(cfg, r, src, s) && c < |s.chunks|
    requires forall x | 0 <= x < cfg.depth :: s.places[x].Free?
    ensures s.chunks[c].file < |src| == |s.disk|
    ensures RangeOk(s.disk[s.chunks[c].file], src[s.chunks[c].file], s.chunks[c].offset, s.chunks[c].n)
  {
    hide Base, HoldsPart, RangeOk, QueuedBytes, Config.WriterOf;
    assert !Carried(s, c);
  }

  lemma SizeAtExit(cfg: Config, s: Rank, f: nat)
    requires SizeInv(cfg, s) && f in s.files && f < |cfg.size| && f !in s.open[cfg.WriterOf(f)]
    ensures |s.disk[f]| == cfg.size[f]
  {
    hide Config.WriterOf;
  }

  /** One rank's copy of one file, once that rank is done. */
  lemma CopyAtExit(cfg: Config, r: nat, src: seq<seq<Byte>>, s: Rank, f: nat)
    requires Inv(cfg, r, src, s) && Done(s) && Tiled(cfg) && f < |cfg.size| && cfg.Planned(f)
    ensures f < |src| && f < |s.disk| && s.disk[f] == src[f]
  {
    hide SlotInv, QueueInv, FlightInv, PosInv, CountInv, LifeInv, OpenInv, ContentInv, SizeInv, Count, Config.WriterOf, Config.Valid, Config.Planned;
    FileListed(cfg, r, s, f);
    AtExit(cfg, r, src, s);
    NotOpenAtExit(cfg, r, src, s, f);
    SizeAtExit(cfg, s, f);
    forall p | 0 <= p < cfg.size[f]
      ensures s.disk[f][p] == src[f][p]
    {
      assert InPlan(cfg, f, p);
      var i :| 0 <= i < |cfg.plan| && cfg.plan[i].Covers(f, p);
      var c := PlanChunksCover(cfg.plan, cfg.chunk, i, p);
      ChunkSettled(cfg, r, src, s, c);
      assert RangeOk(s.disk[f], src[f], s.chunks[c].offset, s.chunks[c].n);
    }
  }

  /**
    End to end: whatever the interleaving, and wherever the other ranks are, when a rank has left the stage and its
    writers have stopped its copy of every planned file is byte-identical to the source, length included.
  */
  lemma IdenticalCopies(cfg: Config, src: seq<seq<Byte>>, w: World, r: nat, f: nat)
    requires cfg.Valid() && Tiled(cfg) && Reachable(cfg, src, w)
    requires r < |w.ranks| && Done(w.ranks[r]) && f < |cfg.size| && cfg.Planned(f)
    ensures f < |src| && f < |w.ranks[r].disk| && w.ranks[r].disk[f] == src[f]
  {
    hide Inv, Reachable, Tiled, Config.Planned, Config.Valid, Done, WireOk;
    ReachableInv(cfg, src, w);
    assert Inv(cfg, r, src, w.ranks[r]);
    CopyAtExit(cfg, r, src, w.ranks[r], f);
  }

  // ---- files outside the plan

  lemma SentIsPlanned(cfg: Config, r: nat, s: Rank, v: nat, i: nat)
    requires QueueInv(cfg, s) && CountInv(cfg, r, s) && v < cfg.writers && i < |s.sent[v]|
    ensures cfg.Planned(s.sent[v][i].file)
  {
    hide Config.WriterOf, Config.Planned, FileCounts, Count;
  }

  lemma UnplannedStep(cfg: Config, src: seq<seq<Byte>>, w: World, a: Action, r: nat, f: nat)
    requires WorldInv(cfg, src, w) && Enabled(cfg, w, a) && r < cfg.world && !cfg.Planned(f)
    requires |w.ranks[r].disk| == |cfg.size| && f < |cfg.size|
    ensures var d := Apply(cfg, w, a).ranks[r].disk; |d| == |cfg.size| && d[f] == w.ranks[r].disk[f]
  {
    hide Inv, Take, PostChunk, TakeAck, Reap, ShapeOk, WireOk, WriterStep, CanWrite, CanReap, CanAck, CanPost, CanTake, CanEndPosting, ReadOk, Config.Valid, PayloadOk, Order, Config.Planned;
    var s := w.ranks[a.r];
    assert Inv(cfg, a.r, src, s);
    match a
    case ATake(q) => TakeDone(cfg, q, s);
    case APost(q) => PostDone(cfg, s);
    case AEndPosting(q) =>
    case AAck(q) => AckDone(cfg, s);
    case AEndDrain(q) =>
    case AReap(q, i) => ReapDone(cfg, s, i);
    case AWriter(q, v) => WriterDone(cfg, s, v); WritesPlanned(cfg, q, src, s, v);
    case ACapture(q, k) =>
    case AComplete(q, k) =>
  }

  lemma WritesPlanned(cfg: Config, r: nat, src: seq<seq<Byte>>, s: Rank, v: nat)
    requires Inv(cfg, r, src, s) && CanWrite(cfg, s, v)
    ensures cfg.Planned(s.sent[v][s.received[v]].file)
  {
    hide SlotInv, QueueInv, FlightInv, PosInv, CountInv, LifeInv, OpenInv, ContentInv, SizeInv, Config.Valid, Config.Planned, SourceOk;
    SentIsPlanned(cfg, r, s, v, s.received[v]);
  }

  /** No step of the stage touches a file that is not in the plan. */
  lemma {:induction false} UnplannedKept(cfg: Config, src: seq<seq<Byte>>, w: World, sched: seq<Action>, r: nat, f: nat)
    requires WorldInv(cfg, src, w) && Exec(cfg, w, sched).Some? && r < cfg.world && !cfg.Planned(f)
    requires |w.ranks[r].disk| == |cfg.size| && f < |cfg.size|
    ensures var d := Exec(cfg, w, sched).value.ranks[r].disk; |d| == |cfg.size| && d[f] == w.ranks[r].disk[f]
    decreases |sched|
  {
    if sched != [] {
      StepKeeps(cfg, src, w, sched[0]);
      UnplannedStep(cfg, src, w, sched[0], r, f);
      hide WorldInv, Enabled, Apply, Config.Valid, Config.Planned;
      UnplannedKept(cfg, src, Apply(cfg, w, sched[0]), sched[1..], r, f);
    }
  }
}
