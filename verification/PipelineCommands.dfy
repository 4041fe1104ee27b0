/** What the writers of a rank are told, file by file: nothing they need not do, and every chunk once. */
module PipelineCommands {
  import opened Types
  import opened Counting
  import opened PipelineModel
  import opened PipelineInv
  import opened PipelinePosts
  import opened PipelineClose
  import opened PipelineTake
  import opened PipelinePost
  import opened PipelineAck
  import opened PipelineReap
  import opened PipelineWrite
  import opened PipelineComplete
  import opened PipelineWorld
  import opened PipelineSafety
  import opened PipelineTheorems
  import opened PipelineMeasure

  /** The rank has the file already, or broadcasts all of it itself, or the file is empty. */
  ghost predicate NothingToWrite(cfg: Config, r: nat, f: nat) {
    || (r, f) in cfg.have
    || (forall i | 0 <= i < |cfg.plan| && cfg.plan[i].fileIdx == f :: cfg.plan[i].ownerRank == r)
    || f >= |cfg.size| || cfg.size[f] == 0
  }

  lemma NeedlessIs(cfg: Config, r: nat, f: nat)
    ensures NothingToWrite(cfg, r, f) <==> !cfg.NeedsWrite(r, f)
  {
  }

  // ---- files with nothing to write

  lemma NoCommand(cfg: Config, r: nat, src: seq<seq<Byte>>, s: Rank, f: nat, v: nat, i: nat)
    requires Inv(cfg, r, src, s) && NothingToWrite(cfg, r, f) && v < cfg.writers && v < |s.sent| && i < |s.sent[v]|
    ensures s.sent[v][i].file != f
  {
    hide SlotInv, QueueInv, FlightInv, PosInv, CountInv, LifeInv, OpenInv, ContentInv, SizeInv, LifeOf, Count, Config.Valid, SourceOk, NothingToWrite,
         Config.NeedsWrite, Config.WriterOf;
    SentTo(cfg, s, v, i);
    if s.sent[v][i].file == f {
      NeedlessIs(cfg, r, f);
      NotOpened(cfg, r, s, f);
      LifeAt(cfg, r, s, f);
      LifeMeans(s.sent[v], f);
    }
  }

  lemma SentTo(cfg: Config, s: Rank, v: nat, i: nat)
    requires QueueInv(cfg, s) && v < cfg.writers && v < |s.sent| && i < |s.sent[v]|
    ensures cfg.WriterOf(s.sent[v][i].file) == v && s.sent[v][i].file in s.files
  {
    hide Config.WriterOf;
  }

  lemma NotOpened(cfg: Config, r: nat, s: Rank, f: nat)
    requires LifeInv(cfg, r, s) && f in s.files && !cfg.NeedsWrite(r, f)
    ensures !s.files[f].isOpen && !s.files[f].isClosed
  {
    LifeAt(cfg, r, s, f);
    hide LifeOf, Config.WriterOf;
  }

  /**
    In no run is a writer of a rank told anything about a file that the rank has already, or broadcasts entirely
    itself, or that is empty.
  */
  lemma NeedlessNever(cfg: Config, src: seq<seq<Byte>>, w: World, r: nat, f: nat)
    requires cfg.Valid() && Reachable(cfg, src, w) && r < |w.ranks| && NothingToWrite(cfg, r, f)
    ensures |w.ranks[r].sent| == cfg.writers
    ensures forall v, i | 0 <= v < cfg.writers && 0 <= i < |w.ranks[r].sent[v]| :: w.ranks[r].sent[v][i].file != f
  {
    hide Reachable, CoreInv, EagerInv, Config.Valid, NothingToWrite, WireOk;
    ReachableInv(cfg, src, w);
    var s := w.ranks[r];
    assert Inv(cfg, r, src, s);
    InvLengths(cfg, r, src, s);
    forall v, i | 0 <= v < cfg.writers && 0 <= i < |s.sent[v]|
      ensures s.sent[v][i].file != f
    {
      NoCommand(cfg, r, src, s, f, v, i);
    }
  }

  lemma InvLengths(cfg: Config, r: nat, src: seq<seq<Byte>>, s: Rank)
    requires CoreInv(cfg, r, src, s)
    ensures |s.sent| == |s.received| == cfg.writers && |s.disk| == |cfg.size|
  {
    hide SlotInv, QueueInv, FlightInv, PosInv, CountInv, LifeInv, OpenInv, ContentInv, SizeInv;
  }

  lemma NeedlessStep(cfg: Config, src: seq<seq<Byte>>, w: World, a: Action, r: nat, f: nat)
    requires WorldInv(cfg, src, w) && Enabled(cfg, w, a) && r < cfg.world && NothingToWrite(cfg, r, f)
    requires |w.ranks[r].disk| == |cfg.size| && f < |cfg.size|
    ensures var d := Apply(cfg, w, a).ranks[r].disk; |d| == |cfg.size| && d[f] == w.ranks[r].disk[f]
  {
    hide Inv, Take, PostChunk, TakeAck, Reap, ShapeOk, WireOk, WriterStep, CanWrite, CanReap, CanAck, CanPost, CanTake, CanEndPosting, ReadOk, Config.Valid, PayloadOk, Order, NothingToWrite;
    var s := w.ranks[a.r];
    assert Inv(cfg, a.r, src, s);
    match a
    case ATake(q) => TakeDone(cfg, q, s);
    case APost(q) => PostDone(cfg, s);
    case AEndPosting(q) =>
    case AAck(q) => AckDone(cfg, s);
    case AEndDrain(q) =>
    case AReap(q, i) => ReapDone(cfg, s, i);
    case AWriter(q, v) =>
      WriterDone(cfg, s, v);
      if q == r {
        NextElsewhere(cfg, q, src, s, f, v);
      }
    case ACapture(q, k) =>
    case AComplete(q, k) =>
  }

  lemma NextElsewhere(cfg: Config, r: nat, src: seq<seq<Byte>>, s: Rank, f: nat, v: nat)
    requires Inv(cfg, r, src, s) && CanWrite(cfg, s, v) && NothingToWrite(cfg, r, f)
    ensures s.sent[v][s.received[v]].file != f
  {
    hide Inv, NothingToWrite;
    NoCommand(cfg, r, src, s, f, v, s.received[v]);
  }

  /** Such a file is on the rank's disk as it was when the stage began, at every moment of every run. */
  lemma {:induction false} NeedlessUntouched(cfg: Config, src: seq<seq<Byte>>, w: World, sched: seq<Action>, r: nat, f: nat)
    requires WorldInv(cfg, src, w) && Exec(cfg, w, sched).Some? && r < cfg.world && NothingToWrite(cfg, r, f)
    requires |w.ranks[r].disk| == |cfg.size| && f < |cfg.size|
    ensures var d := Exec(cfg, w, sched).value.ranks[r].disk; |d| == |cfg.size| && d[f] == w.ranks[r].disk[f]
    decreases |sched|
  {
    if sched != [] {
      StepKeeps(cfg, src, w, sched[0]);
      NeedlessStep(cfg, src, w, sched[0], r, f);
      hide WorldInv, Enabled, Apply, Config.Valid, NothingToWrite;
      NeedlessUntouched(cfg, src, Apply(cfg, w, sched[0]), sched[1..], r, f);
    }
  }

  // ---- files to write

  function WriteOf(f: nat, o: nat, n: nat): Cmd -> bool {
    (cmd: Cmd) => cmd.Write? && cmd.file == f && cmd.offset == o && cmd.n == n
  }

  function ChunkOf(f: nat, o: nat, n: nat): Chunk -> bool {
    (c: Chunk) => c.file == f && c.offset == o && c.n == n
  }

  function FliesAs(f: nat, o: nat, n: nat): Place -> bool {
    (p: Place) => p.Flying? && p.chunk.file == f && p.chunk.offset == o && p.chunk.n == n
  }

  predicate Begun(cfg: Config, s: Rank, f: nat) {
    exists i :: 0 <= i < |cfg.plan| && i < s.nextPlan && cfg.plan[i].fileIdx == f
  }

  /** Every posted chunk is in flight or in a Write command, once; a file that has begun is open. */
  ghost predicate Tallied(cfg: Config, s: Rank, f: nat, o: nat, n: nat) {
    && 0 < cfg.writers == |s.sent|
    && Count(s.sent[cfg.WriterOf(f)], WriteOf(f, o, n)) + Count(s.places, FliesAs(f, o, n)) == Count(s.chunks, ChunkOf(f, o, n))
    && (Begun(cfg, s, f) ==> f in s.files && s.files[f].isOpen)
  }

  lemma SentCount(cfg: Config, s: Rank, t: Rank, cmd: Cmd, f: nat, o: nat, n: nat)
    requires 0 < cfg.writers == |s.sent| && t.sent == Send(s, cfg, cmd).sent
    ensures |t.sent| == cfg.writers
    ensures Count(t.sent[cfg.WriterOf(f)], WriteOf(f, o, n))
            == Count(s.sent[cfg.WriterOf(f)], WriteOf(f, o, n)) + if WriteOf(f, o, n)(cmd) then 1 else 0
  {
    hide LifeOf, Config.WriterOf, Count;
    SendFrame(cfg, s, cmd);
    var log := s.sent[cfg.WriterOf(f)];
    CountLast(log + [cmd], WriteOf(f, o, n));
    assert (log + [cmd])[..|log|] == log;
  }

  lemma TalliedSame(cfg: Config, s: Rank, t: Rank, f: nat, o: nat, n: nat)
    requires Tallied(cfg, s, f, o, n)
    requires t.sent == s.sent && t.places == s.places && t.chunks == s.chunks && t.files == s.files && t.nextPlan == s.nextPlan
    ensures Tallied(cfg, t, f, o, n)
  {
    hide Count, Config.WriterOf;
  }

  lemma CloseTallied(cfg: Config, s: Rank, g: nat, f: nat, o: nat, n: nat)
    requires Tallied(cfg, s, f, o, n) && g in s.files
    ensures Tallied(cfg, MaybeClose(cfg, s, g), f, o, n)
  {
    hide Count, Config.WriterOf, Send;
    var t := MaybeClose(cfg, s, g);
    if t != s {
      SentCount(cfg, s, t, CloseFile(g), f, o, n);
      CloseFlags(cfg, s, g);
      SendOnly(cfg, s, CloseFile(g));
    }
  }

  lemma SendOnly(cfg: Config, s: Rank, cmd: Cmd)
    requires 0 < cfg.writers == |s.sent|
    ensures Send(s, cfg, cmd) == s.(sent := Send(s, cfg, cmd).sent)
  {
    hide Config.WriterOf;
  }

  lemma TakeBodyTallied(cfg: Config, r: nat, s: Rank, t: Rank, f: nat, o: nat, n: nat)
    requires s.nextPlan < |cfg.plan| && Taken(cfg, r, s, t) && Tallied(cfg, s, f, o, n)
    requires f in s.files ==> s.files[f].needsWrite
    ensures Tallied(cfg, t, f, o, n)
  {
    hide Count, Config.WriterOf, Send;
    var g := cfg.plan[s.nextPlan].fileIdx;
    if s.files[g].needsWrite && !s.files[g].isOpen {
      SentCount(cfg, s, t, OpenFile(g, cfg.size[g]), f, o, n);
    }
  }

  lemma TakeTallied(cfg: Config, r: nat, src: seq<seq<Byte>>, s: Rank, f: nat, o: nat, n: nat)
    requires Inv(cfg, r, src, s) && ShapeOk(cfg, s) && CanTake(cfg, s) && Tallied(cfg, s, f, o, n) && cfg.NeedsWrite(r, f)
    ensures Tallied(cfg, Take(cfg, r, s), f, o, n)
  {
    hide TakeBody, MaybeClose, ShapeOk, Config.Valid, SlotInv, QueueInv, FlightInv, PosInv, CountInv, LifeInv, OpenInv, ContentInv, SizeInv, Tallied, Config.NeedsWrite;
    TakeFields(cfg, r, s);
    WritesIt(cfg, r, s, f);
    TakeBodyTallied(cfg, r, s, TakeBody(cfg, r, s), f, o, n);
    CloseTallied(cfg, TakeBody(cfg, r, s), cfg.plan[s.nextPlan].fileIdx, f, o, n);
  }

  lemma WritesIt(cfg: Config, r: nat, s: Rank, f: nat)
    requires CountInv(cfg, r, s) && cfg.NeedsWrite(r, f)
    ensures f in s.files ==> s.files[f].needsWrite
  {
    hide Config.NeedsWrite, Count;
    if f in s.files {
      CountAt(cfg, r, s, f);
    }
  }

  lemma PostBodyTallied(cfg: Config, s: Rank, t: Rank, slot: nat, ch: Chunk, data: seq<Byte>, f: nat, o: nat, n: nat)
    requires Posted(cfg, s, t, slot, ch, data) && s.places[slot].Free? && Tallied(cfg, s, f, o, n)
    ensures Tallied(cfg, t, f, o, n)
  {
    hide Count, Config.WriterOf, SubPosts, Entries;
    CountUpdate(s.places, slot, t.places[slot], FliesAs(f, o, n));
    CountLast(t.chunks, ChunkOf(f, o, n));
    assert t.chunks[..|t.chunks| - 1] == s.chunks;
  }

  lemma PostTallied(cfg: Config, r: nat, src: seq<seq<Byte>>, s: Rank, f: nat, o: nat, n: nat)
    requires Inv(cfg, r, src, s) && ShapeOk(cfg, s) && CanPost(cfg, s) && ReadOk(cfg, s) && Tallied(cfg, s, f, o, n)
    ensures Tallied(cfg, PostChunk(cfg, s), f, o, n)
  {
    hide PostBody, MaybeClose, ShapeOk, Config.Valid, SlotInv, QueueInv, FlightInv, PosInv, CountInv, LifeInv, OpenInv, ContentInv, SizeInv, SubPosts, Entries, Tallied;
    var slot, ch, data := PostFields(cfg, s);
    FirstFree(cfg, s);
    PostBodyTallied(cfg, s, PostBody(cfg, s), slot, ch, data, f, o, n);
    CloseTallied(cfg, PostBody(cfg, s), ch.file, f, o, n);
  }

  lemma FirstFree(cfg: Config, s: Rank)
    requires SlotInv(cfg, s) && s.free != []
    ensures s.free[0] < cfg.depth == |s.places| && s.places[s.free[0]].Free?
  {
  }

  lemma AckTallied(cfg: Config, r: nat, src: seq<seq<Byte>>, s: Rank, f: nat, o: nat, n: nat)
    requires Inv(cfg, r, src, s) && ShapeOk(cfg, s) && CanAck(s) && Tallied(cfg, s, f, o, n)
    ensures Tallied(cfg, TakeAck(cfg, s), f, o, n)
  {
    hide MaybeClose, ShapeOk, Config.Valid, SlotInv, QueueInv, FlightInv, PosInv, CountInv, LifeInv, OpenInv, ContentInv, SizeInv, Count;
    var a := s.acks[0];
    AckHead(cfg, s);
    CountUpdate(s.places, a.slot, Free, FliesAs(f, o, n));
    assert Tallied(cfg, AckBody(s), f, o, n);
    CloseTallied(cfg, AckBody(s), a.file, f, o, n);
  }

  lemma QueueingTallied(cfg: Config, s: Rank, t: Rank, i: nat, buf: seq<Byte>, f: nat, o: nat, n: nat)
    requires Queueing(cfg, s, t, i, buf) && |s.places| == cfg.depth && EntryOk(cfg, s, s.inFlight[i]) && Tallied(cfg, s, f, o, n)
    ensures Tallied(cfg, t, f, o, n)
  {
    hide Count, Config.WriterOf, Send, SwapRemove;
    var e := s.inFlight[i];
    SentCount(cfg, s, t, Write(e.file, e.slot, e.n, e.offset, buf), f, o, n);
    CountUpdate(s.places, e.slot, t.places[e.slot], FliesAs(f, o, n));
  }

  lemma FreedTallied(cfg: Config, s: Rank, t: Rank, i: nat, f: nat, o: nat, n: nat)
    requires Freed(s, t, i) && |s.places| == cfg.depth && EntryOk(cfg, s, s.inFlight[i]) && Tallied(cfg, s, f, o, n)
    requires s.inFlight[i].file != f
    ensures Tallied(cfg, t, f, o, n)
  {
    hide Count, Config.WriterOf, SwapRemove;
    CountUpdate(s.places, s.inFlight[i].slot, Free, FliesAs(f, o, n));
  }

  lemma ReapTallied(cfg: Config, r: nat, src: seq<seq<Byte>>, s: Rank, i: nat, f: nat, o: nat, n: nat)
    requires Inv(cfg, r, src, s) && ShapeOk(cfg, s) && CanReap(cfg, s, i) && Tallied(cfg, s, f, o, n) && cfg.NeedsWrite(r, f)
    ensures Tallied(cfg, Reap(cfg, s, i), f, o, n)
  {
    hide ReapBody, MaybeClose, ShapeOk, Config.Valid, SlotInv, QueueInv, FlightInv, PosInv, CountInv, LifeInv, OpenInv, ContentInv, SizeInv, SwapRemove, Config.WriterOf, Config.NeedsWrite, Tallied, Queueing, Freed;
    var e := s.inFlight[i];
    EntryAt(cfg, s, i);
    FlyingAt(cfg, s, e.slot);
    WritesIt(cfg, r, s, f);
    ReapFields(cfg, s, i);
    var t := ReapBody(cfg, s, i);
    if s.subs[e.slot] > 1 {
      TalliedSame(cfg, s, t, f, o, n);
    } else {
      if s.files[e.file].needsWrite {
        QueueingTallied(cfg, s, t, i, s.bufs[e.slot].value, f, o, n);
      } else {
        FreedTallied(cfg, s, t, i, f, o, n);
      }
      assert e.file in t.files by { ReapedFiles(cfg, s, t, i); }
      CloseTallied(cfg, t, e.file, f, o, n);
    }
  }

  lemma ReapedFiles(cfg: Config, s: Rank, t: Rank, i: nat)
    requires Freed(s, t, i) || (i < |s.inFlight| && s.inFlight[i].slot < |s.bufs| && s.bufs[s.inFlight[i].slot].Some?
                                && Queueing(cfg, s, t, i, s.bufs[s.inFlight[i].slot].value))
    ensures s.inFlight[i].file in t.files
  {
    hide SwapRemove, Config.WriterOf, Send;
  }

  lemma WriterTallied(cfg: Config, r: nat, src: seq<seq<Byte>>, s: Rank, v: nat, f: nat, o: nat, n: nat)
    requires Inv(cfg, r, src, s) && CanWrite(cfg, s, v) && Tallied(cfg, s, f, o, n)
    ensures Tallied(cfg, WriterStep(cfg, s, v), f, o, n)
  {
    hide WriterStep, Config.Valid, SlotInv, QueueInv, FlightInv, PosInv, CountInv, LifeInv, OpenInv, ContentInv, SizeInv, Count, Config.WriterOf;
    TurnFields(cfg, r, src, s, v);
    var t := WriterStep(cfg, s, v);
    var cmd := Next(s, v);
    if cmd.Write? {
      CountUpdate(s.places, cmd.slot, t.places[cmd.slot], FliesAs(f, o, n));
    }
  }

  lemma StepTallied(cfg: Config, src: seq<seq<Byte>>, w: World, a: Action, f: nat, o: nat, n: nat)
    requires WorldInv(cfg, src, w) && Enabled(cfg, w, a) && Tallied(cfg, w.ranks[a.r], f, o, n) && cfg.NeedsWrite(a.r, f)
    ensures Tallied(cfg, Apply(cfg, w, a).ranks[a.r], f, o, n)
  {
    hide Inv, Tallied, Take, PostChunk, TakeAck, Reap, WriterStep, ShapeOk, CanWrite, CanPost, CanTake, ReadOk, Config.Valid, WireOk, Config.NeedsWrite;
    var s := w.ranks[a.r];
    assert Inv(cfg, a.r, src, s);
    var t := Apply(cfg, w, a).ranks[a.r];
    match a
    case ATake(r) => TakeTallied(cfg, r, src, s, f, o, n);
    case APost(r) => PostTallied(cfg, r, src, s, f, o, n);
    case AEndPosting(r) => TalliedSame(cfg, s, t, f, o, n);
    case AAck(r) => AckTallied(cfg, r, src, s, f, o, n);
    case AEndDrain(r) => TalliedSame(cfg, s, t, f, o, n);
    case AReap(r, i) => ReapTallied(cfg, r, src, s, i, f, o, n);
    case AWriter(r, v) => WriterTallied(cfg, r, src, s, v, f, o, n);
    case ACapture(r, k) =>
    case AComplete(r, k) => TalliedSame(cfg, s, t, f, o, n);
  }

  lemma {:induction false} ExecTallied(cfg: Config, src: seq<seq<Byte>>, w: World, sched: seq<Action>, r: nat, f: nat, o: nat, n: nat)
    requires WorldInv(cfg, src, w) && Exec(cfg, w, sched).Some? && r < cfg.world && cfg.NeedsWrite(r, f)
    requires Tallied(cfg, w.ranks[r], f, o, n)
    ensures Tallied(cfg, Exec(cfg, w, sched).value.ranks[r], f, o, n)
    decreases |sched|
  {
    if sched != [] {
      hide WorldInv, Tallied, Enabled, Apply, Config.Valid, Config.NeedsWrite;
      WorldShape(cfg, src, w);
      StepKeeps(cfg, src, w, sched[0]);
      OtherRanks(cfg, w, sched[0]);
      if sched[0].r == r {
        StepTallied(cfg, src, w, sched[0], f, o, n);
      }
      ExecTallied(cfg, src, Apply(cfg, w, sched[0]), sched[1..], r, f, o, n);
    }
  }

  lemma InitTallied(cfg: Config, r: nat, disk: seq<seq<Byte>>, f: nat, o: nat, n: nat)
    requires cfg.Valid()
    ensures Tallied(cfg, InitRank(cfg, r, disk), f, o, n)
  {
    hide Config.NeedsWrite, InitFile;
    NoneCounted(cfg.depth, FliesAs(f, o, n));
  }

  /**
    When a driver has left its loop, every other planned file has been opened at its writer, and its writer has been
    told every chunk of the file exactly as often as the plan cuts it.
  */
  lemma EveryChunkOnce(cfg: Config, src: seq<seq<Byte>>, w: World, r: nat, f: nat, o: nat, n: nat)
    requires cfg.Valid() && Reachable(cfg, src, w) && r < |w.ranks| && w.ranks[r].pc.Finished?
    requires cfg.Planned(f) && !NothingToWrite(cfg, r, f)
    ensures |w.ranks[r].sent| == cfg.writers && cfg.chunk > 0
    ensures var log := w.ranks[r].sent[cfg.WriterOf(f)];
            && (exists i :: 0 <= i < |log| && log[i].OpenFile? && log[i].file == f)
            && Count(log, WriteOf(f, o, n)) == Count(PlanChunks(cfg.plan, cfg.chunk), ChunkOf(f, o, n))
  {
    hide Inv, NothingToWrite, Config.NeedsWrite, Config.Valid, WireOk, DiskReady, InitRank, Tallied, Config.Planned;
    ReachableInv(cfg, src, w);
    var w0: World, sched: seq<Action> :| InitWorld(cfg, src, w0) && Exec(cfg, w0, sched) == Some(w);
    InitKeeps(cfg, src, w0);
    NeedlessIs(cfg, r, f);
    InitTallied(cfg, r, w0.ranks[r].disk, f, o, n);
    ExecTallied(cfg, src, w0, sched, r, f, o, n);
    Positive(cfg);
    assert Inv(cfg, r, src, w.ranks[r]);
    TalliedAtExit(cfg, r, src, w.ranks[r], f, o, n);
  }

  lemma TalliedAtExit(cfg: Config, r: nat, src: seq<seq<Byte>>, s: Rank, f: nat, o: nat, n: nat)
    requires Inv(cfg, r, src, s) && s.pc.Finished? && Tallied(cfg, s, f, o, n) && cfg.Planned(f) && cfg.chunk > 0
    ensures |s.sent| == cfg.writers
    ensures var log := s.sent[cfg.WriterOf(f)];
            && (exists i :: 0 <= i < |log| && log[i].OpenFile? && log[i].file == f)
            && Count(log, WriteOf(f, o, n)) == Count(PlanChunks(cfg.plan, cfg.chunk), ChunkOf(f, o, n))
  {
    hide SlotInv, QueueInv, FlightInv, PosInv, CountInv, LifeInv, OpenInv, ContentInv, SizeInv, LifeOf, Count, Config.Valid, SourceOk, PlanChunks, Config.WriterOf;
    AtExit(cfg, r, src, s);
    CountZero(s.places, FliesAs(f, o, n));
    var i :| 0 <= i < |cfg.plan| && cfg.plan[i].fileIdx == f;
    assert Begun(cfg, s, f);
    LifeAt(cfg, r, s, f);
    var log := s.sent[cfg.WriterOf(f)];
    LifeMeans(log, f);
    if LifeOf(log, f).Closed? {
      var j :| 0 <= j < |log| && log[j] == CloseFile(f);
      assert OpenWritesClose(log, f);
    }
  }
}
