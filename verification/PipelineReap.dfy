/** Handing back a completed request keeps the invariant. */
module PipelineReap {
  import opened Types
  import opened Counting
  import opened PipelineModel
  import opened PipelineInv
  import opened PipelinePosts
  import opened PipelineClose

  lemma ReapIsOk(cfg: Config, r: nat, src: seq<seq<Byte>>, s: Rank, i: nat)
    requires CoreInv(cfg, r, src, s) && s.pc.RequestWait? && i < |s.inFlight| && s.inFlight[i].request in s.completed
    ensures ShapeOk(cfg, s) && CanReap(cfg, s, i)
  {
    ShapeFromInv(cfg, r, src, s);
    hide ShapeOk, QueueInv, PosInv, LifeInv, OpenInv, ContentInv, SizeInv, FileCounts, Count, Config.NeedsWrite, Config.WriterOf;
    assert EntryOk(cfg, s, s.inFlight[i]);
  }

  /** The flight list loses one completed request of one slot. */
  predicate Reaped(s: Rank, t: Rank, i: nat) {
    && i < |s.inFlight| && s.inFlight[i].request in s.completed
    && s.inFlight[i].slot < |s.subs|
    && t.inFlight == SwapRemove(s.inFlight, i)
    && t.subs == s.subs[s.inFlight[i].slot := s.subs[s.inFlight[i].slot] - 1]
    && t.posts == s.posts && t.completed == s.completed
  }

  lemma ReapRequests(cfg: Config, s: Rank, t: Rank, i: nat)
    requires FlightInv(cfg, s) && Reaped(s, t, i)
    ensures forall k: nat | k < |t.posts| && k !in t.completed :: InFlightReq(t, k)
    ensures forall a, b | 0 <= a < b < |t.inFlight| :: t.inFlight[a].request != t.inFlight[b].request
    ensures forall x: nat | x < cfg.depth :: t.subs[x] == Count(t.inFlight, OnSlot(x))
  {
    hide Count, EntryOk;
    forall k: nat | k < |t.posts| && k !in t.completed
      ensures InFlightReq(t, k)
    {
      assert InFlightReq(s, k);
      var j :| 0 <= j < |s.inFlight| && s.inFlight[j].request == k;
      var m := SwapRemoveKeeps(s.inFlight, i, j);
    }
    forall a, b | 0 <= a < b < |t.inFlight|
      ensures t.inFlight[a].request != t.inFlight[b].request
    {
      var j := SwapRemoveFrom(s.inFlight, i, a);
      var l := SwapRemoveFrom(s.inFlight, i, b);
    }
    forall x: nat | x < cfg.depth
      ensures t.subs[x] == Count(t.inFlight, OnSlot(x))
    {
      SwapRemoveCount(s.inFlight, i, OnSlot(x));
    }
  }

  /** With its last sub-broadcast handed back, nothing of the chunk is in flight any more. */
  lemma LastSub(cfg: Config, s: Rank, t: Rank, i: nat)
    requires FlightInv(cfg, s) && Reaped(s, t, i) && s.subs[s.inFlight[i].slot] == 1
    ensures forall m | 0 <= m < |t.inFlight| :: t.inFlight[m].slot != s.inFlight[i].slot
    ensures forall k | 0 <= k < |s.posts| && s.posts[k].chunk == s.places[s.inFlight[i].slot].c :: k in s.completed
  {
    hide Count;
    var x := s.inFlight[i].slot;
    assert EntryOk(cfg, s, s.inFlight[i]);
    ReapRequests(cfg, s, t, i);
    CountZero(t.inFlight, OnSlot(x));
    forall m | 0 <= m < |t.inFlight|
      ensures t.inFlight[m].slot != x
    {
      assert !OnSlot(x)(t.inFlight[m]);
    }
    forall k | 0 <= k < |s.posts| && s.posts[k].chunk == s.places[x].c
      ensures k in s.completed
    {
      if k !in s.completed {
        assert InFlightReq(t, k);
        var m :| 0 <= m < |t.inFlight| && t.inFlight[m].request == k;
        var j := SwapRemoveFrom(s.inFlight, i, m);
      }
    }
  }

  lemma ReapFlight(cfg: Config, s: Rank, t: Rank, i: nat)
    requires FlightInv(cfg, s) && Reaped(s, t, i) && |t.places| == cfg.depth
    requires forall x | 0 <= x < cfg.depth && x != s.inFlight[i].slot :: t.places[x] == s.places[x]
    requires t.places[s.inFlight[i].slot] == s.places[s.inFlight[i].slot]
             || (s.subs[s.inFlight[i].slot] == 1 && !t.places[s.inFlight[i].slot].Flying?)
    ensures FlightInv(cfg, t)
  {
    hide Count;
    ReapRequests(cfg, s, t, i);
    if s.subs[s.inFlight[i].slot] == 1 {
      LastSub(cfg, s, t, i);
    }
    forall m | 0 <= m < |t.inFlight|
      ensures EntryOk(cfg, t, t.inFlight[m])
    {
      var j := SwapRemoveFrom(s.inFlight, i, m);
      assert EntryOk(cfg, s, s.inFlight[j]);
    }
  }

  // ---- the chunk is complete but not written: its slot is free again

  predicate Freed(s: Rank, t: Rank, i: nat) {
    && i < |s.inFlight|
    && var e := s.inFlight[i];
       && e.slot < |s.bufs| && e.slot < |s.places| && e.slot < |s.subs| && e.file in s.files
       && s.places[e.slot].Flying? && s.subs[e.slot] == 1
       && t == s.(pc := t.pc, inFlight := SwapRemove(s.inFlight, i), subs := s.subs[e.slot := s.subs[e.slot] - 1],
                  free := s.free + [e.slot],
                  files := s.files[e.file := s.files[e.file].(chunksInFlight := s.files[e.file].chunksInFlight - 1)],
                  places := s.places[e.slot := Free])
  }

  lemma FreedSlot(cfg: Config, s: Rank, t: Rank, i: nat)
    requires SlotInv(cfg, s) && Freed(s, t, i)
    ensures SlotInv(cfg, t)
  {
    hide SwapRemove;
    forall x: nat | x < cfg.depth && t.places[x].Free?
      ensures x in t.free
    {
      if x == s.inFlight[i].slot {
        assert t.free[|s.free|] == x;
      } else {
        assert x in s.free;
      }
    }
  }

  lemma FreedQueue(cfg: Config, s: Rank, t: Rank, i: nat)
    requires QueueInv(cfg, s) && Freed(s, t, i)
    ensures QueueInv(cfg, t)
  {
    hide Config.WriterOf, SwapRemove;
    forall x | 0 <= x < cfg.depth && t.places[x].Queued?
      ensures QueuedAt(cfg, t, x)
    {
      assert QueuedAt(cfg, s, x);
    }
    forall x | 0 <= x < cfg.depth && t.places[x].Acked?
      ensures exists j :: 0 <= j < |t.acks| && t.acks[j].slot == x
    {
      assert s.places[x].Acked?;
    }
  }

  lemma FreedFileCounts(cfg: Config, r: nat, s: Rank, t: Rank, i: nat, g: nat)
    requires Freed(s, t, i) && s.places[s.inFlight[i].slot].chunk.file == s.inFlight[i].file
    requires s.nextPlan <= |cfg.plan| && g in s.files && FileCounts(cfg, r, s, g)
    ensures FileCounts(cfg, r, t, g)
  {
    hide Config.NeedsWrite, Count, SwapRemove;
    CountUpdate(s.places, s.inFlight[i].slot, Free, FlyingOf(g));
    CountUpdate(s.places, s.inFlight[i].slot, Free, WritingOf(g));
  }

  lemma FreedCount(cfg: Config, r: nat, s: Rank, t: Rank, i: nat)
    requires CountInv(cfg, r, s) && Freed(s, t, i)
    requires s.places[s.inFlight[i].slot].chunk.file == s.inFlight[i].file
    ensures CountInv(cfg, r, t)
  {
    hide Config.NeedsWrite, Count, FileCounts, Config.Planned, SwapRemove;
    CountUpdate(s.places, s.inFlight[i].slot, Free, Writing());
    forall g | g in t.files
      ensures FileCounts(cfg, r, t, g)
    {
      CountAt(cfg, r, s, g);
      FreedFileCounts(cfg, r, s, t, i, g);
    }
  }

  lemma FreedLife(cfg: Config, r: nat, s: Rank, t: Rank, i: nat)
    requires LifeInv(cfg, r, s) && Freed(s, t, i)
    ensures LifeInv(cfg, r, t)
  {
    hide Config.NeedsWrite, Config.WriterOf, LifeOf, SwapRemove;
    forall g | g in t.files
      ensures FileLife(cfg, t, g)
    {
      assert FileLife(cfg, s, g);
    }
  }

  /** A file this rank does not write is all there from the start, as far as the plan touches it. */
  lemma UnwrittenIsBase(cfg: Config, r: nat, src: seq<seq<Byte>>, s: Rank, ch: Chunk)
    requires ContentInv(cfg, r, src, s) && WellChunk(cfg, ch) && ch.file in s.files
    requires !cfg.NeedsWrite(r, ch.file)
    ensures ch.file < |s.disk| == |src| && RangeOk(s.disk[ch.file], src[ch.file], ch.offset, ch.n)
  {
    hide Config.WriterOf, HoldsPart, QueuedBytes, Carried;
    var j :| 0 <= j < |cfg.plan| && InShard(cfg.plan[j], ch);
    forall p | ch.offset <= p < ch.offset + ch.n
      ensures Base(cfg, r, ch.file, p)
    {
      assert cfg.plan[j].Covers(ch.file, p);
    }
  }

  lemma FreedContent(cfg: Config, r: nat, src: seq<seq<Byte>>, s: Rank, t: Rank, i: nat)
    requires ContentInv(cfg, r, src, s) && Freed(s, t, i)
    requires s.places[s.inFlight[i].slot].c < |s.chunks|
    requires var ch := s.chunks[s.places[s.inFlight[i].slot].c];
             ch.file < |s.disk| == |src| && RangeOk(s.disk[ch.file], src[ch.file], ch.offset, ch.n)
    ensures ContentInv(cfg, r, src, t)
  {
    hide Config.WriterOf, Base, RangeOk, HoldsPart, SwapRemove;
    forall c: nat | c < |t.chunks| && Carried(s, c) && c != s.places[s.inFlight[i].slot].c
      ensures Carried(t, c)
    {
      var x :| 0 <= x < |s.places| && (s.places[x].Flying? || s.places[x].Queued?) && s.places[x].c == c;
      assert t.places[x] == s.places[x];
    }
    forall x | 0 <= x < cfg.depth && t.places[x].Queued?
      ensures QueuedBytes(cfg, src, t, x)
    {
      assert QueuedBytes(cfg, src, s, x);
    }
  }

  // ---- the chunk is complete and goes to its writer

  predicate Queueing(cfg: Config, s: Rank, t: Rank, i: nat, buf: seq<Byte>) {
    && i < |s.inFlight| && 0 < cfg.writers == |s.sent|
    && var e := s.inFlight[i];
       var w := cfg.WriterOf(e.file);
       && e.slot < |s.bufs| && e.slot < |s.places| && e.slot < |s.subs| && e.file in s.files
       && s.bufs[e.slot] == Some(buf)
       && s.places[e.slot].Flying? && s.subs[e.slot] == 1
       && t == s.(pc := t.pc, inFlight := SwapRemove(s.inFlight, i), subs := s.subs[e.slot := s.subs[e.slot] - 1],
                  bufs := s.bufs[e.slot := None], pending := s.pending + 1,
                  sent := Send(s, cfg, Write(e.file, e.slot, e.n, e.offset, buf)).sent,
                  files := s.files[e.file := s.files[e.file].(
                    chunksInFlight := s.files[e.file].chunksInFlight - 1,
                    writesInFlight := s.files[e.file].writesInFlight + 1)],
                  places := s.places[e.slot := Queued(s.places[e.slot].c, s.places[e.slot].chunk, |s.sent[w]|)])
  }

  lemma QueueingSlot(cfg: Config, s: Rank, t: Rank, i: nat, buf: seq<Byte>)
    requires SlotInv(cfg, s) && Queueing(cfg, s, t, i, buf)
    ensures SlotInv(cfg, t)
  {
    hide SwapRemove, Send, Config.WriterOf;
    forall x: nat | x < cfg.depth && t.places[x].Free?
      ensures x in t.free
    {
      assert x in s.free;
    }
  }

  lemma QueueingWrites(cfg: Config, s: Rank, t: Rank, i: nat, buf: seq<Byte>, w: nat, j: nat)
    requires QueueInv(cfg, s) && Queueing(cfg, s, t, i, buf) && |buf| == cfg.chunk && EntryOk(cfg, s, s.inFlight[i])
    requires w < cfg.writers && w < |t.received| && w < |t.sent| && t.received[w] <= j < |t.sent[w]| && t.sent[w][j].Write?
    ensures t.sent[w][j].slot < cfg.depth == |t.places| && t.places[t.sent[w][j].slot].Queued?
            && t.places[t.sent[w][j].slot].pos == j
            && t.places[t.sent[w][j].slot].chunk.file == t.sent[w][j].file
  {
    hide Config.WriterOf, SwapRemove, LifeOf, Send, QueuedAt;
    var e := s.inFlight[i];
    SendFrame(cfg, s, Write(e.file, e.slot, e.n, e.offset, buf));
    if w != cfg.WriterOf(e.file) || j != |s.sent[w]| {
      assert t.sent[w][j] == s.sent[w][j];
    }
  }

  lemma QueueingQueue(cfg: Config, s: Rank, t: Rank, i: nat, buf: seq<Byte>)
    requires QueueInv(cfg, s) && Queueing(cfg, s, t, i, buf) && |buf| == cfg.chunk
    requires EntryOk(cfg, s, s.inFlight[i])
    ensures QueueInv(cfg, t)
  {
    hide Config.WriterOf, SwapRemove, LifeOf, Send, QueuedAt;
    var e := s.inFlight[i];
    SendFrame(cfg, s, Write(e.file, e.slot, e.n, e.offset, buf));
    forall w, j | 0 <= w < cfg.writers && t.received[w] <= j < |t.sent[w]| && t.sent[w][j].Write?
      ensures t.sent[w][j].slot < cfg.depth && t.places[t.sent[w][j].slot].Queued?
              && t.places[t.sent[w][j].slot].pos == j
              && t.places[t.sent[w][j].slot].chunk.file == t.sent[w][j].file
    {
      QueueingWrites(cfg, s, t, i, buf, w, j);
    }
    QueueingSlots(cfg, s, t, i, buf);
    hide EntryOk;
    forall x | 0 <= x < cfg.depth && t.places[x].Acked?
      ensures exists j :: 0 <= j < |t.acks| && t.acks[j].slot == x
    {
      assert s.places[x].Acked?;
    }
  }

  lemma QueueingSlots(cfg: Config, s: Rank, t: Rank, i: nat, buf: seq<Byte>)
    requires QueueInv(cfg, s) && Queueing(cfg, s, t, i, buf) && |buf| == cfg.chunk
    requires EntryOk(cfg, s, s.inFlight[i])
    requires |t.sent| == |t.received| == cfg.writers && |t.places| == cfg.depth
    ensures forall x | 0 <= x < cfg.depth && t.places[x].Queued? :: QueuedAt(cfg, t, x)
  {
    hide Config.WriterOf, SwapRemove, LifeOf, Send;
    var e := s.inFlight[i];
    SendFrame(cfg, s, Write(e.file, e.slot, e.n, e.offset, buf));
    forall x | 0 <= x < cfg.depth && t.places[x].Queued?
      ensures QueuedAt(cfg, t, x)
    {
      if x != e.slot {
        assert QueuedAt(cfg, s, x);
      }
    }
  }

  lemma QueueingFileCounts(cfg: Config, r: nat, s: Rank, t: Rank, i: nat, buf: seq<Byte>, g: nat)
    requires Queueing(cfg, s, t, i, buf) && s.places[s.inFlight[i].slot].chunk.file == s.inFlight[i].file
    requires s.nextPlan <= |cfg.plan| && g in s.files && FileCounts(cfg, r, s, g)
    ensures FileCounts(cfg, r, t, g)
  {
    hide Config.NeedsWrite, Count, SwapRemove, Send, Config.WriterOf;
    var x := s.inFlight[i].slot;
    CountUpdate(s.places, x, t.places[x], FlyingOf(g));
    CountUpdate(s.places, x, t.places[x], WritingOf(g));
  }

  lemma QueueingCount(cfg: Config, r: nat, s: Rank, t: Rank, i: nat, buf: seq<Byte>)
    requires CountInv(cfg, r, s) && Queueing(cfg, s, t, i, buf)
    requires s.places[s.inFlight[i].slot].chunk.file == s.inFlight[i].file && cfg.NeedsWrite(r, s.inFlight[i].file)
    ensures CountInv(cfg, r, t)
  {
    hide Config.NeedsWrite, Count, FileCounts, Config.Planned, SwapRemove, Send, Config.WriterOf;
    var x := s.inFlight[i].slot;
    CountUpdate(s.places, x, t.places[x], Writing());
    forall g | g in t.files
      ensures FileCounts(cfg, r, t, g)
    {
      CountAt(cfg, r, s, g);
      QueueingFileCounts(cfg, r, s, t, i, buf, g);
    }
  }

  lemma QueueingLife(cfg: Config, r: nat, s: Rank, t: Rank, i: nat, buf: seq<Byte>)
    requires LifeInv(cfg, r, s) && Queueing(cfg, s, t, i, buf)
    requires s.places[s.inFlight[i].slot].chunk.file == s.inFlight[i].file && s.files[s.inFlight[i].file].needsWrite
    ensures LifeInv(cfg, r, t)
  {
    hide Config.NeedsWrite, Config.WriterOf, LifeOf, SwapRemove, Send;
    var e := s.inFlight[i];
    assert NotLate(s, e.file);
    SendFrame(cfg, s, Write(e.file, e.slot, e.n, e.offset, buf));
    forall g | g in t.files
      ensures FileLife(cfg, t, g)
    {
      assert FileLife(cfg, s, g);
    }
  }

  /** All parts of the chunk have arrived, so the buffer holds all of it. */
  lemma WholeChunk(cfg: Config, r: nat, src: seq<seq<Byte>>, s: Rank, i: nat, buf: seq<Byte>)
    requires ContentInv(cfg, r, src, s) && PosInv(cfg, r, s) && SlotInv(cfg, s)
    requires i < |s.inFlight| && s.inFlight[i].slot < cfg.depth && s.bufs[s.inFlight[i].slot] == Some(buf)
    requires s.places[s.inFlight[i].slot].Flying?
    requires forall k | 0 <= k < |s.posts| && s.posts[k].chunk == s.places[s.inFlight[i].slot].c :: k in s.completed
    ensures var ch := s.places[s.inFlight[i].slot].chunk;
            ch.file < |src| && HoldsPart(buf, src[ch.file], ch.offset, 0, ch.n)
  {
    hide Config.WriterOf, Base, RangeOk, QueuedBytes, Carried, Remaining, PlanChunks;
    var x := s.inFlight[i].slot;
    var pl := s.places[x];
    assert WellChunk(cfg, s.chunks[pl.c]);
    forall b | 0 <= b < pl.chunk.n
      ensures buf[b] == src[pl.chunk.file][pl.chunk.offset + b]
    {
      var k := AllPostsCover(s.chunks, pl.c, b);
      assert NoSlot(s.posts[k]) == AllPosts(s.chunks)[k];
      assert s.posts[k].chunk == pl.c;
      assert HoldsPart(buf, src[pl.chunk.file], pl.chunk.offset, s.posts[k].off, s.posts[k].len);
    }
  }

  lemma QueueingContent(cfg: Config, r: nat, src: seq<seq<Byte>>, s: Rank, t: Rank, i: nat, buf: seq<Byte>)
    requires ContentInv(cfg, r, src, s) && Queueing(cfg, s, t, i, buf)
    requires s.places[s.inFlight[i].slot].chunk.file == s.inFlight[i].file
    requires var ch := s.places[s.inFlight[i].slot].chunk;
             ch.file < |src| && HoldsPart(buf, src[ch.file], ch.offset, 0, ch.n)
    ensures ContentInv(cfg, r, src, t)
  {
    hide Config.WriterOf, Base, RangeOk, HoldsPart, SwapRemove, Send, LifeOf;
    var e := s.inFlight[i];
    SendFrame(cfg, s, Write(e.file, e.slot, e.n, e.offset, buf));
    forall c: nat | c < |t.chunks| && Carried(s, c)
      ensures Carried(t, c)
    {
      var x :| 0 <= x < |s.places| && (s.places[x].Flying? || s.places[x].Queued?) && s.places[x].c == c;
      assert t.places[x] == s.places[x] || x == e.slot;
      assert (t.places[x].Flying? || t.places[x].Queued?) && t.places[x].c == c;
    }
    forall x | 0 <= x < cfg.depth && t.places[x].Queued?
      ensures QueuedBytes(cfg, src, t, x)
    {
      if x != e.slot {
        assert QueuedBytes(cfg, src, s, x);
      }
    }
  }

  // ---- the step

  /** A slot with sub-broadcasts left only loses one flight entry. */
  lemma PartKeeps(cfg: Config, r: nat, src: seq<seq<Byte>>, s: Rank, t: Rank, i: nat)
    requires Inv(cfg, r, src, s) && Reaped(s, t, i) && s.subs[s.inFlight[i].slot] > 1
    requires t == s.(pc := Posting, inFlight := t.inFlight, subs := t.subs)
    ensures Inv(cfg, r, src, t)
  {
    hide LifeOf, Config.Valid, SourceOk, SlotInv, QueueInv, FlightInv, PosInv, CountInv, LifeInv, OpenInv, ContentInv, SizeInv, SwapRemove;
    PartSlot(cfg, s, t, i);
    QueueFrame(cfg, s, t);
    ReapFlight(cfg, s, t, i);
    PosFrame(cfg, r, s, t);
    CountFrame(cfg, r, s, t);
    LifeFrame(cfg, r, s, t);
    OpenSame(cfg, s, t);
    ContentFrame(cfg, r, src, s, t);
    SizeFrame(cfg, s, t);
  }

  lemma PartSlot(cfg: Config, s: Rank, t: Rank, i: nat)
    requires SlotInv(cfg, s) && Reaped(s, t, i) && s.subs[s.inFlight[i].slot] > 1
    requires t == s.(pc := Posting, inFlight := t.inFlight, subs := t.subs)
    ensures SlotInv(cfg, t)
  {
    hide SwapRemove;
  }

  lemma EntryAt(cfg: Config, s: Rank, i: nat)
    requires FlightInv(cfg, s) && i < |s.inFlight|
    ensures |s.places| == cfg.depth == |s.subs| && EntryOk(cfg, s, s.inFlight[i])
  {
  }

  lemma FlyingAt(cfg: Config, s: Rank, x: nat)
    requires SlotInv(cfg, s) && x < cfg.depth && s.places[x].Flying?
    ensures s.subs[x] > 0 && s.places[x].c < |s.chunks| && s.chunks[s.places[x].c] == s.places[x].chunk
    ensures s.bufs[x].Some? && |s.bufs[x].value| == cfg.chunk
  {
  }

  lemma ChunkAt(cfg: Config, r: nat, s: Rank, c: nat)
    requires PosInv(cfg, r, s) && c < |s.chunks|
    ensures WellChunk(cfg, s.chunks[c])
  {
  }

  lemma FreedKeeps(cfg: Config, r: nat, src: seq<seq<Byte>>, s: Rank, t: Rank, i: nat)
    requires CoreInv(cfg, r, src, s) && EagerInv(s, {}) && Freed(s, t, i) && Reaped(s, t, i)
    requires EntryOk(cfg, s, s.inFlight[i]) && !s.files[s.inFlight[i].file].needsWrite
    ensures CoreInv(cfg, r, src, t) && EagerInv(t, {s.inFlight[i].file})
  {
    hide LifeOf, Config.Valid, SourceOk, SlotInv, QueueInv, FlightInv, PosInv, CountInv, LifeInv, OpenInv, ContentInv, SizeInv, SwapRemove, WellChunk, RangeOk, Config.NeedsWrite, Count;
    var e := s.inFlight[i];
    FlyingAt(cfg, s, e.slot);
    ChunkAt(cfg, r, s, s.places[e.slot].c);
    CountAt(cfg, r, s, e.file);
    UnwrittenIsBase(cfg, r, src, s, s.places[e.slot].chunk);
    FreedSlot(cfg, s, t, i);
    FreedQueue(cfg, s, t, i);
    ReapFlight(cfg, s, t, i);
    PosFrame(cfg, r, s, t);
    FreedCount(cfg, r, s, t, i);
    FreedLife(cfg, r, s, t, i);
    OpenSame(cfg, s, t);
    FreedContent(cfg, r, src, s, t, i);
    SizeFrame(cfg, s, t);
  }

  lemma QueueingKeeps(cfg: Config, r: nat, src: seq<seq<Byte>>, s: Rank, t: Rank, i: nat, buf: seq<Byte>)
    requires CoreInv(cfg, r, src, s) && EagerInv(s, {}) && Queueing(cfg, s, t, i, buf) && Reaped(s, t, i)
    requires EntryOk(cfg, s, s.inFlight[i]) && s.files[s.inFlight[i].file].needsWrite
    ensures CoreInv(cfg, r, src, t) && EagerInv(t, {s.inFlight[i].file})
  {
    hide LifeOf, Config.Valid, SourceOk, SlotInv, QueueInv, FlightInv, PosInv, CountInv, LifeInv, OpenInv, ContentInv, SizeInv, SwapRemove, WellChunk, HoldsPart, Config.NeedsWrite, Count, Send, Config.WriterOf;
    var e := s.inFlight[i];
    FlyingAt(cfg, s, e.slot);
    CountAt(cfg, r, s, e.file);
    LastSub(cfg, s, t, i);
    WholeChunk(cfg, r, src, s, i, buf);
    QueueingSlot(cfg, s, t, i, buf);
    QueueingQueue(cfg, s, t, i, buf);
    ReapFlight(cfg, s, t, i);
    PosFrame(cfg, r, s, t);
    QueueingCount(cfg, r, s, t, i, buf);
    QueueingLife(cfg, r, s, t, i, buf);
    OpenFrame(cfg, s, Write(e.file, e.slot, e.n, e.offset, buf), t);
    SendFrame(cfg, s, Write(e.file, e.slot, e.n, e.offset, buf));
    QueueingContent(cfg, r, src, s, t, i, buf);
    SizeFrame(cfg, s, t);
  }

  lemma ReapFields(cfg: Config, s: Rank, i: nat)
    requires cfg.Valid() && ShapeOk(cfg, s) && CanReap(cfg, s, i) && s.subs[s.inFlight[i].slot] > 0
    ensures var t := ReapBody(cfg, s, i);
            var e := s.inFlight[i];
            && Reaped(s, t, i) && t.pc == Posting
            && (if s.subs[e.slot] > 1 then t == s.(pc := Posting, inFlight := t.inFlight, subs := t.subs)
                else if s.files[e.file].needsWrite then Queueing(cfg, s, t, i, s.bufs[e.slot].value)
                else Freed(s, t, i))
  {
    hide SwapRemove, Config.WriterOf;
  }

  lemma ReapKeeps(cfg: Config, r: nat, src: seq<seq<Byte>>, s: Rank, i: nat)
    requires Inv(cfg, r, src, s) && ShapeOk(cfg, s) && CanReap(cfg, s, i)
    ensures Inv(cfg, r, src, Reap(cfg, s, i))
  {
    hide ReapBody, ShapeOk, MaybeClose, LifeOf, Config.Valid, SourceOk, SlotInv, QueueInv, FlightInv, PosInv, CountInv, LifeInv, OpenInv, ContentInv, SizeInv, SwapRemove;
    var e := s.inFlight[i];
    EntryAt(cfg, s, i);
    FlyingAt(cfg, s, e.slot);
    ReapFields(cfg, s, i);
    var t := ReapBody(cfg, s, i);
    if s.subs[e.slot] > 1 {
      PartKeeps(cfg, r, src, s, t, i);
    } else {
      if s.files[e.file].needsWrite {
        QueueingKeeps(cfg, r, src, s, t, i, s.bufs[e.slot].value);
      } else {
        FreedKeeps(cfg, r, src, s, t, i);
      }
      hide CoreInv, Freed, Queueing;
      CloseKeeps(cfg, r, src, t, e.file);
    }
  }
}
