/** A writer's turn keeps the invariant. */
module PipelineWrite {
  import opened Types
  import opened Counting
  import opened PipelineModel
  import opened PipelineInv
  import opened PipelineClose

  // ---- a writer never meets a file it does not have open

  lemma {:induction false} BrokenStays(log: seq<Cmd>, n: nat, f: nat)
    requires n <= |log| && LifeOf(log[..n], f).Broken?
    ensures LifeOf(log, f).Broken?
  {
    if n == |log| {
      assert log[..n] == log;
    } else {
      assert log[..|log| - 1][..n] == log[..n];
      BrokenStays(log[..|log| - 1], n, f);
    }
  }

  /** The life of a file at the command a writer is about to run. */
  lemma LifeBefore(log: seq<Cmd>, n: nat, f: nat)
    requires n < |log| && !LifeOf(log, f).Broken? && log[n].file == f
    ensures log[n].OpenFile? ==> LifeOf(log[..n], f).Never?
    ensures !log[n].OpenFile? ==> LifeOf(log[..n], f).Opened?
    ensures !LifeOf(log[..n + 1], f).Broken?
  {
    assert log[..n + 1] == log[..n] + [log[n]];
    LifeAppend(log[..n], log[n], f);
    if LifeOf(log[..n + 1], f).Broken? {
      BrokenStays(log, n + 1, f);
    }
  }

  /** The next command of a writer. */
  function Next(s: Rank, w: nat): Cmd
    requires w < |s.sent| && w < |s.received| && s.received[w] < |s.sent[w]|
  {
    s.sent[w][s.received[w]]
  }

  lemma NextFile(cfg: Config, s: Rank, w: nat)
    requires QueueInv(cfg, s) && w < cfg.writers && s.received[w] < |s.sent[w]|
    ensures 0 < cfg.writers == |s.sent| == |s.received| && |s.places| == cfg.depth
    ensures var cmd := Next(s, w);
            cfg.WriterOf(cmd.file) == w && cmd.file in s.files
            && (cmd.Write? ==> cmd.slot < cfg.depth && s.places[cmd.slot].Queued? && s.places[cmd.slot].pos == s.received[w]
                               && s.places[cmd.slot].chunk.file == cmd.file && QueuedAt(cfg, s, cmd.slot))
  {
    hide Config.WriterOf, QueuedAt;
  }

  lemma NextLife(cfg: Config, r: nat, s: Rank, w: nat)
    requires QueueInv(cfg, s) && LifeInv(cfg, r, s) && w < cfg.writers && s.received[w] < |s.sent[w]|
    ensures var cmd := Next(s, w);
            && (if cmd.OpenFile? then LifeOf(s.sent[w][..s.received[w]], cmd.file).Never?
                else LifeOf(s.sent[w][..s.received[w]], cmd.file).Opened?)
            && (cmd.OpenFile? ==> cmd.file < |cfg.size| && cmd.size == cfg.size[cmd.file])
  {
    hide Config.WriterOf, LifeOf, QueueInv, Config.NeedsWrite;
    NextFile(cfg, s, w);
    var cmd := Next(s, w);
    LifeAt(cfg, r, s, cmd.file);
    LifeBefore(s.sent[w], s.received[w], cmd.file);
  }

  lemma OpenAt(cfg: Config, s: Rank, w: nat, f: nat)
    requires OpenInv(cfg, s) && w < cfg.writers
    ensures |s.sent| == |s.received| == |s.open| == cfg.writers && s.received[w] <= |s.sent[w]|
    ensures f in s.open[w] <==> LifeOf(s.sent[w][..s.received[w]], f).Opened?
    ensures f in s.open[w] ==> f < |cfg.size| && s.open[w][f] == cfg.size[f]
  {
    hide LifeOf;
    assert OpenOk(cfg, s, w, f);
  }

  lemma WriteIsOk(cfg: Config, r: nat, src: seq<seq<Byte>>, s: Rank, w: nat)
    requires CoreInv(cfg, r, src, s) && w < cfg.writers && s.received[w] < |s.sent[w]|
    ensures CanWrite(cfg, s, w)
  {
    hide SlotInv, QueueInv, FlightInv, PosInv, CountInv, LifeInv, OpenInv, ContentInv, SizeInv, Config.WriterOf, LifeOf, Config.Valid, SourceOk;
    NextFile(cfg, s, w);
    NextLife(cfg, r, s, w);
    var cmd := Next(s, w);
    OpenAt(cfg, s, w, cmd.file);
    CountAt(cfg, r, s, cmd.file);
  }

  // ---- the step, field by field

  predicate Turned(s: Rank, t: Rank, w: nat) {
    && w < |s.sent| && w < |s.received| && w < |s.open| && s.received[w] < |s.sent[w]|
    && t == s.(received := s.received[w := s.received[w] + 1], open := t.open, disk := t.disk, acks := t.acks, places := t.places)
    && var cmd := Next(s, w);
       match cmd
       case OpenFile(f, size) =>
         var m: map<nat, nat> := s.open[w][f := size];
         t.open == s.open[w := m] && t.disk == s.disk && t.acks == s.acks && t.places == s.places
       case Write(f, slot, n, offset, buf) =>
         && slot < |s.places| && s.places[slot].Queued?
         && t.open == s.open && t.acks == s.acks + [Ack(slot, f, buf)]
         && t.places == s.places[slot := Acked(s.places[slot].c, s.places[slot].chunk)]
       case CloseFile(f) =>
         && f in s.open[w]
         && (var m: map<nat, nat> := s.open[w] - {f}; t.open == s.open[w := m])
         && t.acks == s.acks && t.places == s.places
  }

  lemma TurnFields(cfg: Config, r: nat, src: seq<seq<Byte>>, s: Rank, w: nat)
    requires CoreInv(cfg, r, src, s) && CanWrite(cfg, s, w)
    ensures Turned(s, WriterStep(cfg, s, w), w)
  {
    hide SlotInv, QueueInv, FlightInv, PosInv, CountInv, LifeInv, OpenInv, ContentInv, SizeInv, Config.WriterOf, LifeOf, Config.Valid, SourceOk, WriteAt, SetLen, WriteLen;
    NextLife(cfg, r, s, w);
    OpenAt(cfg, s, w, Next(s, w).file);
  }

  lemma TurnSlot(cfg: Config, s: Rank, t: Rank, w: nat)
    requires SlotInv(cfg, s) && Turned(s, t, w)
    ensures SlotInv(cfg, t)
  {
    forall x: nat | x < cfg.depth && t.places[x].Free?
      ensures x in t.free
    {
      assert x in s.free;
    }
  }

  lemma TurnQueued(cfg: Config, s: Rank, t: Rank, w: nat, x: nat)
    requires QueueInv(cfg, s) && Turned(s, t, w) && x < cfg.depth && t.places[x].Queued?
    ensures |t.places| == cfg.depth && QueuedAt(cfg, t, x)
  {
    hide Config.WriterOf;
    assert QueuedAt(cfg, s, x);
  }

  lemma TurnAcked(cfg: Config, s: Rank, t: Rank, w: nat, x: nat)
    requires QueueInv(cfg, s) && Turned(s, t, w) && x < cfg.depth && x < |t.places| && t.places[x].Acked?
    ensures exists j :: 0 <= j < |t.acks| && t.acks[j].slot == x
  {
    hide Config.WriterOf, QueuedAt;
    var cmd := Next(s, w);
    if cmd.Write? && x == cmd.slot {
      assert t.acks[|s.acks|].slot == x;
    } else {
      var j :| 0 <= j < |s.acks| && s.acks[j].slot == x;
      assert t.acks[j].slot == x;
    }
  }

  lemma TurnQueue(cfg: Config, s: Rank, t: Rank, w: nat)
    requires QueueInv(cfg, s) && Turned(s, t, w)
    ensures QueueInv(cfg, t)
  {
    hide Config.WriterOf, QueuedAt;
    NextFile(cfg, s, w);
    var cmd := Next(s, w);
    forall x | 0 <= x < cfg.depth && t.places[x].Queued?
      ensures QueuedAt(cfg, t, x)
    {
      TurnQueued(cfg, s, t, w, x);
    }
    forall x | 0 <= x < cfg.depth && t.places[x].Acked?
      ensures exists j :: 0 <= j < |t.acks| && t.acks[j].slot == x
    {
      TurnAcked(cfg, s, t, w, x);
    }
    if cmd.Write? {
      QueuedBuf(cfg, s, w);
    }
    forall v, i | 0 <= v < cfg.writers && t.received[v] <= i < |t.sent[v]| && t.sent[v][i].Write?
      ensures t.sent[v][i].slot < cfg.depth && t.places[t.sent[v][i].slot].Queued?
              && t.places[t.sent[v][i].slot].pos == i
              && t.places[t.sent[v][i].slot].chunk.file == t.sent[v][i].file
    {
      assert s.places[s.sent[v][i].slot].pos == i;
      assert cfg.WriterOf(s.sent[v][i].file) == v;
    }
  }

  lemma QueuedBuf(cfg: Config, s: Rank, w: nat)
    requires QueueInv(cfg, s) && w < cfg.writers && s.received[w] < |s.sent[w]| && Next(s, w).Write?
    ensures |Next(s, w).buf| == cfg.chunk
    ensures var cmd := Next(s, w);
            cmd.slot < |s.places| && s.places[cmd.slot].Queued?
            && cmd.n == s.places[cmd.slot].chunk.n && cmd.offset == s.places[cmd.slot].chunk.offset
            && cmd.file == s.places[cmd.slot].chunk.file
  {
    hide Config.WriterOf, QueueInv;
    NextFile(cfg, s, w);
  }

  lemma TurnFlight(cfg: Config, s: Rank, t: Rank, w: nat)
    requires FlightInv(cfg, s) && Turned(s, t, w)
    ensures FlightInv(cfg, t)
  {
    hide Count;
    forall i | 0 <= i < |t.inFlight|
      ensures EntryOk(cfg, t, t.inFlight[i])
    {
      assert EntryOk(cfg, s, s.inFlight[i]);
    }
    forall k: nat | k < |t.posts| && k !in t.completed
      ensures InFlightReq(t, k)
    {
      assert InFlightReq(s, k);
    }
  }

  lemma TurnFileCounts(cfg: Config, r: nat, s: Rank, t: Rank, w: nat, g: nat)
    requires Turned(s, t, w) && s.nextPlan <= |cfg.plan| && g in s.files && FileCounts(cfg, r, s, g)
    ensures FileCounts(cfg, r, t, g)
  {
    hide Config.NeedsWrite, Count;
    var cmd := Next(s, w);
    if cmd.Write? {
      CountUpdate(s.places, cmd.slot, t.places[cmd.slot], FlyingOf(g));
      CountUpdate(s.places, cmd.slot, t.places[cmd.slot], WritingOf(g));
    }
  }

  lemma TurnCount(cfg: Config, r: nat, s: Rank, t: Rank, w: nat)
    requires CountInv(cfg, r, s) && Turned(s, t, w)
    ensures CountInv(cfg, r, t)
  {
    hide Config.NeedsWrite, Count, FileCounts, Config.Planned;
    var cmd := Next(s, w);
    if cmd.Write? {
      CountUpdate(s.places, cmd.slot, t.places[cmd.slot], Writing());
    }
    forall g | g in t.files
      ensures FileCounts(cfg, r, t, g)
    {
      CountAt(cfg, r, s, g);
      TurnFileCounts(cfg, r, s, t, w, g);
    }
  }

  lemma TurnLife(cfg: Config, r: nat, s: Rank, t: Rank, w: nat)
    requires LifeInv(cfg, r, s) && Turned(s, t, w)
    ensures LifeInv(cfg, r, t)
  {
    hide Config.NeedsWrite, Config.WriterOf, LifeOf;
    forall g | g in t.files
      ensures FileLife(cfg, t, g)
    {
      assert FileLife(cfg, s, g);
    }
  }

  lemma TurnOpen(cfg: Config, r: nat, s: Rank, t: Rank, w: nat)
    requires QueueInv(cfg, s) && LifeInv(cfg, r, s) && OpenInv(cfg, s) && Turned(s, t, w)
    ensures OpenInv(cfg, t)
  {
    hide Config.WriterOf, LifeOf, QueueInv, LifeInv, Config.NeedsWrite;
    NextLife(cfg, r, s, w);
    var log := s.sent[w];
    var n := s.received[w];
    assert log[..n + 1] == log[..n] + [log[n]];
    forall v: nat, f: nat | v < cfg.writers
      ensures OpenOk(cfg, t, v, f)
    {
      OpenAt(cfg, s, v, f);
      if v == w {
        LifeAppend(log[..n], log[n], f);
      }
    }
  }

  // ---- bytes

  /** A chunk's write puts source bytes where the chunk is, and pads only past the end of the file. */
  lemma WriteBytes(cfg: Config, src: seq<Byte>, d: seq<Byte>, ch: Chunk, buf: seq<Byte>)
    requires ch.file < |cfg.size| && |src| == cfg.size[ch.file] <= |d|
    requires WellChunk(cfg, ch) && |buf| == cfg.chunk && HoldsPart(buf, src, ch.offset, 0, ch.n)
    ensures WriteLen(cfg, ch.n) <= |buf|
    ensures var d' := WriteAt(d, ch.offset, buf[..WriteLen(cfg, ch.n)]);
            && |d| <= |d'|
            && (|d'| != |d| ==> cfg.direct)
            && (forall p | 0 <= p < |src| :: d'[p] == d[p] || d'[p] == src[p])
            && RangeOk(d', src, ch.offset, ch.n)
  {
    PaddedLength(cfg, ch);
    hide WriteLen;
    var wl := WriteLen(cfg, ch.n);
    var d' := WriteAt(d, ch.offset, buf[..wl]);
    assert |d| <= |d'| && (|d'| > |d| ==> ch.offset + wl > |d|);
    forall p: nat | p < |d|
      ensures d'[p] == if ch.offset <= p < ch.offset + wl then buf[p - ch.offset] else d[p]
    {
    }
    hide WriteAt;
    forall p | ch.offset <= p < ch.offset + ch.n
      ensures buf[p - ch.offset] == src[p]
    {
      assert buf[p - ch.offset] == src[ch.offset + (p - ch.offset)];
    }
  }

  /** The padding goes past the chunk only with O_DIRECT, and then only at the end of the file. */
  lemma PaddedLength(cfg: Config, ch: Chunk)
    requires WellChunk(cfg, ch)
    ensures ch.n <= WriteLen(cfg, ch.n) <= cfg.chunk
    ensures WriteLen(cfg, ch.n) != ch.n ==> cfg.direct && ch.offset + ch.n == cfg.size[ch.file]
  {
    hide RoundUp;
    RoundUpIs(ch.n);
  }

  ghost predicate DiskStep(cfg: Config, src: seq<seq<Byte>>, s: Rank, t: Rank, f: nat) {
    && |s.disk| == |t.disk| == |cfg.size| == |src| && f < |cfg.size|
    && (forall g | 0 <= g < |s.disk| && g != f :: t.disk[g] == s.disk[g])
    && cfg.size[f] <= |t.disk[f]|
    && (forall p | 0 <= p < cfg.size[f] && p < |s.disk[f]| && p < |src[f]| :: t.disk[f][p] == s.disk[f][p] || t.disk[f][p] == src[f][p])
  }

  /** A file grows past its size only by an O_DIRECT tail, and a Close under O_DIRECT cuts it back. */
  predicate SizeStep(cfg: Config, s: Rank, t: Rank, cmd: Cmd)
    requires cmd.file < |cfg.size| == |s.disk| == |t.disk|
  {
    || |t.disk[cmd.file]| == cfg.size[cmd.file]
    || (cmd.Write? && cfg.direct)
    || (|t.disk[cmd.file]| == |s.disk[cmd.file]| && (cmd.CloseFile? ==> !cfg.direct))
  }

  lemma TurnDisk(cfg: Config, r: nat, src: seq<seq<Byte>>, s: Rank, w: nat)
    requires CoreInv(cfg, r, src, s) && CanWrite(cfg, s, w)
    ensures var t := WriterStep(cfg, s, w);
            var cmd := Next(s, w);
            && DiskStep(cfg, src, s, t, cmd.file)
            && (cmd.Write? ==> cmd.slot < |s.places| && s.places[cmd.slot].Queued?
                               && s.places[cmd.slot].chunk.file == cmd.file
                               && RangeOk(t.disk[cmd.file], src[cmd.file], s.places[cmd.slot].chunk.offset, s.places[cmd.slot].chunk.n))
            && SizeStep(cfg, s, t, cmd)
  {
    hide SlotInv, QueueInv, FlightInv, PosInv, CountInv, LifeInv, OpenInv, SizeInv, ContentInv, Config.WriterOf, LifeOf, Config.Valid, WriteAt, SetLen, WriteLen, WellChunk, RangeOk, HoldsPart;
    var cmd := Next(s, w);
    NextLife(cfg, r, s, w);
    NextFile(cfg, s, w);
    OpenAt(cfg, s, w, cmd.file);
    CountAt(cfg, r, s, cmd.file);
    DiskAt(cfg, r, src, s, cmd.file);
    if cmd.Write? {
      QueuedBuf(cfg, s, w);
      var pl := s.places[cmd.slot];
      QueuedChunk(cfg, r, src, s, cmd.slot);
      WriteBytes(cfg, src[cmd.file], s.disk[cmd.file], pl.chunk, cmd.buf);
    }
  }

  lemma DiskAt(cfg: Config, r: nat, src: seq<seq<Byte>>, s: Rank, f: nat)
    requires ContentInv(cfg, r, src, s) && f in s.files && f < |cfg.size|
    ensures |s.disk| == |cfg.size| == |src| && cfg.size[f] <= |s.disk[f]| && |src[f]| == cfg.size[f]
  {
    hide Base, HoldsPart, RangeOk, QueuedBytes, Carried;
  }

  lemma QueuedChunk(cfg: Config, r: nat, src: seq<seq<Byte>>, s: Rank, x: nat)
    requires CoreInv(cfg, r, src, s) && x < cfg.depth && s.places[x].Queued?
    ensures WellChunk(cfg, s.places[x].chunk)
    ensures 0 < cfg.writers == |s.sent| && QueuedBytes(cfg, src, s, x)
  {
    hide QueueInv, FlightInv, CountInv, LifeInv, OpenInv, SizeInv, Base, HoldsPart, RangeOk, Carried, Remaining, PlanChunks, AllPosts, Config.WriterOf;
    assert s.chunks[s.places[x].c] == s.places[x].chunk;
  }

  lemma RangeKept(cfg: Config, src: seq<seq<Byte>>, s: Rank, t: Rank, f: nat, ch: Chunk)
    requires DiskStep(cfg, src, s, t, f) && WellChunk(cfg, ch)
    requires RangeOk(s.disk[ch.file], src[ch.file], ch.offset, ch.n)
    ensures RangeOk(t.disk[ch.file], src[ch.file], ch.offset, ch.n)
  {
  }

  lemma TurnContent(cfg: Config, r: nat, src: seq<seq<Byte>>, s: Rank, t: Rank, w: nat)
    requires ContentInv(cfg, r, src, s) && Turned(s, t, w)
    requires var cmd := Next(s, w);
             && DiskStep(cfg, src, s, t, cmd.file)
             && (cmd.Write? ==> s.places[cmd.slot].c < |s.chunks| && s.chunks[s.places[cmd.slot].c].file == cmd.file
                                && var ch := s.chunks[s.places[cmd.slot].c];
                                   RangeOk(t.disk[cmd.file], src[cmd.file], ch.offset, ch.n))
    requires forall c | 0 <= c < |s.chunks| :: WellChunk(cfg, s.chunks[c])
    ensures ContentInv(cfg, r, src, t)
  {
    hide Config.WriterOf, Base, RangeOk, HoldsPart, WellChunk;
    var cmd := Next(s, w);
    forall c: nat | c < |t.chunks|
      ensures Carried(t, c) || (t.chunks[c].file < |src| && RangeOk(t.disk[t.chunks[c].file], src[t.chunks[c].file], t.chunks[c].offset, t.chunks[c].n))
    {
      if Carried(s, c) {
        var x :| 0 <= x < |s.places| && (s.places[x].Flying? || s.places[x].Queued?) && s.places[x].c == c;
        assert t.places[x] == s.places[x] || (cmd.Write? && x == cmd.slot);
      } else {
        RangeKept(cfg, src, s, t, cmd.file, s.chunks[c]);
      }
    }
    forall x | 0 <= x < cfg.depth && t.places[x].Queued?
      ensures QueuedBytes(cfg, src, t, x)
    {
      assert QueuedBytes(cfg, src, s, x);
    }
  }

  lemma TurnSize(cfg: Config, src: seq<seq<Byte>>, s: Rank, t: Rank, w: nat)
    requires SizeInv(cfg, s) && Turned(s, t, w)
    requires var cmd := Next(s, w);
             && cmd.file in s.files && cfg.WriterOf(cmd.file) == w && DiskStep(cfg, src, s, t, cmd.file)
             && (cmd.Write? ==> cmd.file in s.open[w])
             && SizeStep(cfg, s, t, cmd)
    ensures SizeInv(cfg, t)
  {
    hide Config.WriterOf;
  }

  lemma WriteKeeps(cfg: Config, r: nat, src: seq<seq<Byte>>, s: Rank, w: nat)
    requires Inv(cfg, r, src, s) && CanWrite(cfg, s, w)
    ensures Inv(cfg, r, src, WriterStep(cfg, s, w))
  {
    hide LifeOf, Config.Valid, SourceOk, SlotInv, QueueInv, FlightInv, PosInv, CountInv, LifeInv, OpenInv, ContentInv, SizeInv, WriterStep, DiskStep, RangeOk, WellChunk, Config.WriterOf;
    var t := WriterStep(cfg, s, w);
    TurnFields(cfg, r, src, s, w);
    TurnDisk(cfg, r, src, s, w);
    NextFile(cfg, s, w);
    var cmd := Next(s, w);
    assert |t.disk| == |s.disk| by { DiskLength(cfg, src, s, t, cmd.file); }
    TurnSlot(cfg, s, t, w);
    TurnQueue(cfg, s, t, w);
    TurnFlight(cfg, s, t, w);
    PosFrame(cfg, r, s, t);
    TurnCount(cfg, r, s, t, w);
    TurnLife(cfg, r, s, t, w);
    TurnOpen(cfg, r, s, t, w);
    ChunksWell(cfg, r, s);
    if cmd.Write? {
      SlotChunkAt(cfg, s, cmd.slot);
    }
    TurnContent(cfg, r, src, s, t, w);
    TurnSize(cfg, src, s, t, w);
  }

  lemma DiskLength(cfg: Config, src: seq<seq<Byte>>, s: Rank, t: Rank, f: nat)
    requires DiskStep(cfg, src, s, t, f)
    ensures |s.disk| == |t.disk| == |src|
  {
  }

  lemma ChunksWell(cfg: Config, r: nat, s: Rank)
    requires PosInv(cfg, r, s)
    ensures forall c | 0 <= c < |s.chunks| :: WellChunk(cfg, s.chunks[c])
  {
  }
}
