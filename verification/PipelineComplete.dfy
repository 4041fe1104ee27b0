/** The completion of a broadcast, and the start of the stage. */
module PipelineComplete {
  import opened Types
  import opened Counting
  import opened PipelineModel
  import opened PipelineInv
  import opened PipelinePosts
  import opened PipelineClose

  /** A payload is right when it is the source's bytes for that broadcast. */
  ghost predicate PayloadOk(src: seq<seq<Byte>>, ch: Chunk, off: nat, payload: seq<Byte>) {
    && ch.file < |src| && ch.offset + off + |payload| <= |src[ch.file]|
    && forall b | 0 <= b < |payload| :: payload[b] == src[ch.file][ch.offset + off + b]
  }

  /** A request that has not completed still has its slot, and the slot its buffer. */
  lemma RequestSlot(cfg: Config, s: Rank, k: nat)
    requires SlotInv(cfg, s) && FlightInv(cfg, s) && k < |s.posts| && k !in s.completed
    ensures s.posts[k].slot < cfg.depth && s.places[s.posts[k].slot].Flying?
    ensures s.places[s.posts[k].slot].c == s.posts[k].chunk
    ensures s.bufs[s.posts[k].slot].Some? && |s.bufs[s.posts[k].slot].value| == cfg.chunk
  {
    hide Count;
    assert InFlightReq(s, k);
    var i :| 0 <= i < |s.inFlight| && s.inFlight[i].request == k;
    assert EntryOk(cfg, s, s.inFlight[i]);
  }

  /** A posted broadcast is a part of its chunk. */
  lemma PostAt(cfg: Config, r: nat, s: Rank, k: nat)
    requires PosInv(cfg, r, s) && k < |s.posts|
    ensures s.posts[k].chunk < |s.chunks| && WellChunk(cfg, s.chunks[s.posts[k].chunk])
    ensures SubOk(s.posts[k].(slot := 0), s.chunks[s.posts[k].chunk], s.posts[k].chunk, 0)
  {
    hide Remaining, PlanChunks;
    AllPostsOk(s.chunks, k);
    assert NoSlot(s.posts[k]) == AllPosts(s.chunks)[k];
  }

  lemma CompleteIsOk(cfg: Config, r: nat, src: seq<seq<Byte>>, s: Rank, k: nat, payload: seq<Byte>)
    requires CoreInv(cfg, r, src, s) && k < |s.posts| && k !in s.completed && |payload| == s.posts[k].len
    ensures CanComplete(s, k, payload)
  {
    hide SlotInv, QueueInv, FlightInv, PosInv, CountInv, LifeInv, OpenInv, ContentInv, SizeInv;
    RequestSlot(cfg, s, k);
    PostAt(cfg, r, s, k);
  }

  predicate Arrived(r: nat, s: Rank, t: Rank, k: nat, payload: seq<Byte>) {
    && CanComplete(s, k, payload)
    && t == s.(completed := s.completed + {k}, bufs := t.bufs)
    && t.bufs == (if s.posts[k].root == r then s.bufs
                  else var p := s.posts[k];
                       var buf := s.bufs[p.slot].value;
                       s.bufs[p.slot := Some(buf[..p.off] + payload + buf[p.off + p.len..])])
  }

  lemma ArrivedSlot(cfg: Config, r: nat, s: Rank, t: Rank, k: nat, payload: seq<Byte>)
    requires SlotInv(cfg, s) && Arrived(r, s, t, k, payload)
    ensures SlotInv(cfg, t)
  {
  }

  lemma ArrivedFlight(cfg: Config, r: nat, s: Rank, t: Rank, k: nat, payload: seq<Byte>)
    requires FlightInv(cfg, s) && Arrived(r, s, t, k, payload)
    ensures FlightInv(cfg, t)
  {
    hide Count;
    forall i | 0 <= i < |t.inFlight|
      ensures EntryOk(cfg, t, t.inFlight[i])
    {
      assert EntryOk(cfg, s, s.inFlight[i]);
    }
    forall l: nat | l < |t.posts| && l !in t.completed
      ensures InFlightReq(t, l)
    {
      assert InFlightReq(s, l);
    }
  }

  /** Laying right bytes over a buffer keeps every right part of it right, and adds one. */
  lemma Overlay(buf: seq<Byte>, payload: seq<Byte>, src: seq<Byte>, offset: nat, off: nat)
    requires off + |payload| <= |buf| && offset + off + |payload| <= |src|
    requires forall b | 0 <= b < |payload| :: payload[b] == src[offset + off + b]
    ensures var new' := buf[..off] + payload + buf[off + |payload|..];
            && HoldsPart(new', src, offset, off, |payload|)
            && forall o: nat, n: nat | HoldsPart(buf, src, offset, o, n) :: HoldsPart(new', src, offset, o, n)
  {
    var new' := buf[..off] + payload + buf[off + |payload|..];
    forall b | off <= b < off + |payload|
      ensures new'[b] == src[offset + b]
    {
      assert new'[b] == payload[b - off];
    }
  }

  lemma ArrivedContent(cfg: Config, r: nat, src: seq<seq<Byte>>, s: Rank, t: Rank, k: nat, payload: seq<Byte>)
    requires ContentInv(cfg, r, src, s) && Arrived(r, s, t, k, payload)
    requires s.posts[k].slot < cfg.depth && s.places[s.posts[k].slot].Flying?
    requires s.places[s.posts[k].slot].c == s.posts[k].chunk && s.places[s.posts[k].slot].chunk.root == s.posts[k].root
    requires PayloadOk(src, s.places[s.posts[k].slot].chunk, s.posts[k].off, payload)
    requires s.posts[k].off + s.posts[k].len <= s.places[s.posts[k].slot].chunk.n
    requires forall x | 0 <= x < cfg.depth && s.places[x].Flying? && s.places[x].c == s.posts[k].chunk :: x == s.posts[k].slot
    ensures ContentInv(cfg, r, src, t)
  {
    hide Config.WriterOf, Base, RangeOk, HoldsPart, QueuedBytes, Carried;
    var p := s.posts[k];
    var ch := s.places[p.slot].chunk;
    var buf := s.bufs[p.slot].value;
    if p.root != r {
      Overlay(buf, payload, src[ch.file], ch.offset, p.off);
    } else {
      PartOfWhole(buf, src[ch.file], ch.offset, ch.n, p.off, p.len);
    }
    forall c: nat | c < |t.chunks| && Carried(s, c)
      ensures Carried(t, c)
    {
      SameCarried(s, t, c);
    }
    forall x | 0 <= x < cfg.depth && t.places[x].Queued?
      ensures QueuedBytes(cfg, src, t, x)
    {
      assert QueuedBytes(cfg, src, s, x);
      SameQueued(cfg, src, s, t, x);
    }
  }

  lemma SameCarried(s: Rank, t: Rank, c: nat)
    requires s.places == t.places && Carried(s, c)
    ensures Carried(t, c)
  {
  }

  lemma SameQueued(cfg: Config, src: seq<seq<Byte>>, s: Rank, t: Rank, x: nat)
    requires 0 < cfg.writers == |s.sent| && x < |s.places| && s.places[x].Queued? && QueuedBytes(cfg, src, s, x)
    requires t.places == s.places && t.sent == s.sent
    ensures QueuedBytes(cfg, src, t, x)
  {
    hide HoldsPart, Config.WriterOf;
  }

  lemma PartOfWhole(buf: seq<Byte>, src: seq<Byte>, offset: nat, n: nat, off: nat, len: nat)
    requires HoldsPart(buf, src, offset, 0, n) && off + len <= n
    ensures HoldsPart(buf, src, offset, off, len)
  {
  }

  lemma OneSlot(cfg: Config, s: Rank, k: nat)
    requires FlightInv(cfg, s) && k < |s.posts|
    ensures |s.places| == cfg.depth
    ensures forall x | 0 <= x < cfg.depth && s.places[x].Flying? && s.places[x].c == s.posts[k].chunk :: x == s.posts[k].slot
  {
    hide Count, EntryOk;
  }

  lemma CompleteKeeps(cfg: Config, r: nat, src: seq<seq<Byte>>, s: Rank, k: nat, payload: seq<Byte>)
    requires Inv(cfg, r, src, s) && CanComplete(s, k, payload)
    requires s.posts[k].chunk < |s.chunks| && PayloadOk(src, s.chunks[s.posts[k].chunk], s.posts[k].off, payload)
    ensures Inv(cfg, r, src, Complete(r, s, k, payload))
  {
    hide LifeOf, Config.Valid, SourceOk, SlotInv, QueueInv, FlightInv, PosInv, CountInv, LifeInv, OpenInv, ContentInv, SizeInv, PayloadOk, WellChunk;
    var t := Complete(r, s, k, payload);
    assert Arrived(r, s, t, k, payload);
    RequestSlot(cfg, s, k);
    PostAt(cfg, r, s, k);
    SlotChunkAt(cfg, s, s.posts[k].slot);
    OneSlot(cfg, s, k);
    ArrivedSlot(cfg, r, s, t, k, payload);
    QueueFrame(cfg, s, t);
    ArrivedFlight(cfg, r, s, t, k, payload);
    PosFrame(cfg, r, s, t);
    CountFrame(cfg, r, s, t);
    LifeFrame(cfg, r, s, t);
    OpenSame(cfg, s, t);
    ArrivedContent(cfg, r, src, s, t, k, payload);
    SizeFrame(cfg, s, t);
  }

  // ---- the start

  /** The local disk as the plan's preparation leaves it. */
  ghost predicate DiskReady(cfg: Config, r: nat, src: seq<seq<Byte>>, disk: seq<seq<Byte>>) {
    && SourceOk(cfg, src) && |disk| == |cfg.size|
    && forall f: nat | f < |cfg.size| && cfg.Planned(f) ::
         && |disk[f]| == cfg.size[f]
         && forall p: nat | p < cfg.size[f] && Base(cfg, r, f, p) :: disk[f][p] == src[f][p]
  }

  function InitFile(cfg: Config, r: nat, f: nat): FileState {
    FileState(cfg.NeedsWrite(r, f), false, false, Count(cfg.plan, OfFile(f)), 0, 0, 0)
  }

  function InitRank(cfg: Config, r: nat, disk: seq<seq<Byte>>): Rank
    requires cfg.Valid()
  {
    Rank(Posting, 0, None, seq(cfg.depth, i requires 0 <= i => i), seq(cfg.depth, _ => Some(seq(cfg.chunk, _ => 0))), [],
         seq(cfg.depth, _ => 0),
         map i | 0 <= i < |cfg.plan| :: cfg.plan[i].fileIdx := InitFile(cfg, r, cfg.plan[i].fileIdx),
         0, seq(cfg.writers, _ => []), seq(cfg.writers, _ => 0), seq(cfg.writers, _ => map[]), [], {}, disk,
         [], [], seq(cfg.depth, _ => Free))
  }

  lemma NoneCounted(n: nat, p: Place -> bool)
    requires !p(Free)
    ensures Count(seq(n, _ => Free), p) == 0
  {
    CountZero(seq(n, _ => Free), p);
  }

  lemma InitCount(cfg: Config, r: nat, disk: seq<seq<Byte>>)
    requires cfg.Valid()
    ensures CountInv(cfg, r, InitRank(cfg, r, disk))
  {
    hide Config.NeedsWrite, Count, Config.Valid, FileCounts;
    var s := InitRank(cfg, r, disk);
    NoneCounted(cfg.depth, Writing());
    forall f | f in s.files
      ensures f < |cfg.size| && cfg.Planned(f) && FileCounts(cfg, r, s, f)
    {
      var i :| 0 <= i < |cfg.plan| && cfg.plan[i].fileIdx == f;
      ShardAt(cfg, i);
      InitFileCounts(cfg, r, disk, f);
    }
  }

  lemma InitFileCounts(cfg: Config, r: nat, disk: seq<seq<Byte>>, f: nat)
    requires cfg.Valid() && f in InitRank(cfg, r, disk).files
    ensures FileCounts(cfg, r, InitRank(cfg, r, disk), f)
  {
    hide Config.NeedsWrite, Count, Config.Valid;
    NoneCounted(cfg.depth, FlyingOf(f));
    NoneCounted(cfg.depth, WritingOf(f));
    CountZero(cfg.plan[..0], OfFile(f));
  }

  lemma ShardAt(cfg: Config, i: nat)
    requires cfg.Valid() && i < |cfg.plan|
    ensures cfg.ValidShard(cfg.plan[i])
  {
  }

  lemma InitFlight(cfg: Config, r: nat, disk: seq<seq<Byte>>)
    requires cfg.Valid()
    ensures FlightInv(cfg, InitRank(cfg, r, disk))
  {
    hide Config.NeedsWrite;
  }

  lemma InitSlot(cfg: Config, r: nat, disk: seq<seq<Byte>>)
    requires cfg.Valid()
    ensures SlotInv(cfg, InitRank(cfg, r, disk))
  {
    hide Config.NeedsWrite, Config.Valid, InitFile;
    var s := InitRank(cfg, r, disk);
    forall x: nat | x < cfg.depth
      ensures x in s.free
    {
      assert s.free[x] == x;
    }
  }

  lemma InitLife(cfg: Config, r: nat, disk: seq<seq<Byte>>)
    requires cfg.Valid()
    ensures LifeInv(cfg, r, InitRank(cfg, r, disk)) && OpenInv(cfg, InitRank(cfg, r, disk)) && QueueInv(cfg, InitRank(cfg, r, disk))
  {
    hide Count, Config.NeedsWrite, Config.WriterOf, Config.Valid;
    Positive(cfg);
  }

  lemma InitPos(cfg: Config, r: nat, disk: seq<seq<Byte>>)
    requires cfg.Valid()
    ensures PosInv(cfg, r, InitRank(cfg, r, disk))
  {
    hide Config.NeedsWrite, Config.Valid, InitFile, PlanChunks;
    Positive(cfg);
    assert cfg.plan[0..] == cfg.plan;
  }

  lemma InitHolds(cfg: Config, r: nat, src: seq<seq<Byte>>, disk: seq<seq<Byte>>)
    requires cfg.Valid() && r < cfg.world && DiskReady(cfg, r, src, disk)
    ensures Inv(cfg, r, src, InitRank(cfg, r, disk))
  {
    hide LifeOf, Config.Valid, SourceOk, SlotInv, QueueInv, FlightInv, PosInv, CountInv, LifeInv, OpenInv, ContentInv, SizeInv, Config.NeedsWrite, Count;
    InitCount(cfg, r, disk);
    InitFlight(cfg, r, disk);
    InitSlot(cfg, r, disk);
    InitPos(cfg, r, disk);
    InitLife(cfg, r, disk);
    InitContent(cfg, r, src, disk);
    assert 0 < cfg.writers && 0 < cfg.chunk by { Positive(cfg); }
  }

  lemma Positive(cfg: Config)
    requires cfg.Valid()
    ensures 0 < cfg.world && 0 < cfg.chunk && 0 < cfg.depth && 0 < cfg.writers
  {
  }

  lemma InitContent(cfg: Config, r: nat, src: seq<seq<Byte>>, disk: seq<seq<Byte>>)
    requires cfg.Valid() && r < cfg.world && DiskReady(cfg, r, src, disk)
    ensures ContentInv(cfg, r, src, InitRank(cfg, r, disk)) && SizeInv(cfg, InitRank(cfg, r, disk))
  {
    hide Count, Config.NeedsWrite, Base, Config.WriterOf, Config.Valid, HoldsPart;
    Positive(cfg);
    var s := InitRank(cfg, r, disk);
    forall f | f in s.files && f < |cfg.size|
      ensures |s.disk[f]| == cfg.size[f]
      ensures forall p: nat | p < cfg.size[f] && Base(cfg, r, f, p) :: s.disk[f][p] == src[f][p]
    {
      assert cfg.Planned(f);
    }
  }
}
