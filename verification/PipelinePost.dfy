/** Posting a chunk keeps the invariant. */
module PipelinePost {
  import opened Types
  import opened Counting
  import opened PipelineModel
  import opened PipelineInv
  import opened PipelinePosts
  import opened PipelineClose

  /** The owner's next bytes are inside its shard, hence on its disk from the start. */
  lemma ReadIsOk(cfg: Config, r: nat, src: seq<seq<Byte>>, s: Rank)
    requires CoreInv(cfg, r, src, s) && s.pc.Posting? && s.free != [] && s.active.Some?
    ensures ShapeOk(cfg, s) && CanPost(cfg, s) && ReadOk(cfg, s)
  {
    ShapeFromInv(cfg, r, src, s);
    hide ShapeOk, SlotInv, QueueInv, FlightInv, LifeInv, OpenInv, SizeInv, FileCounts, Base, Count, PlanChunks, ShardChunks, AllPosts, WellChunk, Config.NeedsWrite;
    PlanAt(cfg, r, s, s.nextPlan - 1);
  }

  /** PostBody, field by field. */
  predicate Posted(cfg: Config, s: Rank, t: Rank, slot: nat, ch: Chunk, data: seq<Byte>)
  {
    && s.active.Some? && s.free != [] && slot == s.free[0]
    && var c := s.active.value;
       var f := c.shard.fileIdx;
       && c.nextPost < c.shard.byteLen && ch == NextChunk(cfg, c)
       && f in s.files && slot < |s.bufs| && slot < |s.subs| && slot < |s.places|
       && |data| == cfg.chunk && ch.n <= cfg.chunk && f < |s.disk|
       && (c.isOwner ==> c.readerPos + ch.n <= |s.disk[f]| && data[..ch.n] == s.disk[f][c.readerPos..c.readerPos + ch.n])
       && var posts := SubPosts(ch, |s.chunks|, slot, 0);
          var last := c.nextPost + ch.n >= c.shard.byteLen;
          && t == s.(free := s.free[1..], bufs := s.bufs[slot := Some(data)],
                     inFlight := s.inFlight + Entries(posts, |s.posts|, slot, ch),
                     subs := s.subs[slot := s.subs[slot] + |posts|],
                     chunks := s.chunks + [ch], posts := s.posts + posts,
                     places := s.places[slot := Flying(|s.chunks|, ch)],
                     active := t.active, files := t.files)
          && t.active == (if last then None
                          else Some(Cursor(c.shard, c.nextPost + ch.n, c.isOwner,
                                           if c.isOwner then c.readerPos + ch.n else c.readerPos)))
          && t.files == s.files[f := s.files[f].(
               chunksInFlight := s.files[f].chunksInFlight + 1,
               shardsPosted := s.files[f].shardsPosted + if last then 1 else 0)]
  }

  lemma PostFields(cfg: Config, s: Rank) returns (slot: nat, ch: Chunk, data: seq<Byte>)
    requires cfg.Valid() && ShapeOk(cfg, s) && CanPost(cfg, s) && ReadOk(cfg, s)
    ensures Posted(cfg, s, PostBody(cfg, s), slot, ch, data)
  {
    var c := s.active.value;
    var f := c.shard.fileIdx;
    slot := s.free[0];
    ch := NextChunk(cfg, c);
    var buf := s.bufs[slot].value;
    data := if c.isOwner then s.disk[f][c.readerPos..c.readerPos + ch.n] + buf[ch.n..] else buf;
    hide SubPosts, Entries;
  }

  lemma PostSlot(cfg: Config, s: Rank, t: Rank, slot: nat, ch: Chunk, data: seq<Byte>)
    requires SlotInv(cfg, s) && Posted(cfg, s, t, slot, ch, data) && 0 < ch.n
    ensures SlotInv(cfg, t)
    ensures s.places[slot].Free? && slot < cfg.depth
  {
    SubPostsOk(ch, |s.chunks|, slot, 0);
    hide SubPosts, Entries;
    forall x: nat | x < cfg.depth && t.places[x].Free?
      ensures x in t.free
    {
      assert x in s.free;
    }
  }

  lemma PostQueue(cfg: Config, s: Rank, t: Rank, slot: nat, ch: Chunk, data: seq<Byte>)
    requires QueueInv(cfg, s) && Posted(cfg, s, t, slot, ch, data)
    requires slot < cfg.depth && s.places[slot].Free?
    ensures QueueInv(cfg, t)
  {
    hide SubPosts, Entries, Config.WriterOf;
    forall x | 0 <= x < cfg.depth && t.places[x].Queued?
      ensures QueuedAt(cfg, t, x)
    {
      assert QueuedAt(cfg, s, x);
    }
    forall x | 0 <= x < cfg.depth && t.places[x].Acked?
      ensures exists i :: 0 <= i < |t.acks| && t.acks[i].slot == x
    {
      assert s.places[x].Acked?;
    }
  }

  lemma {:induction false} CountEntries(posts: seq<Post>, from: nat, slot: nat, ch: Chunk, x: nat)
    ensures Count(Entries(posts, from, slot, ch), OnSlot(x)) == if x == slot then |posts| else 0
  {
    var q := Entries(posts, from, slot, ch);
    if x == slot {
      CountBound(q, OnSlot(x));
    } else {
      CountZero(q, OnSlot(x));
    }
  }

  lemma PostSubs(cfg: Config, s: Rank, t: Rank, slot: nat, ch: Chunk, data: seq<Byte>, x: nat)
    requires Posted(cfg, s, t, slot, ch, data) && x < |s.subs| && s.subs[x] == Count(s.inFlight, OnSlot(x))
    ensures t.subs[x] == Count(t.inFlight, OnSlot(x))
  {
    hide SubPosts, Entries, Count;
    var posts := SubPosts(ch, |s.chunks|, slot, 0);
    CountAppend(s.inFlight, Entries(posts, |s.posts|, slot, ch), OnSlot(x));
    CountEntries(posts, |s.posts|, slot, ch, x);
  }

  lemma EntriesRequests(posts: seq<Post>, from: nat, slot: nat, ch: Chunk)
    ensures |Entries(posts, from, slot, ch)| == |posts|
    ensures forall i | 0 <= i < |posts| :: Entries(posts, from, slot, ch)[i].request == from + i
  {
  }

  lemma PostEntry(cfg: Config, s: Rank, t: Rank, slot: nat, ch: Chunk, data: seq<Byte>, i: nat)
    requires Posted(cfg, s, t, slot, ch, data) && |s.places| == cfg.depth && slot < cfg.depth && i < |t.inFlight|
    requires s.places[slot].Free?
    requires i < |s.inFlight| ==> EntryOk(cfg, s, s.inFlight[i])
    ensures EntryOk(cfg, t, t.inFlight[i])
  {
    var posts := SubPosts(ch, |s.chunks|, slot, 0);
    SubPostsOk(ch, |s.chunks|, slot, 0);
    hide SubPosts;
    if i >= |s.inFlight| {
      assert t.inFlight[i] == Entries(posts, |s.posts|, slot, ch)[i - |s.inFlight|];
    }
  }

  lemma PostRequest(cfg: Config, s: Rank, t: Rank, slot: nat, ch: Chunk, data: seq<Byte>, k: nat)
    requires FlightInv(cfg, s) && Posted(cfg, s, t, slot, ch, data) && k < |t.posts| && k !in t.completed
    ensures InFlightReq(t, k)
  {
    hide SubPosts, Count, EntryOk;
    if k < |s.posts| {
      assert InFlightReq(s, k);
      var i :| 0 <= i < |s.inFlight| && s.inFlight[i].request == k;
      assert t.inFlight[i].request == k;
    } else {
      assert t.inFlight[|s.inFlight| + k - |s.posts|].request == k;
    }
  }

  lemma OldRequests(cfg: Config, s: Rank)
    requires FlightInv(cfg, s)
    ensures forall i | 0 <= i < |s.inFlight| :: s.inFlight[i].request < |s.posts|
  {
    hide Count;
  }

  lemma PostFlight(cfg: Config, s: Rank, t: Rank, slot: nat, ch: Chunk, data: seq<Byte>)
    requires FlightInv(cfg, s) && Posted(cfg, s, t, slot, ch, data)
    requires slot < cfg.depth && s.places[slot].Free?
    requires forall k | 0 <= k < |s.posts| :: s.posts[k].chunk < |s.chunks|
    requires forall x | 0 <= x < cfg.depth && s.places[x].Flying? :: s.places[x].c < |s.chunks|
    ensures FlightInv(cfg, t)
  {
    var posts := SubPosts(ch, |s.chunks|, slot, 0);
    SubPostsOk(ch, |s.chunks|, slot, 0);
    hide SubPosts, Count, Entries, InFlightReq;
    OldRequests(cfg, s);
    hide EntryOk;
    forall i | 0 <= i < |t.inFlight|
      ensures EntryOk(cfg, t, t.inFlight[i])
    {
      PostEntry(cfg, s, t, slot, ch, data, i);
    }
    EntriesRequests(posts, |s.posts|, slot, ch);
    forall x: nat | x < cfg.depth
      ensures t.subs[x] == Count(t.inFlight, OnSlot(x))
    {
      PostSubs(cfg, s, t, slot, ch, data, x);
    }
    forall k: nat | k < |t.posts| && k !in t.completed
      ensures InFlightReq(t, k)
    {
      PostRequest(cfg, s, t, slot, ch, data, k);
    }
  }

  lemma PostRemaining(cfg: Config, r: nat, s: Rank, t: Rank, slot: nat, ch: Chunk, data: seq<Byte>)
    requires PosInv(cfg, r, s) && Posted(cfg, s, t, slot, ch, data)
    ensures Remaining(cfg, s) == [ch] + Remaining(cfg, t)
  {
    hide SubPosts, Entries, AllPosts, PlanChunks, ShardChunks, WellChunk;
    var c := s.active.value;
    NextOfShard(c.shard, cfg.chunk, c.nextPost);
    var after := ShardChunks(c.shard, cfg.chunk, c.nextPost + ch.n);
    assert ([ch] + after) + PlanChunks(cfg.plan[s.nextPlan..], cfg.chunk) == [ch] + (after + PlanChunks(cfg.plan[s.nextPlan..], cfg.chunk));
  }

  lemma NextOfShard(s: ShardSpec, chunk: nat, from: nat)
    requires chunk > 0 && from < s.byteLen
    ensures var n := Min(chunk, s.byteLen - from);
            && ShardChunks(s, chunk, from) == [Chunk(s.fileIdx, s.ownerRank, s.byteOffset + from, n)] + ShardChunks(s, chunk, from + n)
            && (from + n >= s.byteLen ==> ShardChunks(s, chunk, from + n) == [])
  {
  }

  /** The next chunk lies in its shard, and is short only at the end of the shard. */
  lemma PostWell(cfg: Config, r: nat, s: Rank)
    requires cfg.Valid() && PosInv(cfg, r, s) && s.active.Some?
    ensures WellChunk(cfg, NextChunk(cfg, s.active.value))
    ensures var c := s.active.value;
            var n := NextChunk(cfg, c).n;
            cfg.direct && c.nextPost + n < c.shard.byteLen ==> (c.nextPost + n) % ALIGN == 0
  {
    hide AllPosts, Remaining, PlanChunks, ShardChunks;
    var ch := NextChunk(cfg, s.active.value);
    assert InShard(cfg.plan[s.nextPlan - 1], ch);
    assert cfg.ValidShard(cfg.plan[s.nextPlan - 1]);
  }

  lemma PostOrder(cfg: Config, r: nat, s: Rank, t: Rank, slot: nat, ch: Chunk, data: seq<Byte>)
    requires PosInv(cfg, r, s) && Posted(cfg, s, t, slot, ch, data)
    ensures |t.posts| == |AllPosts(t.chunks)|
    ensures forall k | 0 <= k < |t.posts| :: NoSlot(t.posts[k]) == AllPosts(t.chunks)[k]
  {
    hide SubPosts, AllPosts, Remaining, PlanChunks, ShardChunks, Entries, WellChunk;
    var posts := SubPosts(ch, |s.chunks|, slot, 0);
    AllPostsAppend(s.chunks, ch);
    SubPostsSlot(ch, |s.chunks|, slot, 0);
    forall k | 0 <= k < |t.posts|
      ensures NoSlot(t.posts[k]) == AllPosts(t.chunks)[k]
    {
      if k >= |s.posts| {
        assert t.posts[k] == posts[k - |s.posts|];
      }
    }
  }

  lemma PostPos(cfg: Config, r: nat, s: Rank, t: Rank, slot: nat, ch: Chunk, data: seq<Byte>)
    requires cfg.Valid() && PosInv(cfg, r, s) && Posted(cfg, s, t, slot, ch, data)
    ensures PosInv(cfg, r, t)
    ensures WellChunk(cfg, ch)
  {
    hide AllPosts, SubPosts, Entries, Remaining, PlanChunks, ShardChunks, WellChunk, Config.Valid, NoSlot;
    PostRemaining(cfg, r, s, t, slot, ch, data);
    PostWell(cfg, r, s);
    PostOrder(cfg, r, s, t, slot, ch, data);
    assert t.chunks + Remaining(cfg, t) == s.chunks + Remaining(cfg, s);
  }

  lemma PostCount(cfg: Config, r: nat, s: Rank, t: Rank, slot: nat, ch: Chunk, data: seq<Byte>)
    requires CountInv(cfg, r, s) && Posted(cfg, s, t, slot, ch, data)
    requires slot < cfg.depth && s.places[slot].Free?
    ensures CountInv(cfg, r, t)
  {
    hide SubPosts, Entries, Config.NeedsWrite, Count, FileCounts, Config.Planned;
    CountUpdate(s.places, slot, Flying(|s.chunks|, ch), Writing());
    forall g | g in t.files
      ensures FileCounts(cfg, r, t, g)
    {
      CountAt(cfg, r, s, g);
      PostFileCounts(cfg, r, s, t, slot, ch, data, g);
    }
  }

  lemma PostFileCounts(cfg: Config, r: nat, s: Rank, t: Rank, slot: nat, ch: Chunk, data: seq<Byte>, g: nat)
    requires Posted(cfg, s, t, slot, ch, data) && s.places[slot].Free?
    requires s.nextPlan <= |cfg.plan| && g in s.files && FileCounts(cfg, r, s, g)
    ensures FileCounts(cfg, r, t, g)
  {
    var p := Flying(|s.chunks|, ch);
    CountUpdate(s.places, slot, p, FlyingOf(g));
    CountUpdate(s.places, slot, p, WritingOf(g));
    hide SubPosts, Entries, Config.NeedsWrite, Count;
  }

  lemma PostLife(cfg: Config, r: nat, s: Rank, t: Rank, slot: nat, ch: Chunk, data: seq<Byte>)
    requires LifeInv(cfg, r, s) && Posted(cfg, s, t, slot, ch, data)
    requires slot < cfg.depth
    ensures LifeInv(cfg, r, t)
  {
    hide SubPosts, Entries, Config.NeedsWrite, Config.WriterOf, LifeOf;
    assert NotLate(s, ch.file);
    forall g | g in t.files
      ensures FileLife(cfg, t, g)
    {
      assert FileLife(cfg, s, g);
    }
  }

  /** A buffer the owner has just filled carries the source's bytes. */
  lemma OwnerData(cfg: Config, r: nat, src: seq<seq<Byte>>, s: Rank, t: Rank, slot: nat, ch: Chunk, data: seq<Byte>)
    requires cfg.Valid() && ContentInv(cfg, r, src, s) && PosInv(cfg, r, s)
    requires Posted(cfg, s, t, slot, ch, data) && ch.root == r
    ensures ch.file < |src| && HoldsPart(data, src[ch.file], ch.offset, 0, ch.n)
  {
    var c := s.active.value;
    var sp := cfg.plan[s.nextPlan - 1];
    hide SubPosts, Entries, PlanChunks, ShardChunks, AllPosts, Remaining, WellChunk, RangeOk, QueuedBytes, Carried;
    assert cfg.ValidShard(sp);
    forall b | 0 <= b < ch.n
      ensures data[b] == src[ch.file][ch.offset + b]
    {
      assert sp.Covers(ch.file, ch.offset + b);
      assert Base(cfg, r, ch.file, ch.offset + b);
      assert data[b] == data[..ch.n][b] == s.disk[ch.file][c.readerPos..c.readerPos + ch.n][b];
    }
  }

  lemma PostContent(cfg: Config, r: nat, src: seq<seq<Byte>>, s: Rank, t: Rank, slot: nat, ch: Chunk, data: seq<Byte>)
    requires ContentInv(cfg, r, src, s) && Posted(cfg, s, t, slot, ch, data)
    requires slot < cfg.depth && s.places[slot].Free?
    requires ch.root == r ==> ch.file < |src| && HoldsPart(data, src[ch.file], ch.offset, 0, ch.n)
    requires forall k | 0 <= k < |s.posts| :: s.posts[k].chunk < |s.chunks|
    requires forall k | k in s.completed :: k < |s.posts|
    ensures ContentInv(cfg, r, src, t)
  {
    hide SubPosts, Entries, Config.WriterOf, Base, RangeOk, HoldsPart;
    forall c: nat | c < |t.chunks| && (c == |s.chunks| || Carried(s, c))
      ensures Carried(t, c)
    {
      if c == |s.chunks| {
        assert t.places[slot].c == c;
      } else {
        var x :| 0 <= x < |s.places| && (s.places[x].Flying? || s.places[x].Queued?) && s.places[x].c == c;
        assert t.places[x] == s.places[x];
      }
    }
    forall x | 0 <= x < cfg.depth && t.places[x].Queued?
      ensures QueuedBytes(cfg, src, t, x)
    {
      assert QueuedBytes(cfg, src, s, x);
    }
  }

  lemma ChunkNumbers(cfg: Config, r: nat, s: Rank)
    requires PosInv(cfg, r, s)
    ensures forall k | 0 <= k < |s.posts| :: s.posts[k].chunk < |s.chunks|
  {
    forall k | 0 <= k < |s.posts|
      ensures s.posts[k].chunk < |s.chunks|
    {
      AllPostsOk(s.chunks, k);
      assert NoSlot(s.posts[k]).chunk == s.posts[k].chunk;
    }
  }

  lemma CompletedPosted(cfg: Config, s: Rank)
    requires FlightInv(cfg, s)
    ensures forall k | k in s.completed :: k < |s.posts|
  {
  }

  lemma FlyingNumbers(cfg: Config, s: Rank)
    requires SlotInv(cfg, s)
    ensures |s.places| == cfg.depth
    ensures forall x | 0 <= x < cfg.depth && s.places[x].Flying? :: s.places[x].c < |s.chunks|
  {
  }

  lemma PostKeeps(cfg: Config, r: nat, src: seq<seq<Byte>>, s: Rank)
    requires Inv(cfg, r, src, s) && ShapeOk(cfg, s) && CanPost(cfg, s) && ReadOk(cfg, s)
    ensures Inv(cfg, r, src, PostChunk(cfg, s))
  {
    hide PostBody, ShapeOk, MaybeClose, LifeOf, Config.Valid, SourceOk, SlotInv, QueueInv, FlightInv, PosInv, CountInv, LifeInv, OpenInv, ContentInv, SizeInv, SubPosts, Entries;
    var slot, ch, data := PostFields(cfg, s);
    var t := PostBody(cfg, s);
    PostPos(cfg, r, s, t, slot, ch, data);
    ChunkNumbers(cfg, r, s);
    FlyingNumbers(cfg, s);
    CompletedPosted(cfg, s);
    PostSlot(cfg, s, t, slot, ch, data);
    PostQueue(cfg, s, t, slot, ch, data);
    PostFlight(cfg, s, t, slot, ch, data);
    PostCount(cfg, r, s, t, slot, ch, data);
    PostLife(cfg, r, s, t, slot, ch, data);
    OpenSame(cfg, s, t);
    SizeFrame(cfg, s, t);
    if ch.root == r {
      OwnerData(cfg, r, src, s, t, slot, ch, data);
    }
    PostContent(cfg, r, src, s, t, slot, ch, data);
    assert CoreInv(cfg, r, src, t);
    if t.active.None? {
      CloseKeeps(cfg, r, src, t, ch.file);
    } else {
      CountAt(cfg, r, t, ch.file);
      assert s.files[ch.file].chunksInFlight >= 0 by { CountAt(cfg, r, s, ch.file); }
    }
  }
}
