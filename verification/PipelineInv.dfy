/** What holds of one rank between any two steps of the broadcast stage. */
module PipelineInv {
  import opened Types
  import opened Counting
  import opened PipelineModel

  // ---- counting predicates, named so that equal counts are equal terms

  function FlyingOf(f: nat): Place -> bool { (p: Place) => p.Flying? && p.chunk.file == f }

  function WritingOf(f: nat): Place -> bool { (p: Place) => p.AtWriter() && p.chunk.file == f }

  function Writing(): Place -> bool { (p: Place) => p.AtWriter() }

  function OnSlot(x: nat): InFlight -> bool { (e: InFlight) => e.slot == x }

  // ---- the life of a file as its writer sees it

  datatype Life = Never | Opened | Closed | Broken

  function LifeStep(l: Life, cmd: Cmd, f: nat): Life {
    if cmd.file != f then l
    else match cmd
      case OpenFile(_, _) => if l.Never? then Opened else Broken
      case Write(_, _, _, _, _) => if l.Opened? then Opened else Broken
      case CloseFile(_) => if l.Opened? then Closed else Broken
  }

  function LifeOf(log: seq<Cmd>, f: nat): Life {
    if log == [] then Never else LifeStep(LifeOf(log[..|log| - 1], f), log[|log| - 1], f)
  }

  // ---- the invariant, in groups

  /** Slot conservation: every slot is free, in flight or at a writer, and its buffer is gone exactly while at a writer. */
  ghost predicate SlotInv(cfg: Config, s: Rank) {
    && |s.bufs| == cfg.depth && |s.subs| == cfg.depth && |s.places| == cfg.depth
    && (forall i | 0 <= i < |s.free| :: s.free[i] < cfg.depth && s.places[s.free[i]].Free?)
    && (forall i, j | 0 <= i < j < |s.free| :: s.free[i] != s.free[j])
    && (forall x: nat | x < cfg.depth && s.places[x].Free? :: x in s.free)
    && (forall x | 0 <= x < cfg.depth :: s.bufs[x].None? <==> s.places[x].AtWriter())
    && (forall x | 0 <= x < cfg.depth && s.bufs[x].Some? :: |s.bufs[x].value| == cfg.chunk)
    && (forall x | 0 <= x < cfg.depth :: 0 <= s.subs[x] && (s.subs[x] > 0 <==> s.places[x].Flying?))
    && (forall x | 0 <= x < cfg.depth && !s.places[x].Free? ::
          s.places[x].c < |s.chunks| && s.chunks[s.places[x].c] == s.places[x].chunk)
  }

  /** The writer channels are FIFO; a slot at a writer is in exactly one queued write or one unread ack. */
  ghost predicate QueueInv(cfg: Config, s: Rank) {
    && 0 < cfg.writers == |s.sent| == |s.received| && |s.places| == cfg.depth
    && (forall w | 0 <= w < cfg.writers :: s.received[w] <= |s.sent[w]|)
    && (forall w, i | 0 <= w < cfg.writers && 0 <= i < |s.sent[w]| ::
          cfg.WriterOf(s.sent[w][i].file) == w && s.sent[w][i].file in s.files)
    && (forall x | 0 <= x < cfg.depth && s.places[x].Queued? :: QueuedAt(cfg, s, x))
    && (forall w, i | 0 <= w < cfg.writers && s.received[w] <= i < |s.sent[w]| && s.sent[w][i].Write? ::
          s.sent[w][i].slot < cfg.depth && s.places[s.sent[w][i].slot].Queued?
          && s.places[s.sent[w][i].slot].pos == i
          && s.places[s.sent[w][i].slot].chunk.file == s.sent[w][i].file)
    && (forall i | 0 <= i < |s.acks| ::
          s.acks[i].slot < cfg.depth && s.places[s.acks[i].slot].Acked?
          && s.places[s.acks[i].slot].chunk.file == s.acks[i].file && |s.acks[i].buf| == cfg.chunk)
    && (forall i, j | 0 <= i < j < |s.acks| :: s.acks[i].slot != s.acks[j].slot)
    && (forall x | 0 <= x < cfg.depth && s.places[x].Acked? :: exists i :: 0 <= i < |s.acks| && s.acks[i].slot == x)
  }

  ghost predicate QueuedAt(cfg: Config, s: Rank, x: nat)
    requires 0 < cfg.writers == |s.sent| == |s.received| && x < |s.places| && s.places[x].Queued?
  {
    var pl := s.places[x];
    var w := cfg.WriterOf(pl.chunk.file);
    && s.received[w] <= pl.pos < |s.sent[w]|
    && var cmd := s.sent[w][pl.pos];
       && cmd.Write? && cmd.file == pl.chunk.file && cmd.slot == x && cmd.n == pl.chunk.n
       && cmd.offset == pl.chunk.offset && |cmd.buf| == cfg.chunk
  }

  /** In-flight entries are exactly the posted requests not yet handed back by MPI_Waitany. */
  ghost predicate FlightInv(cfg: Config, s: Rank) {
    && |s.subs| == cfg.depth && |s.places| == cfg.depth
    && (forall i | 0 <= i < |s.inFlight| :: EntryOk(cfg, s, s.inFlight[i]))
    && (forall i, j | 0 <= i < j < |s.inFlight| :: s.inFlight[i].request != s.inFlight[j].request)
    && (forall x: nat | x < cfg.depth :: s.subs[x] == Count(s.inFlight, OnSlot(x)))
    && (forall k: nat | k < |s.posts| && k !in s.completed :: InFlightReq(s, k))
    && (forall k | k in s.completed :: k < |s.posts|)
    && (forall k, x: nat | 0 <= k < |s.posts| && x < cfg.depth && s.places[x].Flying? && s.posts[k].chunk == s.places[x].c ::
          s.posts[k].slot == x)
  }

  ghost predicate InFlightReq(s: Rank, k: nat) {
    exists i :: 0 <= i < |s.inFlight| && s.inFlight[i].request == k
  }

  predicate EntryOk(cfg: Config, s: Rank, e: InFlight)
    requires |s.places| == cfg.depth
  {
    && e.request < |s.posts| && e.slot < cfg.depth && s.posts[e.request].slot == e.slot
    && s.places[e.slot].Flying? && s.places[e.slot].c == s.posts[e.request].chunk
    && s.places[e.slot].chunk.file == e.file && s.places[e.slot].chunk.n == e.n
    && s.places[e.slot].chunk.offset == e.offset
  }

  /** All broadcasts of the first chunks, in posting order; slots are each rank's own business. */
  function AllPosts(chunks: seq<Chunk>): seq<Post> {
    if chunks == [] then []
    else AllPosts(chunks[..|chunks| - 1]) + SubPosts(chunks[|chunks| - 1], |chunks| - 1, 0, 0)
  }

  function NoSlot(p: Post): Post { p.(slot := 0) }

  function Remaining(cfg: Config, s: Rank): seq<Chunk>
    requires cfg.chunk > 0 && s.nextPlan <= |cfg.plan|
  {
    (if s.active.Some? then ShardChunks(s.active.value.shard, cfg.chunk, s.active.value.nextPost) else [])
    + PlanChunks(cfg.plan[s.nextPlan..], cfg.chunk)
  }

  ghost predicate WellChunk(cfg: Config, ch: Chunk) {
    && ch.file < |cfg.size| && 0 < ch.n <= cfg.chunk && ch.offset + ch.n <= cfg.size[ch.file]
    && (cfg.direct ==> ch.n % ALIGN == 0 || ch.offset + ch.n == cfg.size[ch.file])
    && exists i :: 0 <= i < |cfg.plan| && InShard(cfg.plan[i], ch)
  }

  predicate InShard(sp: ShardSpec, ch: Chunk) {
    && sp.fileIdx == ch.file && sp.ownerRank == ch.root
    && sp.byteOffset <= ch.offset && ch.offset + ch.n <= sp.byteOffset + sp.byteLen
  }

  /** The driver walks the plan: what it has posted plus what is left is the whole plan, in order. */
  ghost predicate PosInv(cfg: Config, r: nat, s: Rank) {
    && cfg.chunk > 0
    && s.nextPlan <= |cfg.plan|
    && (s.active.Some? ==>
          var c := s.active.value;
          && 0 < s.nextPlan && c.shard == cfg.plan[s.nextPlan - 1]
          && c.nextPost < c.shard.byteLen
          && (cfg.direct ==> c.nextPost % ALIGN == 0)
          && c.isOwner == (c.shard.ownerRank == r)
          && (c.isOwner ==> c.readerPos == c.shard.byteOffset + c.nextPost))
    && s.chunks + Remaining(cfg, s) == PlanChunks(cfg.plan, cfg.chunk)
    && (forall c | 0 <= c < |s.chunks| :: WellChunk(cfg, s.chunks[c]))
    && |s.posts| == |AllPosts(s.chunks)|
    && (forall k | 0 <= k < |s.posts| :: NoSlot(s.posts[k]) == AllPosts(s.chunks)[k])
  }

  function ActiveOn(s: Rank, f: nat): nat {
    if s.active.Some? && s.active.value.shard.fileIdx == f then 1 else 0
  }

  /** The per-file counters and `writes_pending` count what they are named after. */
  ghost predicate CountInv(cfg: Config, r: nat, s: Rank) {
    && |s.places| == cfg.depth && s.nextPlan <= |cfg.plan|
    && (forall i | 0 <= i < |cfg.plan| :: cfg.plan[i].fileIdx in s.files)
    && (forall f | f in s.files :: cfg.Planned(f) && f < |cfg.size|)
    && (forall f | f in s.files :: FileCounts(cfg, r, s, f))
    && s.pending == Count(s.places, Writing())
    && (forall x | 0 <= x < cfg.depth && !s.places[x].Free? :: s.places[x].chunk.file in s.files)
    && (forall x | 0 <= x < cfg.depth && s.places[x].AtWriter() :: cfg.NeedsWrite(r, s.places[x].chunk.file))
  }

  predicate FileCounts(cfg: Config, r: nat, s: Rank, f: nat)
    requires f in s.files && s.nextPlan <= |cfg.plan|
  {
    var fs := s.files[f];
    && fs.needsWrite == cfg.NeedsWrite(r, f)
    && fs.shardsTotal == Count(cfg.plan, OfFile(f))
    && fs.shardsPosted == Count(cfg.plan[..s.nextPlan], OfFile(f)) - ActiveOn(s, f)
    && fs.chunksInFlight == Count(s.places, FlyingOf(f))
    && fs.writesInFlight == Count(s.places, WritingOf(f))
  }

  /** What has been sent about a file is Open, Writes, Close, as far as the flags say. */
  ghost predicate LifeInv(cfg: Config, r: nat, s: Rank) {
    && |s.sent| == cfg.writers && 0 < cfg.writers && |s.places| == cfg.depth
    && (forall f | f in s.files :: FileLife(cfg, s, f))
    && (forall f | f in s.files && s.files[f].isOpen :: cfg.NeedsWrite(r, f))
    && SentOpens(cfg, s)
    && InTime(cfg, s)
  }

  ghost predicate SentOpens(cfg: Config, s: Rank)
    requires |s.sent| == cfg.writers
  {
    forall w, i | 0 <= w < cfg.writers && 0 <= i < |s.sent[w]| && s.sent[w][i].OpenFile? ::
      s.sent[w][i].file < |cfg.size| && s.sent[w][i].size == cfg.size[s.sent[w][i].file]
  }

  /** No file with work outstanding is closed. */
  ghost predicate InTime(cfg: Config, s: Rank)
    requires |s.places| == cfg.depth
  {
    && (s.active.Some? && s.active.value.shard.fileIdx in s.files ==>
          NotLate(s, s.active.value.shard.fileIdx))
    && (forall x | 0 <= x < cfg.depth && !s.places[x].Free? && s.places[x].chunk.file in s.files ::
          NotLate(s, s.places[x].chunk.file))
  }

  /** While a file has work outstanding it is open, if this rank writes it at all, and not yet closed. */
  predicate NotLate(s: Rank, f: nat)
    requires f in s.files
  {
    !s.files[f].isClosed && (s.files[f].needsWrite ==> s.files[f].isOpen)
  }

  predicate FileLife(cfg: Config, s: Rank, f: nat)
    requires 0 < cfg.writers == |s.sent| && f in s.files
  {
    var fs := s.files[f];
    && (fs.isClosed ==> fs.isOpen && fs.shardsPosted == fs.shardsTotal)
    && LifeOf(s.sent[cfg.WriterOf(f)], f) == if fs.isClosed then Closed else if fs.isOpen then Opened else Never
  }

  /** maybe_close_file has been called since the last counter of this file changed. */
  predicate Eager(s: Rank, f: nat)
    requires f in s.files
  {
    var fs := s.files[f];
    fs.isOpen && !fs.isClosed ==>
      fs.shardsPosted != fs.shardsTotal || fs.chunksInFlight != 0 || fs.writesInFlight != 0
  }

  ghost predicate EagerInv(s: Rank, but: set<nat>) {
    forall f | f in s.files && f !in but :: Eager(s, f)
  }

  /** A writer's open files are the ones whose Open it has received and whose Close it has not. */
  ghost predicate OpenInv(cfg: Config, s: Rank) {
    && |s.sent| == cfg.writers && |s.received| == cfg.writers && |s.open| == cfg.writers
    && (forall w | 0 <= w < cfg.writers :: s.received[w] <= |s.sent[w]|)
    && (forall w: nat, f: nat | w < cfg.writers :: OpenOk(cfg, s, w, f))
  }

  predicate OpenOk(cfg: Config, s: Rank, w: nat, f: nat)
    requires w < |s.sent| && w < |s.received| && w < |s.open| && s.received[w] <= |s.sent[w]|
  {
    && (f in s.open[w] <==> LifeOf(s.sent[w][..s.received[w]], f).Opened?)
    && (f in s.open[w] ==> f < |cfg.size| && s.open[w][f] == cfg.size[f])
  }

  // ---- contents

  /** What a rank already holds when the stage starts: whole files, and the shards it downloaded. */
  ghost predicate Base(cfg: Config, r: nat, f: nat, p: nat) {
    || (r, f) in cfg.have
    || exists i :: 0 <= i < |cfg.plan| && cfg.plan[i].ownerRank == r && cfg.plan[i].Covers(f, p)
  }

  ghost predicate SourceOk(cfg: Config, src: seq<seq<Byte>>) {
    |src| == |cfg.size| && forall f | 0 <= f < |src| :: |src[f]| == cfg.size[f]
  }

  /** The range holds the source's bytes. */
  ghost predicate RangeOk(file: seq<Byte>, src: seq<Byte>, offset: nat, n: nat) {
    && offset + n <= |file| && offset + n <= |src|
    && forall p | offset <= p < offset + n :: file[p] == src[p]
  }

  /** A buffer whose bytes [off, off + len) are those of the source at `offset`. */
  ghost predicate HoldsPart(buf: seq<Byte>, src: seq<Byte>, offset: nat, off: nat, len: nat) {
    && off + len <= |buf| && offset + off + len <= |src|
    && forall b | off <= b < off + len :: buf[b] == src[offset + b]
  }

  ghost predicate Carried(s: Rank, c: nat) {
    exists x :: 0 <= x < |s.places| && (s.places[x].Flying? || s.places[x].Queued?) && s.places[x].c == c
  }

  ghost predicate ContentInv(cfg: Config, r: nat, src: seq<seq<Byte>>, s: Rank) {
    && SourceOk(cfg, src) && |s.disk| == |cfg.size| && |s.bufs| == cfg.depth && |s.places| == cfg.depth
    && |s.sent| == cfg.writers && 0 < cfg.writers
    && (forall f | f in s.files && f < |cfg.size| :: cfg.size[f] <= |s.disk[f]|)
    && (forall f, p: nat | f in s.files && f < |cfg.size| && p < cfg.size[f] && Base(cfg, r, f, p) ::
          p < |s.disk[f]| && s.disk[f][p] == src[f][p])
    && (forall c: nat | c < |s.chunks| ::
          Carried(s, c) || (s.chunks[c].file < |src| && RangeOk(s.disk[s.chunks[c].file], src[s.chunks[c].file], s.chunks[c].offset, s.chunks[c].n)))
    && (forall x | 0 <= x < cfg.depth && s.places[x].Flying? && s.places[x].chunk.root == r ::
          s.bufs[x].Some? && s.places[x].chunk.file < |src|
          && HoldsPart(s.bufs[x].value, src[s.places[x].chunk.file], s.places[x].chunk.offset, 0, s.places[x].chunk.n))
    && (forall k, x | 0 <= x < cfg.depth && s.places[x].Flying? && k in s.completed && k < |s.posts| && s.posts[k].chunk == s.places[x].c ::
          s.bufs[x].Some? && s.places[x].chunk.file < |src|
          && HoldsPart(s.bufs[x].value, src[s.places[x].chunk.file], s.places[x].chunk.offset, s.posts[k].off, s.posts[k].len))
    && (forall x | 0 <= x < cfg.depth && s.places[x].Queued? :: QueuedBytes(cfg, src, s, x))
  }

  ghost predicate QueuedBytes(cfg: Config, src: seq<seq<Byte>>, s: Rank, x: nat)
    requires 0 < cfg.writers == |s.sent| && x < |s.places| && s.places[x].Queued?
  {
    var pl := s.places[x];
    var log := s.sent[cfg.WriterOf(pl.chunk.file)];
    && pl.pos < |log| && log[pl.pos].Write? && pl.chunk.file < |src|
    && HoldsPart(log[pl.pos].buf, src[pl.chunk.file], pl.chunk.offset, 0, pl.chunk.n)
  }

  /** Only an O_DIRECT tail may stand past the end of a file, and only until the file is closed. */
  ghost predicate SizeInv(cfg: Config, s: Rank) {
    && |s.disk| == |cfg.size| && |s.open| == cfg.writers && 0 < cfg.writers
    && forall f | f in s.files && f < |cfg.size| && |s.disk[f]| != cfg.size[f] ::
         cfg.direct && f in s.open[cfg.WriterOf(f)]
  }

  predicate Lengths(cfg: Config, s: Rank) {
    && 0 < cfg.chunk && 0 < cfg.writers == |s.sent| == |s.received| == |s.open|
    && cfg.depth == |s.bufs| == |s.subs| == |s.places| && |s.disk| == |cfg.size|
  }

  /** Everything but the promptness of Close. */
  ghost predicate CoreInv(cfg: Config, r: nat, src: seq<seq<Byte>>, s: Rank) {
    && cfg.Valid() && SourceOk(cfg, src) && r < cfg.world && Lengths(cfg, s)
    && SlotInv(cfg, s) && QueueInv(cfg, s) && FlightInv(cfg, s) && PosInv(cfg, r, s)
    && CountInv(cfg, r, s) && LifeInv(cfg, r, s) && OpenInv(cfg, s)
    && ContentInv(cfg, r, src, s) && SizeInv(cfg, s)
  }

  ghost predicate Inv(cfg: Config, r: nat, src: seq<seq<Byte>>, s: Rank) {
    CoreInv(cfg, r, src, s) && EagerInv(s, {}) && PcInv(cfg, s)
  }

  /** Why the driver is where it is. */
  ghost predicate PcInv(cfg: Config, s: Rank) {
    && (s.pc.Finished? ==> s.inFlight == [] && s.pending == 0 && !WorkLeft(cfg, s))
    && (s.pc.AckWait? ==> s.inFlight == [] && (s.pending != 0 || WorkLeft(cfg, s)))
    && (s.pc.RequestWait? ==> s.inFlight != [])
  }
}
