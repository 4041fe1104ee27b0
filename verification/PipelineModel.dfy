/**
  The broadcast stage: one rank's driver thread, its writer threads and its disk, as a state machine.

  Every step is a function on values, so that whole runs can be reasoned about; the class in
  PipelineDriver.dfy runs the driver's part of these steps in place.
*/
module PipelineModel {
  import opened Types
  import opened Counting

  /** What all ranks know before the stage starts; `have` is the presence matrix. */
  datatype Config = Config(
    world: nat, plan: seq<ShardSpec>, chunk: nat, depth: nat, writers: nat, direct: bool,
    size: seq<nat>, have: set<(nat, nat)>)
  {
    /** The plan names existing files and ranks, and stays inside the files. */
    predicate Valid() {
      && 0 < world && 0 < chunk && 0 < depth && 0 < writers
      && (direct ==> chunk % ALIGN == 0)
      && (forall i | 0 <= i < |plan| :: ValidShard(plan[i]))
      && (forall x | x in have :: x.0 < world && x.1 < |size|)
    }

    predicate ValidShard(s: ShardSpec) {
      && s.fileIdx < |size| && s.ownerRank < world
      && s.byteOffset + s.byteLen <= size[s.fileIdx]
      && (direct ==> s.byteLen % ALIGN == 0 || s.byteOffset + s.byteLen == size[s.fileIdx])
    }

    /** All commands about one file go to one writer. */
    function WriterOf(f: nat): (w: nat)
      requires writers > 0
      ensures w < writers
    {
      f % writers
    }

    predicate Planned(f: nat) {
      exists i | 0 <= i < |plan| :: plan[i].fileIdx == f
    }

    predicate OwnsAll(r: nat, f: nat) {
      forall i | 0 <= i < |plan| && plan[i].fileIdx == f :: plan[i].ownerRank == r
    }

    /** This rank lacks the file and at least one of its shards arrives by broadcast. */
    predicate NeedsWrite(r: nat, f: nat) {
      f < |size| && (r, f) !in have && !OwnsAll(r, f) && size[f] > 0
    }
  }

  /** MPI_Ibcast takes a C int count; longer chunks go out in several calls. */
  const MAX_SUB_BCAST: nat := 0x4000_0000

  /** One chunk of a shard: `n` bytes of `file` at `offset`, broadcast by `root`. */
  datatype Chunk = Chunk(file: nat, root: nat, offset: nat, n: nat)

  /** One posted MPI_Ibcast: bytes [off, off + len) of chunk number `chunk`, in buffer `slot`. */
  datatype Post = Post(root: nat, len: nat, slot: nat, chunk: nat, off: nat)

  datatype Cursor = Cursor(shard: ShardSpec, nextPost: nat, isOwner: bool, readerPos: nat)

  datatype FileState = FileState(
    needsWrite: bool, isOpen: bool, isClosed: bool, shardsTotal: nat, shardsPosted: nat,
    chunksInFlight: int, writesInFlight: int)

  datatype InFlight = InFlight(request: nat, slot: nat, file: nat, n: nat, offset: nat)

  datatype Cmd =
    | OpenFile(file: nat, size: nat)
    | Write(file: nat, slot: nat, n: nat, offset: nat, buf: seq<Byte>)
    | CloseFile(file: nat)

  datatype Ack = Ack(slot: nat, file: nat, buf: seq<Byte>)

  /** Where the driver thread is in its loop; each wait names the call it blocks in. */
  datatype Pc = Posting | Draining | AckWait | RequestWait | Finished

  /** History of a slot: which chunk it carries, and on which leg of its round trip. */
  datatype Place =
    | Free
    | Flying(c: nat, chunk: Chunk)
    | Queued(c: nat, chunk: Chunk, pos: nat)
    | Acked(c: nat, chunk: Chunk)
  {
    predicate AtWriter() { Queued? || Acked? }
  }

  datatype Rank = Rank(
    // driver thread
    pc: Pc, nextPlan: nat, active: Option<Cursor>, free: seq<nat>, bufs: seq<Option<seq<Byte>>>,
    inFlight: seq<InFlight>, subs: seq<int>, files: map<nat, FileState>, pending: int,
    // channels to the writers (everything ever sent), what each writer has received, its open files
    sent: seq<seq<Cmd>>, received: seq<nat>, open: seq<map<nat, nat>>, acks: seq<Ack>,
    // MPI requests of this rank that have completed, and the local disk
    completed: set<nat>, disk: seq<seq<Byte>>,
    // history
    chunks: seq<Chunk>, posts: seq<Post>, places: seq<Place>)

  // ---- MPI posting order

  /** The chunks of a shard from within-shard offset `from` on. */
  function ShardChunks(s: ShardSpec, chunk: nat, from: nat): seq<Chunk>
    requires chunk > 0
    decreases s.byteLen - from
  {
    if from >= s.byteLen then []
    else
      var n := Min(chunk, s.byteLen - from);
      [Chunk(s.fileIdx, s.ownerRank, s.byteOffset + from, n)] + ShardChunks(s, chunk, from + n)
  }

  function PlanChunks(plan: seq<ShardSpec>, chunk: nat): seq<Chunk>
    requires chunk > 0
  {
    if plan == [] then [] else ShardChunks(plan[0], chunk, 0) + PlanChunks(plan[1..], chunk)
  }

  /** The sub-broadcasts of a chunk from buffer offset `off` on. */
  function SubPosts(c: Chunk, index: nat, slot: nat, off: nat): seq<Post>
    decreases c.n - off
  {
    if off >= c.n then []
    else
      var sub := Min(c.n - off, MAX_SUB_BCAST);
      [Post(c.root, sub, slot, index, off)] + SubPosts(c, index, slot, off + sub)
  }

  function Entries(posts: seq<Post>, from: nat, slot: nat, c: Chunk): seq<InFlight> {
    seq(|posts|, i requires 0 <= i => InFlight(from + i, slot, c.file, c.n, c.offset))
  }

  // ---- file bookkeeping

  function Send(s: Rank, cfg: Config, cmd: Cmd): Rank
    requires 0 < cfg.writers == |s.sent|
  {
    var w := cfg.WriterOf(cmd.file);
    s.(sent := s.sent[w := s.sent[w] + [cmd]])
  }

  /** maybe_close_file: once a file has nothing posted or written outstanding, tell its writer. */
  function MaybeClose(cfg: Config, s: Rank, f: nat): Rank
    requires 0 < cfg.writers == |s.sent| && f in s.files
  {
    var fs := s.files[f];
    if !fs.isOpen || fs.isClosed || fs.shardsPosted != fs.shardsTotal || fs.chunksInFlight != 0 || fs.writesInFlight != 0
    then s
    else Send(s, cfg, CloseFile(f)).(files := s.files[f := fs.(isClosed := true)])
  }

  // ---- driver steps

  predicate ShapeOk(cfg: Config, s: Rank) {
    && |s.bufs| == cfg.depth && |s.subs| == cfg.depth && |s.places| == cfg.depth
    && |s.sent| == cfg.writers && |s.received| == cfg.writers && |s.open| == cfg.writers
    && |s.disk| == |cfg.size|
    && (forall i | 0 <= i < |cfg.plan| :: cfg.plan[i].fileIdx in s.files)
    && (forall i | 0 <= i < |s.free| :: s.free[i] < cfg.depth && s.bufs[s.free[i]].Some?)
    && (forall x | 0 <= x < cfg.depth && s.bufs[x].Some? :: |s.bufs[x].value| == cfg.chunk)
  }

  predicate CanTake(cfg: Config, s: Rank) {
    s.pc.Posting? && s.free != [] && s.active.None? && s.nextPlan < |cfg.plan|
  }

  /** Start the next shard of the plan, opening its file for writing when that is due. */
  function TakeBody(cfg: Config, r: nat, s: Rank): Rank
    requires cfg.Valid() && ShapeOk(cfg, s) && CanTake(cfg, s)
  {
    var sp := cfg.plan[s.nextPlan];
    var f := sp.fileIdx;
    var fs := s.files[f];
    var s1 := s.(nextPlan := s.nextPlan + 1);
    var s2 := if fs.needsWrite && !fs.isOpen
              then Send(s1, cfg, OpenFile(f, cfg.size[f])).(files := s1.files[f := fs.(isOpen := true)])
              else s1;
    if sp.byteLen == 0
    then s2.(files := s2.files[f := s2.files[f].(shardsPosted := fs.shardsPosted + 1)])
    else s2.(active := Some(Cursor(sp, 0, sp.ownerRank == r, sp.byteOffset)))
  }

  /** A zero-length shard is done at once. */
  function Take(cfg: Config, r: nat, s: Rank): Rank
    requires cfg.Valid() && ShapeOk(cfg, s) && CanTake(cfg, s)
  {
    var sp := cfg.plan[s.nextPlan];
    var s1 := TakeBody(cfg, r, s);
    if sp.byteLen == 0 then MaybeClose(cfg, s1, sp.fileIdx) else s1
  }

  predicate CanPost(cfg: Config, s: Rank) {
    && s.pc.Posting? && s.free != [] && s.active.Some?
    && s.active.value.shard.fileIdx < |s.disk| && s.active.value.shard.fileIdx in s.files
    && s.active.value.nextPost < s.active.value.shard.byteLen
  }

  function NextChunk(cfg: Config, c: Cursor): Chunk
    requires c.nextPost < c.shard.byteLen
  {
    Chunk(c.shard.fileIdx, c.shard.ownerRank, c.shard.byteOffset + c.nextPost,
          Min(cfg.chunk, c.shard.byteLen - c.nextPost))
  }

  /** The owner's `read_exact` finds its bytes; a short file ends the run with an error. */
  predicate ReadOk(cfg: Config, s: Rank)
    requires CanPost(cfg, s)
  {
    var c := s.active.value;
    c.isOwner ==> c.readerPos + NextChunk(cfg, c).n <= |s.disk[c.shard.fileIdx]|
  }

  /** Fill the first free buffer if this rank owns the shard, and post its broadcasts. */
  function PostBody(cfg: Config, s: Rank): Rank
    requires cfg.Valid() && ShapeOk(cfg, s) && CanPost(cfg, s) && ReadOk(cfg, s)
  {
    var c := s.active.value;
    var f := c.shard.fileIdx;
    var ch := NextChunk(cfg, c);
    var slot := s.free[0];
    var buf := s.bufs[slot].value;
    var data := if c.isOwner then s.disk[f][c.readerPos..c.readerPos + ch.n] + buf[ch.n..] else buf;
    var posts := SubPosts(ch, |s.chunks|, slot, 0);
    var next := c.nextPost + ch.n;
    var fs := s.files[f];
    var fs1 := fs.(chunksInFlight := fs.chunksInFlight + 1);
    var s1 := s.(
      free := s.free[1..],
      bufs := s.bufs[slot := Some(data)],
      inFlight := s.inFlight + Entries(posts, |s.posts|, slot, ch),
      subs := s.subs[slot := s.subs[slot] + |posts|],
      chunks := s.chunks + [ch],
      posts := s.posts + posts,
      places := s.places[slot := Flying(|s.chunks|, ch)]);
    if next >= c.shard.byteLen
    then s1.(active := None, files := s.files[f := fs1.(shardsPosted := fs.shardsPosted + 1)])
    else s1.(active := Some(c.(nextPost := next, readerPos := if c.isOwner then c.readerPos + ch.n else c.readerPos)),
             files := s.files[f := fs1])
  }

  function PostChunk(cfg: Config, s: Rank): Rank
    requires cfg.Valid() && ShapeOk(cfg, s) && CanPost(cfg, s) && ReadOk(cfg, s)
  {
    var s1 := PostBody(cfg, s);
    if s1.active.None? then MaybeClose(cfg, s1, s.active.value.shard.fileIdx) else s1
  }

  predicate CanEndPosting(cfg: Config, s: Rank) {
    s.pc.Posting? && (s.free == [] || (s.active.None? && s.nextPlan >= |cfg.plan|))
  }

  function EndPosting(s: Rank): Rank { s.(pc := Draining) }

  predicate CanAck(s: Rank) {
    (s.pc.Draining? || s.pc.AckWait?) && s.acks != []
    && s.acks[0].slot < |s.bufs| && s.acks[0].slot < |s.places| && s.acks[0].file in s.files
  }

  /** Take one acknowledgement: in the non-blocking drain, or in the blocking receive. */
  function AckBody(s: Rank): Rank
    requires CanAck(s)
  {
    var a := s.acks[0];
    var fs := s.files[a.file];
    s.(
      pc := if s.pc.AckWait? then Posting else Draining,
      acks := s.acks[1..],
      bufs := s.bufs[a.slot := Some(a.buf)],
      free := s.free + [a.slot],
      pending := s.pending - 1,
      files := s.files[a.file := fs.(writesInFlight := fs.writesInFlight - 1)],
      places := s.places[a.slot := Free])
  }

  function TakeAck(cfg: Config, s: Rank): Rank
    requires cfg.Valid() && ShapeOk(cfg, s) && CanAck(s)
  {
    MaybeClose(cfg, AckBody(s), s.acks[0].file)
  }

  predicate WorkLeft(cfg: Config, s: Rank) {
    s.nextPlan < |cfg.plan| || s.active.Some?
  }

  /** The drain found the channel empty: leave the loop, or block. */
  function EndDrain(cfg: Config, s: Rank): Rank {
    s.(pc := if s.inFlight == [] && s.pending == 0 && !WorkLeft(cfg, s) then Finished
             else if s.inFlight == [] then AckWait
             else RequestWait)
  }

  predicate CanReap(cfg: Config, s: Rank, i: nat) {
    && s.pc.RequestWait? && i < |s.inFlight| && s.inFlight[i].request in s.completed
    && s.inFlight[i].slot < |s.bufs| && s.inFlight[i].slot < |s.places| && s.inFlight[i].file in s.files
    && s.bufs[s.inFlight[i].slot].Some? && s.places[s.inFlight[i].slot].Flying?
  }

  /** MPI_Waitany returned entry `i`; the last sub-broadcast of a slot moves the chunk on. */
  function ReapBody(cfg: Config, s: Rank, i: nat): Rank
    requires cfg.Valid() && ShapeOk(cfg, s) && CanReap(cfg, s, i)
  {
    var e := s.inFlight[i];
    var left := s.subs[e.slot] - 1;
    var s1 := s.(pc := Posting, inFlight := SwapRemove(s.inFlight, i), subs := s.subs[e.slot := left]);
    if left > 0 then s1
    else
      var fs := s.files[e.file];
      var fs1 := fs.(chunksInFlight := fs.chunksInFlight - 1);
      if fs.needsWrite then
        var w := cfg.WriterOf(e.file);
        var pl := s.places[e.slot];
        Send(s1, cfg, Write(e.file, e.slot, e.n, e.offset, s.bufs[e.slot].value)).(
          bufs := s.bufs[e.slot := None],
          pending := s.pending + 1,
          files := s.files[e.file := fs1.(writesInFlight := fs.writesInFlight + 1)],
          places := s.places[e.slot := Queued(pl.c, pl.chunk, |s.sent[w]|)])
      else
        s1.(free := s.free + [e.slot],
            files := s.files[e.file := fs1],
            places := s.places[e.slot := Free])
  }

  function Reap(cfg: Config, s: Rank, i: nat): Rank
    requires cfg.Valid() && ShapeOk(cfg, s) && CanReap(cfg, s, i)
  {
    var e := s.inFlight[i];
    var s1 := ReapBody(cfg, s, i);
    if s.subs[e.slot] > 1 then s1 else MaybeClose(cfg, s1, e.file)
  }

  // ---- writer threads

  function RoundUp(n: nat): nat { (n + ALIGN - 1) / ALIGN * ALIGN }

  lemma RoundUpIs(n: nat)
    ensures n <= RoundUp(n) < n + ALIGN && RoundUp(n) % ALIGN == 0
    ensures n % ALIGN == 0 ==> RoundUp(n) == n
  {
  }

  /** O_DIRECT needs an aligned length; the tail of the buffer pads the write. */
  function WriteLen(cfg: Config, n: nat): nat {
    Min(if cfg.direct then RoundUp(n) else n, cfg.chunk)
  }

  /** Writer `w` has a command to run. A write to a file it does not have open is an error and ends the run. */
  predicate CanWrite(cfg: Config, s: Rank, w: nat) {
    && w < cfg.writers && |s.received| == |s.sent| == |s.open| == cfg.writers
    && s.received[w] < |s.sent[w]|
    && var cmd := s.sent[w][s.received[w]];
       && cmd.file < |s.disk|
       && (cmd.Write? ==> cmd.file in s.open[w] && cmd.slot < |s.places|
                          && s.places[cmd.slot].Queued? && |cmd.buf| == cfg.chunk)
  }

  /** One turn of writer_loop. */
  function WriterStep(cfg: Config, s: Rank, w: nat): Rank
    requires CanWrite(cfg, s, w)
  {
    var cmd := s.sent[w][s.received[w]];
    var s1 := s.(received := s.received[w := s.received[w] + 1]);
    match cmd
    case OpenFile(f, size) =>
      var files: map<nat, nat> := s.open[w][f := size];
      s1.(open := s.open[w := files])
    case Write(f, slot, n, offset, buf) =>
      s1.(disk := s.disk[f := WriteAt(s.disk[f], offset, buf[..WriteLen(cfg, n)])],
          acks := s.acks + [Ack(slot, f, buf)],
          places := s.places[slot := Acked(s.places[slot].c, s.places[slot].chunk)])
    case CloseFile(f) =>
      if f !in s.open[w] then s1
      else
        var files: map<nat, nat> := s.open[w] - {f};
        s1.(open := s.open[w := files],
            disk := if cfg.direct then s.disk[f := SetLen(s.disk[f], s.open[w][f])] else s.disk)
  }

  // ---- MPI

  /** The broadcast numbered `k` has completed locally; a receiver's buffer now holds the payload. */
  predicate CanComplete(s: Rank, k: nat, payload: seq<Byte>) {
    && k < |s.posts| && k !in s.completed
    && |payload| == s.posts[k].len
    && s.posts[k].slot < |s.bufs| && s.bufs[s.posts[k].slot].Some?
    && s.posts[k].off + s.posts[k].len <= |s.bufs[s.posts[k].slot].value|
  }

  function Complete(r: nat, s: Rank, k: nat, payload: seq<Byte>): Rank
    requires CanComplete(s, k, payload)
  {
    var p := s.posts[k];
    var buf := s.bufs[p.slot].value;
    if p.root == r then s.(completed := s.completed + {k})
    else
      s.(completed := s.completed + {k},
         bufs := s.bufs[p.slot := Some(buf[..p.off] + payload + buf[p.off + p.len..])])
  }

  /** A rank that will take no further step of its own. */
  predicate Done(s: Rank) {
    && s.pc.Finished?
    && |s.received| == |s.sent|
    && (forall w | 0 <= w < |s.sent| :: s.received[w] >= |s.sent[w]|)
  }

  /** The driver blocks in the ack receive although no write is outstanding: no ack will ever come. */
  predicate Starved(s: Rank) {
    s.pc.AckWait? && s.pending == 0
  }
}
