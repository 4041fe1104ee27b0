/** One rank's driver thread, in place: the buffers, the free deque, the flight list and the file table. */
module PipelineDriver {
  import opened Types
  import opened Counting
  import opened PipelineModel
  import opened PipelineInv
  import opened PipelinePosts
  import opened PipelineTake
  import opened PipelinePost
  import opened PipelineAck
  import opened PipelineComplete
  import opened PipelineCommands

  // ---- the inner loops, as functions on the state

  function ShardsLeft(cfg: Config, s: Rank): nat {
    2 * Max(0, |cfg.plan| - s.nextPlan) + if s.active.Some? then 1 else 0
  }

  function BytesLeft(s: Rank): nat {
    if s.active.Some? then Max(0, s.active.value.shard.byteLen - s.active.value.nextPost) else 0
  }

  /** `while !free_slots.is_empty()`: take shards and post chunks until one of the two runs out. */
  function Fill(cfg: Config, r: nat, s: Rank): (t: Rank)
    decreases ShardsLeft(cfg, s), BytesLeft(s)
  {
    if !cfg.Valid() || !ShapeOk(cfg, s) then s
    else if CanTake(cfg, s) then TakeShrinks(cfg, r, s); Fill(cfg, r, Take(cfg, r, s))
    else if CanPost(cfg, s) && ReadOk(cfg, s) then PostShrinks(cfg, s); Fill(cfg, r, PostChunk(cfg, s))
    else s
  }

  lemma TakeShrinks(cfg: Config, r: nat, s: Rank)
    requires cfg.Valid() && ShapeOk(cfg, s) && CanTake(cfg, s)
    ensures ShardsLeft(cfg, Take(cfg, r, s)) < ShardsLeft(cfg, s) && Take(cfg, r, s).pc == s.pc
  {
    hide Config.Valid, Config.WriterOf, Config.ValidShard, ShapeOk;
  }

  lemma PostShrinks(cfg: Config, s: Rank)
    requires cfg.Valid() && ShapeOk(cfg, s) && CanPost(cfg, s) && ReadOk(cfg, s)
    ensures PostChunk(cfg, s).pc == s.pc
    ensures var t := PostChunk(cfg, s);
            || ShardsLeft(cfg, t) < ShardsLeft(cfg, s)
            || (ShardsLeft(cfg, t) == ShardsLeft(cfg, s) && BytesLeft(t) < BytesLeft(s))
  {
    hide Config.WriterOf, Config.ValidShard, ShapeOk, SubPosts, Entries;
  }

  /** `try_recv` until the channel is empty. */
  function Drain(cfg: Config, s: Rank): Rank
    decreases |s.acks|
  {
    if !cfg.Valid() || !ShapeOk(cfg, s) || !s.pc.Draining? || !CanAck(s) then s
    else Drain(cfg, TakeAck(cfg, s))
  }

  lemma FillTakes(cfg: Config, r: nat, s: Rank)
    requires cfg.Valid() && ShapeOk(cfg, s) && CanTake(cfg, s)
    ensures Fill(cfg, r, s) == Fill(cfg, r, Take(cfg, r, s))
  {
    hide Config.Valid, Take, ShapeOk;
  }

  lemma FillPosts(cfg: Config, r: nat, s: Rank)
    requires cfg.Valid() && ShapeOk(cfg, s) && CanPost(cfg, s) && ReadOk(cfg, s)
    ensures Fill(cfg, r, s) == Fill(cfg, r, PostChunk(cfg, s))
  {
    hide Config.Valid, PostChunk, ShapeOk, ReadOk;
  }

  lemma FillEnds(cfg: Config, r: nat, s: Rank)
    requires s.free == [] || !WorkLeft(cfg, s)
    ensures Fill(cfg, r, s) == s
  {
    hide Config.Valid, ShapeOk, ReadOk;
  }

  lemma DrainTakes(cfg: Config, r: nat, src: seq<seq<Byte>>, s: Rank)
    requires cfg.Valid() && ShapeOk(cfg, s) && s.pc.Draining? && CanAck(s)
    ensures Drain(cfg, s) == Drain(cfg, TakeAck(cfg, s))
    ensures TakeAck(cfg, s).pc.Draining?
  {
    hide Config.Valid, ShapeOk, Config.WriterOf;
  }

  lemma DrainEnds(cfg: Config, s: Rank)
    requires s.acks == []
    ensures Drain(cfg, s) == s
  {
    hide Config.Valid, ShapeOk;
  }

  /** After the first `i` shards the table holds their files, with their shards counted. */
  ghost predicate Counted(cfg: Config, files: map<nat, FileState>, i: nat)
    requires i <= |cfg.plan|
  {
    && (forall f | f in files :: exists j :: 0 <= j < i && cfg.plan[j].fileIdx == f)
    && (forall j | 0 <= j < i :: cfg.plan[j].fileIdx in files)
    && (forall f | f in files :: files[f] == FileState(false, false, false, Count(cfg.plan[..i], OfFile(f)), 0, 0, 0))
  }

  lemma CountShard(cfg: Config, files: map<nat, FileState>, i: nat)
    requires i < |cfg.plan| && Counted(cfg, files, i)
    ensures var f := cfg.plan[i].fileIdx;
            var fs := if f in files then files[f] else FileState(false, false, false, 0, 0, 0, 0);
            Counted(cfg, files[f := fs.(shardsTotal := fs.shardsTotal + 1)], i + 1)
  {
    hide Count;
    var f := cfg.plan[i].fileIdx;
    var fs := if f in files then files[f] else FileState(false, false, false, 0, 0, 0, 0);
    var after := files[f := fs.(shardsTotal := fs.shardsTotal + 1)];
    if f !in files {
      CountZero(cfg.plan[..i], OfFile(f));
    }
    forall g | g in after
      ensures after[g] == FileState(false, false, false, Count(cfg.plan[..i + 1], OfFile(g)), 0, 0, 0)
    {
      CountLast(cfg.plan[..i + 1], OfFile(g));
      assert cfg.plan[..i + 1][..i] == cfg.plan[..i];
    }
  }

  lemma StartsCounted(cfg: Config)
    ensures Counted(cfg, map[], 0)
  {
  }

  lemma CountedAll(cfg: Config, files: map<nat, FileState>)
    requires Counted(cfg, files, |cfg.plan|)
    ensures forall f: nat :: f in files <==> exists i :: 0 <= i < |cfg.plan| && cfg.plan[i].fileIdx == f
    ensures forall f | f in files :: files[f] == FileState(false, false, false, Count(cfg.plan, OfFile(f)), 0, 0, 0)
  {
    hide Count;
    assert cfg.plan[..|cfg.plan|] == cfg.plan;
  }

  /** Such a table, with the flag set for each file, is the initial one. */
  lemma TableIs(cfg: Config, r: nat, files: map<nat, FileState>)
    requires cfg.Valid()
    requires forall f: nat :: f in files <==> exists i :: 0 <= i < |cfg.plan| && cfg.plan[i].fileIdx == f
    requires forall f | f in files :: files[f] == InitFile(cfg, r, f)
    ensures forall disk :: files == InitRank(cfg, r, disk).files
    ensures forall f | f in files :: files[f].needsWrite <==> !NothingToWrite(cfg, r, f)
  {
    hide Count, Config.Valid, Config.NeedsWrite, NothingToWrite;
    assert files == map i | 0 <= i < |cfg.plan| :: cfg.plan[i].fileIdx := InitFile(cfg, r, cfg.plan[i].fileIdx);
    forall f | f in files
      ensures files[f].needsWrite <==> !NothingToWrite(cfg, r, f)
    {
      NeedlessIs(cfg, r, f);
    }
  }

  /** One FileState per planned file: the shards counted first, then whether this rank writes the file. */
  method FileTable(cfg: Config, r: nat) returns (files: map<nat, FileState>)
    requires cfg.Valid()
    ensures forall disk :: files == InitRank(cfg, r, disk).files
    ensures forall f: nat :: f in files <==> exists i :: 0 <= i < |cfg.plan| && cfg.plan[i].fileIdx == f
    ensures forall f | f in files :: files[f].needsWrite <==> !NothingToWrite(cfg, r, f)
  {
    hide Config.Valid, Config.NeedsWrite, Count, NothingToWrite, InitRank, Counted;
    files := map[];
    StartsCounted(cfg);
    var i := 0;
    while i < |cfg.plan|
      invariant 0 <= i <= |cfg.plan| && Counted(cfg, files, i)
    {
      CountShard(cfg, files, i);
      var f := cfg.plan[i].fileIdx;
      var fs := if f in files then files[f] else FileState(false, false, false, 0, 0, 0, 0);
      files := files[f := fs.(shardsTotal := fs.shardsTotal + 1)];
      i := i + 1;
    }
    CountedAll(cfg, files);
    files := map f | f in files :: files[f].(needsWrite := cfg.NeedsWrite(r, f));
    TableIs(cfg, r, files);
  }

  lemma PostShape(cfg: Config, s: Rank)
    requires cfg.Valid() && ShapeOk(cfg, s) && CanPost(cfg, s)
    ensures s.free[0] < cfg.depth == |s.places| && |s.sent| == cfg.writers && 0 < cfg.writers
  {
  }

  class Driver {
    const cfg: Config
    const rank: nat

    var nextPlan: nat
    var active: Option<Cursor>
    var free: seq<nat>
    const bufs: array<Option<seq<Byte>>>
    var inFlight: seq<InFlight>
    const subs: array<int>
    var files: map<nat, FileState>
    var pending: int
    var sent: seq<seq<Cmd>>
    var nextRequest: nat

    ghost var pc: Pc
    ghost var chunks: seq<Chunk>
    ghost var posts: seq<Post>
    ghost var places: seq<Place>

    ghost predicate Valid()
      reads this
    {
      cfg.Valid() && bufs.Length == cfg.depth && subs.Length == cfg.depth && nextRequest == |posts|
    }

    /** This driver in the environment of `e`: its writers, its ack channel, its disk and its MPI requests. */
    ghost function State(e: Rank): Rank
      reads this, bufs, subs
    {
      e.(pc := pc, nextPlan := nextPlan, active := active, free := free, bufs := bufs[..], inFlight := inFlight,
         subs := subs[..], files := files, pending := pending, sent := sent,
         chunks := chunks, posts := posts, places := places)
    }

    /** run: all buffers allocated, all slots free, nothing posted. */
    constructor (cfg: Config, rank: nat)
      requires cfg.Valid()
      ensures Valid() && this.cfg == cfg && this.rank == rank && fresh(bufs) && fresh(subs)
      ensures forall disk :: State(InitRank(cfg, rank, disk)) == InitRank(cfg, rank, disk)
    {
      hide Config.Valid, Config.NeedsWrite, Count;
      Positive(cfg);
      var table := FileTable(cfg, rank);
      this.cfg, this.rank := cfg, rank;
      nextPlan, active, inFlight, pending, nextRequest := 0, None, [], 0, 0;
      free := seq(cfg.depth, i requires 0 <= i => i);
      bufs := new Option<seq<Byte>>[cfg.depth](_ => Some(seq(cfg.chunk, _ => 0)));
      subs := new int[cfg.depth](_ => 0);
      sent := seq(cfg.writers, _ => []);
      files := table;
      pc, chunks, posts, places := Posting, [], [], seq(cfg.depth, _ => Free);
      new;
      assert bufs[..] == seq(cfg.depth, _ => Some(seq(cfg.chunk, _ => 0)));
      assert subs[..] == seq(cfg.depth, _ => 0);
    }

    method SendCmd(cmd: Cmd)
      requires Valid() && |sent| == cfg.writers
      modifies this`sent
      ensures sent == old(sent)[cfg.WriterOf(cmd.file) := old(sent)[cfg.WriterOf(cmd.file)] + [cmd]]
    {
      var w := cfg.WriterOf(cmd.file);
      sent := sent[w := sent[w] + [cmd]];
    }

    /** maybe_close_file */
    method Close(f: nat)
      requires Valid() && |sent| == cfg.writers && f in files
      modifies this`sent, this`files
      ensures Valid()
      ensures forall e: Rank :: State(e) == MaybeClose(cfg, old(State(e)), f)
    {
      var fs := files[f];
      if !fs.isOpen || fs.isClosed || fs.shardsPosted != fs.shardsTotal || fs.chunksInFlight != 0 || fs.writesInFlight != 0 {
        return;
      }
      SendCmd(CloseFile(f));
      files := files[f := fs.(isClosed := true)];
    }

    method TakeShard(ghost e: Rank)
      requires Valid() && ShapeOk(cfg, State(e)) && CanTake(cfg, State(e))
      modifies this
      ensures Valid() && State(e) == Take(cfg, rank, old(State(e)))
    {
      ShardAt(cfg, nextPlan);
      ghost var before := State(e);
      TakeFields(cfg, rank, before);
      hide Config.Valid, Config.NeedsWrite, MaybeClose, Config.WriterOf, TakeBody;
      var sp := cfg.plan[nextPlan];
      var f := sp.fileIdx;
      nextPlan := nextPlan + 1;
      if files[f].needsWrite && !files[f].isOpen {
        SendCmd(OpenFile(f, cfg.size[f]));
        files := files[f := files[f].(isOpen := true)];
      }
      if sp.byteLen == 0 {
        files := files[f := files[f].(shardsPosted := files[f].shardsPosted + 1)];
        assert State(e) == TakeBody(cfg, rank, before);
        Close(f);
      } else {
        active := Some(Cursor(sp, 0, sp.ownerRank == rank, sp.byteOffset));
        assert State(e) == TakeBody(cfg, rank, before);
      }
    }

    /** The sub-broadcast loop: post the chunk in pieces of at most MAX_SUB_BCAST. */
    method PostSubs(ch: Chunk, slot: nat)
      requires Valid() && slot < cfg.depth
      modifies this`inFlight, this`nextRequest, this`posts, subs
      ensures Valid()
      ensures posts == old(posts) + SubPosts(ch, |chunks|, slot, 0)
      ensures inFlight == old(inFlight) + Entries(SubPosts(ch, |chunks|, slot, 0), |old(posts)|, slot, ch)
      ensures subs[..] == old(subs[..])[slot := old(subs[slot]) + |SubPosts(ch, |chunks|, slot, 0)|]
    {
      ghost var all := SubPosts(ch, |chunks|, slot, 0);
      var off := 0;
      ghost var done := 0;
      assert all[0..] == all;
      while off < ch.n
        invariant 0 <= off <= ch.n && 0 <= done <= |all| && nextRequest == |posts|
        invariant SubPosts(ch, |chunks|, slot, off) == all[done..]
        invariant posts == old(posts) + all[..done]
        invariant inFlight == old(inFlight) + Entries(all[..done], |old(posts)|, slot, ch)
        invariant subs[..] == old(subs[..])[slot := old(subs[slot]) + done]
      {
        var sub := Min(ch.n - off, MAX_SUB_BCAST);
        assert all[done] == Post(ch.root, sub, slot, |chunks|, off);
        assert all[done + 1..] == SubPosts(ch, |chunks|, slot, off + sub);
        assert all[..done + 1] == all[..done] + [all[done]];
        posts := posts + [Post(ch.root, sub, slot, |chunks|, off)];
        inFlight := inFlight + [InFlight(nextRequest, slot, ch.file, ch.n, ch.offset)];
        subs[slot] := subs[slot] + 1;
        nextRequest := nextRequest + 1;
        off := off + sub;
        done := done + 1;
      }
      assert done == |all| by { assert SubPosts(ch, |chunks|, slot, off) == []; }
      assert all[..done] == all;
    }

    /** The owner's read_exact into the front of the buffer. */
    method ReadInto(slot: nat, data: seq<Byte>)
      requires slot < bufs.Length && bufs[slot].Some? && |data| <= |bufs[slot].value|
      modifies bufs
      ensures bufs[..] == old(bufs[..])[slot := Some(data + old(bufs[slot].value)[|data|..])]
    {
      bufs[slot] := Some(data + bufs[slot].value[|data|..]);
    }

    /** Read the next chunk if this rank owns it, and post its broadcasts; `disk` is the file as the reader finds it. */
    method PostNext(disk: seq<Byte>, ghost e: Rank)
      requires Valid() && ShapeOk(cfg, State(e)) && CanPost(cfg, State(e)) && ReadOk(cfg, State(e))
      requires disk == e.disk[active.value.shard.fileIdx]
      modifies this, bufs, subs
      ensures Valid() && State(e) == PostChunk(cfg, old(State(e)))
    {
      hide Config.Valid, Config.ValidShard, Config.NeedsWrite, MaybeClose, SubPosts, Entries, SwapRemove, RoundUp;
      ghost var before := State(e);
      var c := active.value;
      var ch := NextChunk(cfg, c);
      var slot := free[0];
      assert slot < cfg.depth && bufs[slot].Some? && |bufs[slot].value| == cfg.chunk;
      free := free[1..];
      if c.isOwner {
        ReadInto(slot, disk[c.readerPos..c.readerPos + ch.n]);
      }
      assert bufs[..] == PostBody(cfg, before).bufs;
      PostSubs(ch, slot);
      Advance(c, ch, slot, before, e);
      if active == None {
        Close(ch.file);
      }
    }

    /** After the sub-broadcasts: count the chunk, and move the cursor or leave the shard. */
    method Advance(c: Cursor, ch: Chunk, slot: nat, ghost before: Rank, ghost e: Rank)
      requires Valid() && ShapeOk(cfg, before) && CanPost(cfg, before) && ReadOk(cfg, before)
      requires c == before.active.value && ch == NextChunk(cfg, c) && slot == before.free[0]
      requires State(e) == PostBody(cfg, before).(active := before.active, files := before.files,
                                                  chunks := before.chunks, places := before.places)
      modifies this
      ensures Valid() && State(e) == PostBody(cfg, before)
    {
      hide Config.Valid, Config.NeedsWrite, SubPosts, Entries, ShapeOk, ReadOk, PostBody;
      PostShape(cfg, before);
      ghost var _, _, _ := PostFields(cfg, before);
      places := places[slot := Flying(|chunks|, ch)];
      chunks := chunks + [ch];
      var fs := files[ch.file].(chunksInFlight := files[ch.file].chunksInFlight + 1);
      if c.nextPost + ch.n >= c.shard.byteLen {
        files := files[ch.file := fs.(shardsPosted := fs.shardsPosted + 1)];
        active := None;
      } else {
        files := files[ch.file := fs];
        active := Some(c.(nextPost := c.nextPost + ch.n, readerPos := if c.isOwner then c.readerPos + ch.n else c.readerPos));
      }
    }

    /** An acknowledgement has come in, by try_recv or by the blocking recv. */
    method Acknowledge(a: Ack, ghost e: Rank)
      requires Valid() && ShapeOk(cfg, State(e)) && CanAck(State(e)) && a == e.acks[0]
      modifies this, bufs
      ensures Valid() && State(e.(acks := e.acks[1..])) == TakeAck(cfg, old(State(e)))
    {
      hide Config.Valid, Config.ValidShard, Config.NeedsWrite, MaybeClose;
      ghost var before := State(e);
      bufs[a.slot] := Some(a.buf);
      free := free + [a.slot];
      pending := pending - 1;
      files := files[a.file := files[a.file].(writesInFlight := files[a.file].writesInFlight - 1)];
      places := places[a.slot := Free];
      pc := if pc.AckWait? then Posting else Draining;
      assert bufs[..] == before.bufs[a.slot := Some(a.buf)];
      assert State(e.(acks := e.acks[1..])) == AckBody(before);
      Close(a.file);
    }

    /** MPI_Waitany has handed back flight entry `i`. */
    method Completed(i: nat, ghost e: Rank)
      requires Valid() && ShapeOk(cfg, State(e)) && CanReap(cfg, State(e), i)
      modifies this, bufs, subs
      ensures Valid() && State(e) == Reap(cfg, old(State(e)), i)
    {
      hide Config.Valid, Config.ValidShard, Config.NeedsWrite, MaybeClose, SwapRemove;
      ghost var before := State(e);
      var d := inFlight[i];
      inFlight := SwapRemove(inFlight, i);
      subs[d.slot] := subs[d.slot] - 1;
      pc := Posting;
      assert subs[..] == before.subs[d.slot := before.subs[d.slot] - 1];
      if subs[d.slot] > 0 {
        return;
      }
      Settle(d, i, before, e);
      Close(d.file);
    }

    /** The last sub-broadcast of a slot is in: on to the writer, or straight back to the free deque. */
    method Settle(d: InFlight, ghost i: nat, ghost before: Rank, ghost e: Rank)
      requires Valid() && ShapeOk(cfg, before) && CanReap(cfg, before, i) && d == before.inFlight[i]
      requires before.subs[d.slot] <= 1
      requires State(e) == before.(pc := Posting, inFlight := SwapRemove(before.inFlight, i),
                                   subs := before.subs[d.slot := before.subs[d.slot] - 1])
      modifies this, bufs
      ensures Valid() && State(e) == ReapBody(cfg, before, i)
      ensures |sent| == cfg.writers && d.file in files
    {
      hide Config.Valid, Config.NeedsWrite, SwapRemove, Config.WriterOf;
      if files[d.file].needsWrite {
        HandOver(d, i, before, e);
      } else {
        files := files[d.file := files[d.file].(chunksInFlight := files[d.file].chunksInFlight - 1)];
        free := free + [d.slot];
        places := places[d.slot := Free];
      }
    }

    /** The buffer leaves its slot and goes to the file's writer. */
    method HandOver(d: InFlight, ghost i: nat, ghost before: Rank, ghost e: Rank)
      requires Valid() && ShapeOk(cfg, before) && CanReap(cfg, before, i) && d == before.inFlight[i]
      requires before.subs[d.slot] <= 1 && before.files[d.file].needsWrite
      requires State(e) == before.(pc := Posting, inFlight := SwapRemove(before.inFlight, i),
                                   subs := before.subs[d.slot := before.subs[d.slot] - 1])
      modifies this, bufs
      ensures Valid() && State(e) == ReapBody(cfg, before, i)
      ensures |sent| == cfg.writers && d.file in files
    {
      hide Config.Valid, Config.NeedsWrite, SwapRemove, Config.WriterOf;
      Positive(cfg);
      var fs := files[d.file];
      var buf := bufs[d.slot].value;
      bufs[d.slot] := None;
      assert bufs[..] == before.bufs[d.slot := None];
      places := places[d.slot := Queued(places[d.slot].c, places[d.slot].chunk, |sent[cfg.WriterOf(d.file)]|)];
      SendCmd(Write(d.file, d.slot, d.n, d.offset, buf));
      pending := pending + 1;
      files := files[d.file := fs.(chunksInFlight := fs.chunksInFlight - 1, writesInFlight := fs.writesInFlight + 1)];
    }

    /** The posting loop. `disk` is what the reader finds; the environment keeps the invariant. */
    method FillSlots(disk: seq<seq<Byte>>, ghost e: Rank, ghost src: seq<seq<Byte>>)
      requires Valid() && Inv(cfg, rank, src, State(e)) && pc == Posting && disk == e.disk
      modifies this, bufs, subs
      ensures Valid() && Inv(cfg, rank, src, State(e))
      ensures State(e) == Fill(cfg, rank, old(State(e)))
      ensures pc == Posting && (free == [] || !WorkLeft(cfg, State(e)))
    {
      hide CoreInv, EagerInv, PcInv, Fill, Take, PostChunk, Config.Valid, ShapeOk, ReadOk, ShardsLeft, BytesLeft;
      ghost var goal := Fill(cfg, rank, State(e));
      while free != []
        invariant Valid() && Inv(cfg, rank, src, State(e)) && pc == Posting
        invariant Fill(cfg, rank, State(e)) == goal
        decreases ShardsLeft(cfg, State(e)), BytesLeft(State(e))
      {
        ghost var s := State(e);
        if active == None {
          if nextPlan >= |cfg.plan| {
            break;
          }
          TakeKeeps(cfg, rank, src, s);
          TakeShrinks(cfg, rank, s);
          FillTakes(cfg, rank, s);
          TakeShard(e);
        } else {
          ReadIsOk(cfg, rank, src, s);
          PostKeeps(cfg, rank, src, s);
          PostShrinks(cfg, s);
          FillPosts(cfg, rank, s);
          PostNext(disk[active.value.shard.fileIdx], e);
        }
      }
      FillEnds(cfg, rank, State(e));
    }

    /** The drain: `arrived` is what the channel holds. */
    method DrainAcks(arrived: seq<Ack>, ghost e: Rank, ghost src: seq<seq<Byte>>)
      requires Valid() && Inv(cfg, rank, src, State(e)) && pc == Draining && arrived == e.acks
      modifies this, bufs
      ensures Valid() && Inv(cfg, rank, src, State(e.(acks := [])))
      ensures State(e.(acks := [])) == Drain(cfg, old(State(e))) && pc == Draining
    {
      hide CoreInv, EagerInv, PcInv, Drain, TakeAck, Config.Valid, ShapeOk, CanAck;
      ghost var goal := Drain(cfg, State(e));
      var i := 0;
      while i < |arrived|
        invariant 0 <= i <= |arrived| && Valid() && pc == Draining
        invariant Inv(cfg, rank, src, State(e.(acks := arrived[i..])))
        invariant Drain(cfg, State(e.(acks := arrived[i..]))) == goal
      {
        ghost var now := e.(acks := arrived[i..]);
        AckIsOk(cfg, rank, src, State(now));
        AckKeeps(cfg, rank, src, State(now));
        DrainTakes(cfg, rank, src, State(now));
        Acknowledge(arrived[i], now);
        assert arrived[i..][1..] == arrived[i + 1..];
        i := i + 1;
      }
      DrainEnds(cfg, State(e.(acks := arrived[i..])));
    }
  }

  /** One writer thread: the files it has open, with the size each is to end with. */
  class Writer {
    const cfg: Config
    const index: nat
    var files: map<nat, nat>

    constructor (cfg: Config, index: nat)
      ensures this.cfg == cfg && this.index == index && files == map[]
    {
      this.cfg, this.index, files := cfg, index, map[];
    }

    /** The stage in state `e` hands this writer `cmd`, and `content` is the file it names. */
    ghost predicate Receives(e: Rank, cmd: Cmd, content: seq<Byte>, had: map<nat, nat>) {
      && CanWrite(cfg, e, index) && e.sent[index][e.received[index]] == cmd
      && e.open[index] == had && e.disk[cmd.file] == content
    }

    /** One turn of writer_loop; a write to a file that is not open fails and leaves the file alone. */
    method Turn(cmd: Cmd, content: seq<Byte>) returns (after: seq<Byte>, ack: Option<Ack>, failed: bool)
      requires cmd.Write? ==> |cmd.buf| == cfg.chunk
      modifies this
      ensures failed <==> cmd.Write? && cmd.file !in old(files)
      ensures failed ==> after == content && files == old(files)
      ensures ack.Some? <==> cmd.Write?
      ensures forall e: Rank | Receives(e, cmd, content, old(files)) ::
                var t := WriterStep(cfg, e, index);
                && !failed && t.open[index] == files && t.disk[cmd.file] == after
                && t.acks == e.acks + if ack.Some? then [ack.value] else []
    {
      after, ack, failed := content, None, false;
      match cmd
      case OpenFile(f, size) =>
        files := files[f := size];
      case Write(f, slot, n, offset, buf) =>
        if f in files {
          after := WriteAt(content, offset, buf[..WriteLen(cfg, n)]);
        } else {
          failed := true;
        }
        ack := Some(Ack(slot, f, buf));
      case CloseFile(f) =>
        if f in files {
          if cfg.direct {
            after := SetLen(content, files[f]);
          }
          files := files - {f};
        }
    }
  }
}
