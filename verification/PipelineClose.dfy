/** Closing a file as soon as it is finished keeps the invariant, and is what makes it prompt. */
module PipelineClose {
  import opened Types
  import opened Counting
  import opened PipelineModel
  import opened PipelineInv

  // Reading one instance out of a group.

  lemma CountAt(cfg: Config, r: nat, s: Rank, f: nat)
    requires CountInv(cfg, r, s) && f in s.files
    ensures |s.places| == cfg.depth && s.nextPlan <= |cfg.plan| && f < |cfg.size| && FileCounts(cfg, r, s, f)
  {
  }

  lemma LifeAt(cfg: Config, r: nat, s: Rank, f: nat)
    requires LifeInv(cfg, r, s) && f in s.files
    ensures 0 < cfg.writers == |s.sent| && FileLife(cfg, s, f)
  {
  }

  lemma PlanAt(cfg: Config, r: nat, s: Rank, i: nat)
    requires CountInv(cfg, r, s) && i < |cfg.plan|
    ensures cfg.plan[i].fileIdx in s.files && cfg.plan[i].fileIdx < |cfg.size|
  {
  }

  lemma ShapeFromInv(cfg: Config, r: nat, src: seq<seq<Byte>>, s: Rank)
    requires CoreInv(cfg, r, src, s)
    ensures ShapeOk(cfg, s)
  {
    hide QueueInv, FlightInv, PosInv, LifeInv, OpenInv, ContentInv, SizeInv, FileCounts, Config.NeedsWrite, Count;
  }

  lemma LifeAppend(log: seq<Cmd>, cmd: Cmd, f: nat)
    ensures LifeOf(log + [cmd], f) == LifeStep(LifeOf(log, f), cmd, f)
  {
    assert (log + [cmd])[..|log|] == log;
  }

  /** Sending a command leaves everything queued before it in place. */
  lemma SendFrame(cfg: Config, s: Rank, cmd: Cmd)
    requires 0 < cfg.writers == |s.sent|
    ensures var t := Send(s, cfg, cmd);
            && |t.sent| == |s.sent|
            && (forall w | 0 <= w < |s.sent| ::
                  t.sent[w] == if w == cfg.WriterOf(cmd.file) then s.sent[w] + [cmd] else s.sent[w])
            && (forall f: nat :: LifeOf(t.sent[cfg.WriterOf(f)], f) == LifeStep(LifeOf(s.sent[cfg.WriterOf(f)], f), cmd, f))
  {
    var t := Send(s, cfg, cmd);
    forall f: nat
      ensures LifeOf(t.sent[cfg.WriterOf(f)], f) == LifeStep(LifeOf(s.sent[cfg.WriterOf(f)], f), cmd, f)
    {
      if cfg.WriterOf(f) == cfg.WriterOf(cmd.file) {
        LifeAppend(s.sent[cfg.WriterOf(f)], cmd, f);
      }
    }
  }

  lemma OpenFrame(cfg: Config, s: Rank, cmd: Cmd, t: Rank)
    requires OpenInv(cfg, s) && 0 < cfg.writers
    requires t.sent == Send(s, cfg, cmd).sent && t.received == s.received && t.open == s.open
    ensures OpenInv(cfg, t)
  {
    hide LifeOf, Config.WriterOf;
    SendFrame(cfg, s, cmd);
    forall w: nat, f: nat | w < cfg.writers
      ensures OpenOk(cfg, t, w, f)
    {
      assert OpenOk(cfg, s, w, f);
      assert t.sent[w][..t.received[w]] == s.sent[w][..s.received[w]];
    }
  }

  lemma QueueSend(cfg: Config, s: Rank, cmd: Cmd, t: Rank)
    requires QueueInv(cfg, s) && !cmd.Write? && cmd.file in s.files
    requires t.sent == Send(s, cfg, cmd).sent && t.received == s.received
    requires t.places == s.places && t.acks == s.acks && t.files.Keys == s.files.Keys
    ensures QueueInv(cfg, t)
  {
    hide Config.WriterOf, LifeOf;
    SendFrame(cfg, s, cmd);
    forall x | 0 <= x < cfg.depth && t.places[x].Queued?
      ensures QueuedAt(cfg, t, x)
    {
      assert QueuedAt(cfg, s, x);
    }
  }

  lemma QueueFrame(cfg: Config, s: Rank, t: Rank)
    requires QueueInv(cfg, s)
    requires t.sent == s.sent && t.received == s.received
    requires t.places == s.places && t.acks == s.acks && t.files.Keys == s.files.Keys
    ensures QueueInv(cfg, t)
  {
    hide Config.WriterOf;
    forall x | 0 <= x < cfg.depth && t.places[x].Queued?
      ensures QueuedAt(cfg, t, x)
    {
      assert QueuedAt(cfg, s, x);
    }
  }

  lemma ContentSend(cfg: Config, r: nat, src: seq<seq<Byte>>, s: Rank, cmd: Cmd, t: Rank)
    requires ContentInv(cfg, r, src, s)
    requires t.sent == Send(s, cfg, cmd).sent && t.files.Keys == s.files.Keys && t.places == s.places
    requires t.disk == s.disk && t.bufs == s.bufs && t.chunks == s.chunks && t.posts == s.posts && t.completed == s.completed
    ensures ContentInv(cfg, r, src, t)
  {
    hide Config.WriterOf, Base, RangeOk, HoldsPart, LifeOf;
    SendFrame(cfg, s, cmd);
    assert forall c: nat | c < |t.chunks| && Carried(s, c) :: Carried(t, c);
    forall x | 0 <= x < cfg.depth && t.places[x].Queued?
      ensures QueuedBytes(cfg, src, t, x)
    {
      assert QueuedBytes(cfg, src, s, x);
    }
  }

  lemma ContentFrame(cfg: Config, r: nat, src: seq<seq<Byte>>, s: Rank, t: Rank)
    requires ContentInv(cfg, r, src, s)
    requires t.sent == s.sent && t.files.Keys == s.files.Keys && t.places == s.places
    requires t.disk == s.disk && t.bufs == s.bufs && t.chunks == s.chunks && t.posts == s.posts && t.completed == s.completed
    ensures ContentInv(cfg, r, src, t)
  {
    hide Config.WriterOf, Base, RangeOk, HoldsPart;
    assert forall c: nat | c < |t.chunks| && Carried(s, c) :: Carried(t, c);
    forall x | 0 <= x < cfg.depth && t.places[x].Queued?
      ensures QueuedBytes(cfg, src, t, x)
    {
      assert QueuedBytes(cfg, src, s, x);
    }
  }

  lemma CloseCount(cfg: Config, r: nat, s: Rank, f: nat)
    requires CountInv(cfg, r, s) && f in s.files && 0 < cfg.writers == |s.sent|
    ensures CountInv(cfg, r, MaybeClose(cfg, s, f))
  {
    var t := MaybeClose(cfg, s, f);
    forall g | g in t.files
      ensures FileCounts(cfg, r, t, g)
    {
      assert FileCounts(cfg, r, s, g);
    }
  }

  /** A file about to be closed has nothing outstanding. */
  lemma NothingLeft(cfg: Config, r: nat, s: Rank, f: nat)
    requires CountInv(cfg, r, s) && PosInv(cfg, r, s) && f in s.files
    requires s.files[f].shardsPosted == s.files[f].shardsTotal
    requires s.files[f].chunksInFlight == 0 && s.files[f].writesInFlight == 0
    ensures forall x | 0 <= x < cfg.depth && !s.places[x].Free? :: s.places[x].chunk.file != f
    ensures s.active.Some? ==> s.active.value.shard.fileIdx != f
  {
    assert FileCounts(cfg, r, s, f);
    CountZero(s.places, FlyingOf(f));
    CountZero(s.places, WritingOf(f));
    ActiveBehind(cfg, r, s, f);
    forall x | 0 <= x < cfg.depth && !s.places[x].Free?
      ensures s.places[x].chunk.file != f
    {
      assert !FlyingOf(f)(s.places[x]) && !WritingOf(f)(s.places[x]);
    }
  }

  lemma CloseLife(cfg: Config, r: nat, s: Rank, f: nat)
    requires LifeInv(cfg, r, s) && CountInv(cfg, r, s) && PosInv(cfg, r, s) && f in s.files
    ensures LifeInv(cfg, r, MaybeClose(cfg, s, f))
  {
    hide Config.WriterOf, CountInv, PosInv, LifeOf;
    var t := MaybeClose(cfg, s, f);
    if t != s {
      SendFrame(cfg, s, CloseFile(f));
      NothingLeft(cfg, r, s, f);
      forall g | g in t.files
        ensures FileLife(cfg, t, g)
      {
        assert FileLife(cfg, s, g);
      }
    }
  }

  /** A file whose shards are all posted is not the one being posted. */
  lemma ActiveBehind(cfg: Config, r: nat, s: Rank, f: nat)
    requires PosInv(cfg, r, s) && f in s.files && FileCounts(cfg, r, s, f)
    ensures s.files[f].shardsPosted == s.files[f].shardsTotal ==> ActiveOn(s, f) == 0
  {
    CountAppend(cfg.plan[..s.nextPlan], cfg.plan[s.nextPlan..], OfFile(f));
    assert cfg.plan == cfg.plan[..s.nextPlan] + cfg.plan[s.nextPlan..];
  }

  /** The in-flight list is untouched by steps that leave its own fields alone. */
  lemma FlightFrame(cfg: Config, s: Rank, t: Rank)
    requires FlightInv(cfg, s)
    requires t.inFlight == s.inFlight && t.subs == s.subs && t.places == s.places && t.posts == s.posts
    requires t.completed == s.completed
    ensures FlightInv(cfg, t)
  {
    forall k: nat | k < |t.posts| && k !in t.completed
      ensures InFlightReq(t, k)
    {
      assert InFlightReq(s, k);
    }
    forall i | 0 <= i < |t.inFlight|
      ensures EntryOk(cfg, t, t.inFlight[i])
    {
      assert EntryOk(cfg, s, s.inFlight[i]);
    }
  }

  lemma CountFrame(cfg: Config, r: nat, s: Rank, t: Rank)
    requires CountInv(cfg, r, s)
    requires t.places == s.places && t.nextPlan == s.nextPlan && t.active == s.active && t.files == s.files
    requires t.pending == s.pending
    ensures CountInv(cfg, r, t)
  {
    hide Config.NeedsWrite, Config.Planned, Count;
    forall g | g in t.files
      ensures FileCounts(cfg, r, t, g)
    {
      assert FileCounts(cfg, r, s, g);
    }
  }

  lemma LifeFrame(cfg: Config, r: nat, s: Rank, t: Rank)
    requires LifeInv(cfg, r, s)
    requires t.sent == s.sent && t.places == s.places && t.active == s.active && t.files == s.files
    ensures LifeInv(cfg, r, t)
  {
    hide Config.WriterOf, Config.NeedsWrite, LifeOf;
    forall g | g in t.files
      ensures FileLife(cfg, t, g)
    {
      assert FileLife(cfg, s, g);
    }
  }

  lemma SlotFrame(cfg: Config, s: Rank, t: Rank)
    requires SlotInv(cfg, s)
    requires t.free == s.free && t.bufs == s.bufs && t.subs == s.subs && t.places == s.places && t.chunks == s.chunks
    ensures SlotInv(cfg, t)
  {
  }

  lemma PosFrame(cfg: Config, r: nat, s: Rank, t: Rank)
    requires PosInv(cfg, r, s)
    requires t.nextPlan == s.nextPlan && t.active == s.active && t.chunks == s.chunks && t.posts == s.posts
    ensures PosInv(cfg, r, t)
  {
  }

  lemma OpenSame(cfg: Config, s: Rank, t: Rank)
    requires OpenInv(cfg, s) && t.sent == s.sent && t.received == s.received && t.open == s.open
    ensures OpenInv(cfg, t)
  {
    hide LifeOf;
    forall w: nat, f: nat | w < cfg.writers
      ensures OpenOk(cfg, t, w, f)
    {
      assert OpenOk(cfg, s, w, f);
    }
  }

  lemma SizeFrame(cfg: Config, s: Rank, t: Rank)
    requires SizeInv(cfg, s)
    requires t.disk == s.disk && t.open == s.open && t.files.Keys == s.files.Keys
    ensures SizeInv(cfg, t)
  {
    hide Config.WriterOf;
  }

  lemma CloseFields(cfg: Config, s: Rank, f: nat)
    requires f in s.files && 0 < cfg.writers == |s.sent|
    ensures var t := MaybeClose(cfg, s, f);
            t == s || (t == s.(sent := t.sent, files := t.files)
                       && t.sent == Send(s, cfg, CloseFile(f)).sent
                       && t.files == s.files[f := s.files[f].(isClosed := true)])
    ensures Eager(MaybeClose(cfg, s, f), f)
    ensures forall g | g in s.files && g != f && Eager(s, g) :: Eager(MaybeClose(cfg, s, f), g)
  {
    hide Config.WriterOf;
  }

  lemma CloseKeeps(cfg: Config, r: nat, src: seq<seq<Byte>>, s: Rank, f: nat)
    requires CoreInv(cfg, r, src, s) && f in s.files && EagerInv(s, {f})
    ensures var t := MaybeClose(cfg, s, f);
            && CoreInv(cfg, r, src, t) && EagerInv(t, {})
            && t == s.(sent := t.sent, files := t.files) && t.files.Keys == s.files.Keys
  {
    hide MaybeClose, Eager, LifeOf, Config.Valid, SourceOk, SlotInv, QueueInv, FlightInv, PosInv, CountInv, LifeInv, OpenInv, ContentInv, SizeInv;
    var t := MaybeClose(cfg, s, f);
    CloseFields(cfg, s, f);
    if t != s {
      SlotFrame(cfg, s, t);
      QueueSend(cfg, s, CloseFile(f), t);
      FlightFrame(cfg, s, t);
      PosFrame(cfg, r, s, t);
      CloseCount(cfg, r, s, f);
      CloseLife(cfg, r, s, f);
      ContentSend(cfg, r, src, s, CloseFile(f), t);
      OpenFrame(cfg, s, CloseFile(f), t);
      SizeFrame(cfg, s, t);
    }
  }

  /** An occupied slot carries a posted chunk. */
  lemma SlotChunkAt(cfg: Config, s: Rank, x: nat)
    requires SlotInv(cfg, s) && x < cfg.depth && !s.places[x].Free?
    ensures s.places[x].c < |s.chunks| && s.chunks[s.places[x].c] == s.places[x].chunk
  {
  }
}
