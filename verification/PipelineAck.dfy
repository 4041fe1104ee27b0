/** Taking an acknowledgement, and the two silent steps of the loop, keep the invariant. */
module PipelineAck {
  import opened Types
  import opened Counting
  import opened PipelineModel
  import opened PipelineInv
  import opened PipelineClose

  lemma AckIsOk(cfg: Config, r: nat, src: seq<seq<Byte>>, s: Rank)
    requires CoreInv(cfg, r, src, s) && (s.pc.Draining? || s.pc.AckWait?) && s.acks != []
    ensures ShapeOk(cfg, s) && CanAck(s)
  {
    ShapeFromInv(cfg, r, src, s);
    hide ShapeOk, SlotInv, FlightInv, PosInv, LifeInv, OpenInv, ContentInv, SizeInv, FileCounts, Count, Config.NeedsWrite, Config.WriterOf;
  }

  predicate Acknowledged(s: Rank, t: Rank, a: Ack) {
    && s.acks != [] && a == s.acks[0] && a.slot < |s.bufs| && a.slot < |s.places| && a.file in s.files
    && t == s.(pc := t.pc, acks := s.acks[1..], bufs := s.bufs[a.slot := Some(a.buf)], free := s.free + [a.slot],
               pending := s.pending - 1,
               files := s.files[a.file := s.files[a.file].(writesInFlight := s.files[a.file].writesInFlight - 1)],
               places := s.places[a.slot := Free])
  }

  lemma AckSlot(cfg: Config, s: Rank, t: Rank, a: Ack)
    requires SlotInv(cfg, s) && Acknowledged(s, t, a) && s.places[a.slot].Acked? && |a.buf| == cfg.chunk
    ensures SlotInv(cfg, t)
  {
    forall x: nat | x < cfg.depth && t.places[x].Free?
      ensures x in t.free
    {
      if x == a.slot {
        assert t.free[|s.free|] == x;
      } else {
        assert x in s.free;
      }
    }
  }

  lemma AckQueue(cfg: Config, s: Rank, t: Rank, a: Ack)
    requires QueueInv(cfg, s) && Acknowledged(s, t, a)
    ensures QueueInv(cfg, t)
  {
    hide Config.WriterOf;
    forall x | 0 <= x < cfg.depth && t.places[x].Queued?
      ensures QueuedAt(cfg, t, x)
    {
      assert QueuedAt(cfg, s, x);
    }
    forall x | 0 <= x < cfg.depth && t.places[x].Acked?
      ensures exists i :: 0 <= i < |t.acks| && t.acks[i].slot == x
    {
      var i :| 0 <= i < |s.acks| && s.acks[i].slot == x;
      assert t.acks[i - 1].slot == x;
    }
  }

  lemma AckFlight(cfg: Config, s: Rank, t: Rank, a: Ack)
    requires FlightInv(cfg, s) && Acknowledged(s, t, a) && s.places[a.slot].Acked?
    ensures FlightInv(cfg, t)
  {
    hide Count;
    forall i | 0 <= i < |t.inFlight|
      ensures EntryOk(cfg, t, t.inFlight[i])
    {
      assert EntryOk(cfg, s, s.inFlight[i]);
    }
    forall k: nat | k < |t.posts| && k !in t.completed
      ensures InFlightReq(t, k)
    {
      assert InFlightReq(s, k);
    }
  }

  lemma AckFileCounts(cfg: Config, r: nat, s: Rank, t: Rank, a: Ack, g: nat)
    requires Acknowledged(s, t, a) && s.places[a.slot].Acked? && s.places[a.slot].chunk.file == a.file
    requires s.nextPlan <= |cfg.plan| && g in s.files && FileCounts(cfg, r, s, g)
    ensures FileCounts(cfg, r, t, g)
  {
    hide Config.NeedsWrite, Count;
    CountUpdate(s.places, a.slot, Free, FlyingOf(g));
    CountUpdate(s.places, a.slot, Free, WritingOf(g));
  }

  lemma AckCount(cfg: Config, r: nat, s: Rank, t: Rank, a: Ack)
    requires CountInv(cfg, r, s) && Acknowledged(s, t, a)
    requires s.places[a.slot].Acked? && s.places[a.slot].chunk.file == a.file
    ensures CountInv(cfg, r, t)
  {
    hide Config.NeedsWrite, Count, FileCounts, Config.Planned;
    CountUpdate(s.places, a.slot, Free, Writing());
    forall g | g in t.files
      ensures FileCounts(cfg, r, t, g)
    {
      CountAt(cfg, r, s, g);
      AckFileCounts(cfg, r, s, t, a, g);
    }
  }

  lemma AckLife(cfg: Config, r: nat, s: Rank, t: Rank, a: Ack)
    requires LifeInv(cfg, r, s) && Acknowledged(s, t, a)
    ensures LifeInv(cfg, r, t)
  {
    hide Config.NeedsWrite, Config.WriterOf, LifeOf;
    forall g | g in t.files
      ensures FileLife(cfg, t, g)
    {
      assert FileLife(cfg, s, g);
    }
  }

  lemma AckContent(cfg: Config, r: nat, src: seq<seq<Byte>>, s: Rank, t: Rank, a: Ack)
    requires ContentInv(cfg, r, src, s) && Acknowledged(s, t, a) && s.places[a.slot].Acked?
    ensures ContentInv(cfg, r, src, t)
  {
    hide Config.WriterOf, Base, RangeOk, HoldsPart;
    forall c: nat | c < |t.chunks| && Carried(s, c)
      ensures Carried(t, c)
    {
      var x :| 0 <= x < |s.places| && (s.places[x].Flying? || s.places[x].Queued?) && s.places[x].c == c;
      assert t.places[x] == s.places[x];
    }
    forall x | 0 <= x < cfg.depth && t.places[x].Queued?
      ensures QueuedBytes(cfg, src, t, x)
    {
      assert QueuedBytes(cfg, src, s, x);
    }
  }

  lemma AckHead(cfg: Config, s: Rank)
    requires QueueInv(cfg, s) && s.acks != []
    ensures var a := s.acks[0];
            a.slot < cfg.depth == |s.places| && s.places[a.slot].Acked? && s.places[a.slot].chunk.file == a.file
            && |a.buf| == cfg.chunk
  {
    hide Config.WriterOf;
  }

  lemma AckKeeps(cfg: Config, r: nat, src: seq<seq<Byte>>, s: Rank)
    requires Inv(cfg, r, src, s) && ShapeOk(cfg, s) && CanAck(s)
    ensures Inv(cfg, r, src, TakeAck(cfg, s))
  {
    hide ShapeOk, MaybeClose, LifeOf, Config.Valid, SourceOk, SlotInv, QueueInv, FlightInv, PosInv, CountInv, LifeInv, OpenInv, ContentInv, SizeInv;
    var a := s.acks[0];
    var t := AckBody(s);
    AckHead(cfg, s);
    assert Acknowledged(s, t, a);
    AckSlot(cfg, s, t, a);
    AckQueue(cfg, s, t, a);
    AckFlight(cfg, s, t, a);
    PosFrame(cfg, r, s, t);
    AckCount(cfg, r, s, t, a);
    AckLife(cfg, r, s, t, a);
    OpenSame(cfg, s, t);
    AckContent(cfg, r, src, s, t, a);
    SizeFrame(cfg, s, t);
    CloseKeeps(cfg, r, src, t, a.file);
  }

  lemma PcKeeps(cfg: Config, r: nat, src: seq<seq<Byte>>, s: Rank, t: Rank)
    requires Inv(cfg, r, src, s) && t == s.(pc := t.pc) && PcInv(cfg, t)
    ensures Inv(cfg, r, src, t)
  {
    hide LifeOf, Config.Valid, SourceOk, SlotInv, QueueInv, FlightInv, PosInv, CountInv, LifeInv, OpenInv, ContentInv, SizeInv;
    SlotFrame(cfg, s, t);
    QueueFrame(cfg, s, t);
    FlightFrame(cfg, s, t);
    PosFrame(cfg, r, s, t);
    CountFrame(cfg, r, s, t);
    LifeFrame(cfg, r, s, t);
    OpenSame(cfg, s, t);
    ContentFrame(cfg, r, src, s, t);
    SizeFrame(cfg, s, t);
  }

  lemma EndPostingKeeps(cfg: Config, r: nat, src: seq<seq<Byte>>, s: Rank)
    requires Inv(cfg, r, src, s)
    ensures Inv(cfg, r, src, EndPosting(s))
  {
    hide CoreInv;
    PcKeeps(cfg, r, src, s, EndPosting(s));
  }

  lemma EndDrainKeeps(cfg: Config, r: nat, src: seq<seq<Byte>>, s: Rank)
    requires Inv(cfg, r, src, s)
    ensures Inv(cfg, r, src, EndDrain(cfg, s))
  {
    hide CoreInv;
    PcKeeps(cfg, r, src, s, EndDrain(cfg, s));
  }
}
