/** Starting a shard keeps the invariant. */
module PipelineTake {
  import opened Types
  import opened Counting
  import opened PipelineModel
  import opened PipelineInv
  import opened PipelineClose

  lemma TakeFields(cfg: Config, r: nat, s: Rank)
    requires cfg.Valid() && ShapeOk(cfg, s) && CanTake(cfg, s)
    ensures Taken(cfg, r, s, TakeBody(cfg, r, s))
  {
    hide Config.WriterOf;
  }

  lemma TakePos(cfg: Config, r: nat, s: Rank, t: Rank)
    requires PosInv(cfg, r, s) && s.active.None? && s.nextPlan < |cfg.plan|
    requires Taken(cfg, r, s, t)
    ensures PosInv(cfg, r, t)
  {
    var rest := cfg.plan[s.nextPlan..];
    assert rest[0] == cfg.plan[s.nextPlan] && rest[1..] == cfg.plan[t.nextPlan..];
    assert Remaining(cfg, t) == Remaining(cfg, s);
  }

  lemma TakeCount(cfg: Config, r: nat, s: Rank, t: Rank)
    requires CountInv(cfg, r, s) && s.active.None? && s.nextPlan < |cfg.plan|
    requires Taken(cfg, r, s, t)
    ensures CountInv(cfg, r, t)
  {
    hide Config.NeedsWrite, Count, FlyingOf, WritingOf, Writing, FileCounts, OfFile, Config.Planned;
    forall g | g in t.files
      ensures FileCounts(cfg, r, t, g)
    {
      CountAt(cfg, r, s, g);
      TakeFileCounts(cfg, r, s, t, g);
    }
  }

  lemma TakeFileCounts(cfg: Config, r: nat, s: Rank, t: Rank, g: nat)
    requires s.nextPlan < |cfg.plan| && s.active.None? && Taken(cfg, r, s, t)
    requires g in s.files && FileCounts(cfg, r, s, g)
    ensures FileCounts(cfg, r, t, g)
  {
    hide Config.NeedsWrite, Send;
    assert cfg.plan[..t.nextPlan][..s.nextPlan] == cfg.plan[..s.nextPlan];
  }

  lemma CountBehind(plan: seq<ShardSpec>, i: nat)
    requires i < |plan|
    ensures Count(plan[..i], OfFile(plan[i].fileIdx)) < Count(plan, OfFile(plan[i].fileIdx))
  {
    var p := OfFile(plan[i].fileIdx);
    assert plan == plan[..i] + plan[i..];
    CountAppend(plan[..i], plan[i..], p);
    CountZero(plan[i..], p);
    assert p(plan[i..][0]);
  }

  /** The next shard of the plan belongs to a file that is not finished. */
  lemma NotYetClosed(cfg: Config, r: nat, s: Rank)
    requires CountInv(cfg, r, s) && LifeInv(cfg, r, s) && s.active.None? && s.nextPlan < |cfg.plan|
    ensures cfg.plan[s.nextPlan].fileIdx in s.files
    ensures !s.files[cfg.plan[s.nextPlan].fileIdx].isClosed
    ensures s.files[cfg.plan[s.nextPlan].fileIdx].shardsPosted < s.files[cfg.plan[s.nextPlan].fileIdx].shardsTotal
  {
    hide CountInv, LifeInv, LifeOf, Count, OfFile;
    PlanAt(cfg, r, s, s.nextPlan);
    var f := cfg.plan[s.nextPlan].fileIdx;
    CountAt(cfg, r, s, f);
    LifeAt(cfg, r, s, f);
    CountBehind(cfg.plan, s.nextPlan);
  }

  predicate Taken(cfg: Config, r: nat, s: Rank, t: Rank)
    requires s.nextPlan < |cfg.plan|
  {
    var sp := cfg.plan[s.nextPlan];
    var f := sp.fileIdx;
    && f in s.files && f < |cfg.size| && 0 < cfg.writers == |s.sent|
    && t == s.(nextPlan := s.nextPlan + 1, sent := t.sent, files := t.files, active := t.active)
    && (if s.files[f].needsWrite && !s.files[f].isOpen
        then t.sent == Send(s, cfg, OpenFile(f, cfg.size[f])).sent else t.sent == s.sent)
    && t.active == (if sp.byteLen == 0 then None else Some(Cursor(sp, 0, sp.ownerRank == r, sp.byteOffset)))
    && t.files == s.files[f := s.files[f].(
         isOpen := s.files[f].isOpen || s.files[f].needsWrite,
         shardsPosted := s.files[f].shardsPosted + if sp.byteLen == 0 then 1 else 0)]
  }

  lemma TakeFileLife(cfg: Config, r: nat, s: Rank, t: Rank, g: nat)
    requires s.nextPlan < |cfg.plan| && Taken(cfg, r, s, t) && g in s.files && FileLife(cfg, s, g)
    requires !s.files[cfg.plan[s.nextPlan].fileIdx].isClosed
    ensures FileLife(cfg, t, g)
  {
    hide Config.WriterOf, LifeOf;
    var f := cfg.plan[s.nextPlan].fileIdx;
    if s.files[f].needsWrite && !s.files[f].isOpen {
      SendFrame(cfg, s, OpenFile(f, cfg.size[f]));
    }
  }

  lemma TakeOpens(cfg: Config, r: nat, s: Rank, t: Rank)
    requires |s.sent| == cfg.writers && SentOpens(cfg, s) && s.nextPlan < |cfg.plan| && Taken(cfg, r, s, t)
    ensures |t.sent| == cfg.writers && SentOpens(cfg, t)
  {
    hide Config.WriterOf, Config.NeedsWrite, LifeOf;
    var f := cfg.plan[s.nextPlan].fileIdx;
    if s.files[f].needsWrite && !s.files[f].isOpen {
      SendFrame(cfg, s, OpenFile(f, cfg.size[f]));
    }
  }

  lemma TakeInTime(cfg: Config, r: nat, s: Rank, t: Rank)
    requires |s.places| == cfg.depth && InTime(cfg, s) && s.nextPlan < |cfg.plan| && Taken(cfg, r, s, t)
    requires !s.files[cfg.plan[s.nextPlan].fileIdx].isClosed
    ensures InTime(cfg, t)
  {
    hide Send;
  }

  lemma TakeLife(cfg: Config, r: nat, s: Rank, t: Rank)
    requires CountInv(cfg, r, s) && LifeInv(cfg, r, s) && s.active.None? && s.nextPlan < |cfg.plan| && Taken(cfg, r, s, t)
    ensures LifeInv(cfg, r, t)
  {
    hide Config.WriterOf, Config.NeedsWrite, CountInv, FileLife, Send, SentOpens, InTime, LifeOf, Count;
    NotYetClosed(cfg, r, s);
    CountAt(cfg, r, s, cfg.plan[s.nextPlan].fileIdx);
    TakeOpens(cfg, r, s, t);
    forall g | g in t.files
      ensures FileLife(cfg, t, g)
    {
      LifeAt(cfg, r, s, g);
      TakeFileLife(cfg, r, s, t, g);
    }
    TakeInTime(cfg, r, s, t);
  }

  lemma TakeKeeps(cfg: Config, r: nat, src: seq<seq<Byte>>, s: Rank)
    requires Inv(cfg, r, src, s) && CanTake(cfg, s)
    ensures ShapeOk(cfg, s)
    ensures Inv(cfg, r, src, Take(cfg, r, s))
  {
    hide TakeBody, ShapeOk, MaybeClose, LifeOf, Config.Valid, SourceOk, SlotInv, QueueInv, FlightInv, PosInv, CountInv, LifeInv, OpenInv, ContentInv, SizeInv;
    ShapeFromInv(cfg, r, src, s);
    TakeFields(cfg, r, s);
    var t := TakeBody(cfg, r, s);
    var f := cfg.plan[s.nextPlan].fileIdx;
    SlotFrame(cfg, s, t);
    FlightFrame(cfg, s, t);
    TakePos(cfg, r, s, t);
    TakeCount(cfg, r, s, t);
    TakeLife(cfg, r, s, t);
    SizeFrame(cfg, s, t);
    if t.sent == s.sent {
      QueueFrame(cfg, s, t);
      OpenSame(cfg, s, t);
      ContentFrame(cfg, r, src, s, t);
    } else {
      QueueSend(cfg, s, OpenFile(f, cfg.size[f]), t);
      OpenFrame(cfg, s, OpenFile(f, cfg.size[f]), t);
      ContentSend(cfg, r, src, s, OpenFile(f, cfg.size[f]), t);
    }
    assert CoreInv(cfg, r, src, t);
    assert EagerInv(t, {f});
    if t.active.None? {
      CloseKeeps(cfg, r, src, t, f);
    } else {
      NotYetClosed(cfg, r, s);
    }
  }
}
