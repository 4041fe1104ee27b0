/** Every step uses up work, so every run is finite. */
module PipelineMeasure {
  import opened Types
  import opened Counting
  import opened PipelineModel
  import opened PipelineInv
  import opened PipelinePosts
  import opened PipelineClose
  import opened PipelineTake
  import opened PipelinePost
  import opened PipelineAck
  import opened PipelineReap
  import opened PipelineWrite
  import opened PipelineComplete
  import opened PipelineWorld
  import opened PipelineSafety

  // ---- what is left to do, in units of steps

  /** A chunk still to be posted: the post itself, its sub-broadcasts, and its way through the writer. */
  function ChunkWork(c: Chunk): nat { 4 + |SubPosts(c, 0, 0, 0)| }

  function ChunksWork(q: seq<Chunk>): nat {
    if q == [] then 0 else ChunkWork(q[0]) + ChunksWork(q[1..])
  }

  function PlaceWork(p: Place): int {
    match p
    case Free => 0
    case Flying(_, _) => 3
    case Queued(_, _, _) => 1
    case Acked(_, _) => 1
  }

  /** A file may still cost an Open and a Close command. */
  function FileWork(s: Rank, f: nat): int {
    if f !in s.files then 0 else (if s.files[f].isOpen then 0 else 1) + (if s.files[f].isClosed then 0 else 1)
  }

  function PlacesWork(s: Rank): int { Sum(seq(|s.places|, x requires 0 <= x < |s.places| => PlaceWork(s.places[x]))) }

  function FilesWork(cfg: Config, s: Rank): int { Sum(seq(|cfg.size|, f requires 0 <= f => FileWork(s, f))) }

  function CmdsWork(s: Rank): int
    requires |s.received| == |s.sent|
  {
    Sum(seq(|s.sent|, w requires 0 <= w < |s.sent| => |s.sent[w]| - s.received[w]))
  }

  function PhaseWork(pc: Pc): nat {
    match pc case Posting => 2 case Draining => 1 case _ => 0
  }

  function LocalWork(cfg: Config, s: Rank): int
    requires cfg.chunk > 0 && s.nextPlan <= |cfg.plan| && |s.received| == |s.sent|
  {
    |cfg.plan| - s.nextPlan + ChunksWork(Remaining(cfg, s)) + PlacesWork(s) + |s.inFlight| + FilesWork(cfg, s) + CmdsWork(s)
  }

  /** Of one rank: local work, where it is in its loop, and the broadcasts that have yet to complete at it. */
  function RankWork(cfg: Config, s: Rank): int
    requires cfg.chunk > 0 && s.nextPlan <= |cfg.plan| && |s.received| == |s.sent|
  {
    3 * LocalWork(cfg, s) + PhaseWork(s.pc) + |All(cfg) - s.completed|
  }

  function All(cfg: Config): set<nat>
    requires cfg.chunk > 0
  {
    Below(|Order(cfg)|)
  }

  function Below(n: nat): (r: set<nat>)
    ensures forall k: nat :: k in r <==> k < n
  {
    if n == 0 then {} else Below(n - 1) + {n - 1}
  }

  // ---- sums that change in one place

  lemma SumPoint(a: seq<int>, b: seq<int>, i: nat)
    requires |a| == |b| && i < |a|
    requires forall j | 0 <= j < |a| && j != i :: a[j] == b[j]
    ensures Sum(b) == Sum(a) - a[i] + b[i]
  {
    hide Sum;
    assert b == a[i := b[i]];
    SumUpdate(a, i, b[i]);
  }

  lemma PlacesPoint(s: Rank, t: Rank, x: nat)
    requires x < |s.places| == |t.places| && t.places == s.places[x := t.places[x]]
    ensures PlacesWork(t) == PlacesWork(s) - PlaceWork(s.places[x]) + PlaceWork(t.places[x])
  {
    hide PlaceWork, Sum;
    SumPoint(seq(|s.places|, y requires 0 <= y < |s.places| => PlaceWork(s.places[y])),
             seq(|t.places|, y requires 0 <= y < |t.places| => PlaceWork(t.places[y])), x);
  }

  lemma FilesPoint(cfg: Config, s: Rank, t: Rank, f: nat)
    requires f < |cfg.size| && f in s.files && f in t.files && t.files == s.files[f := t.files[f]]
    ensures FilesWork(cfg, t) == FilesWork(cfg, s) - FileWork(s, f) + FileWork(t, f)
  {
    hide Sum;
    SumPoint(seq(|cfg.size|, g requires 0 <= g => FileWork(s, g)), seq(|cfg.size|, g requires 0 <= g => FileWork(t, g)), f);
  }

  lemma CmdsPoint(s: Rank, t: Rank, w: nat)
    requires |s.received| == |s.sent| == |t.sent| == |t.received| && w < |s.sent|
    requires forall v | 0 <= v < |s.sent| && v != w :: t.sent[v] == s.sent[v] && t.received[v] == s.received[v]
    ensures CmdsWork(t) == CmdsWork(s) - (|s.sent[w]| - s.received[w]) + (|t.sent[w]| - t.received[w])
  {
    hide Sum;
    SumPoint(seq(|s.sent|, v requires 0 <= v < |s.sent| => |s.sent[v]| - s.received[v]),
             seq(|t.sent|, v requires 0 <= v < |t.sent| => |t.sent[v]| - t.received[v]), w);
  }

  lemma SendWork(cfg: Config, s: Rank, t: Rank, cmd: Cmd)
    requires 0 < cfg.writers == |s.sent| == |s.received| && t.sent == Send(s, cfg, cmd).sent && t.received == s.received
    ensures CmdsWork(t) == CmdsWork(s) + 1
  {
    hide LifeOf, Config.WriterOf, CmdsWork;
    SendFrame(cfg, s, cmd);
    CmdsPoint(s, t, cfg.WriterOf(cmd.file));
  }

  // ---- lower bounds

  lemma WorkIsNat(cfg: Config, r: nat, src: seq<seq<Byte>>, s: Rank)
    requires Inv(cfg, r, src, s)
    ensures s.nextPlan <= |cfg.plan| && |s.received| == |s.sent| && cfg.chunk > 0
    ensures LocalWork(cfg, s) >= 0 && RankWork(cfg, s) >= 0
  {
    hide SlotInv, FlightInv, PosInv, CountInv, LifeInv, OpenInv, ContentInv, SizeInv, Config.Valid, Sum, ChunksWork, Remaining, QueueInv;
    assert s.nextPlan <= |cfg.plan| by { PlanBound(cfg, r, s); }
    SumAtLeast(seq(|s.places|, x requires 0 <= x < |s.places| => PlaceWork(s.places[x])), 0);
    SumAtLeast(seq(|cfg.size|, f requires 0 <= f => FileWork(s, f)), 0);
    ReceivedBound(cfg, s);
    SumAtLeast(seq(|s.sent|, w requires 0 <= w < |s.sent| => |s.sent[w]| - s.received[w]), 0);
  }

  lemma PlanBound(cfg: Config, r: nat, s: Rank)
    requires PosInv(cfg, r, s)
    ensures s.nextPlan <= |cfg.plan| && cfg.chunk > 0
  {
  }

  lemma ReceivedBound(cfg: Config, s: Rank)
    requires QueueInv(cfg, s)
    ensures 0 < cfg.writers == |s.sent| == |s.received|
    ensures forall w | 0 <= w < |s.sent| :: s.received[w] <= |s.sent[w]|
  {
    hide Config.WriterOf;
  }

  // ---- each step

  /** A Close command is paid for by its file. */
  lemma CloseWork(cfg: Config, s: Rank, f: nat)
    requires cfg.chunk > 0 && s.nextPlan <= |cfg.plan| && 0 < cfg.writers == |s.sent| == |s.received|
    requires f in s.files && f < |cfg.size|
    ensures var t := MaybeClose(cfg, s, f);
            && t == s.(sent := t.sent, files := t.files) && |t.sent| == |s.sent|
            && LocalWork(cfg, t) == LocalWork(cfg, s)
  {
    hide Config.WriterOf, PlacesWork, FilesWork, CmdsWork, ChunksWork, PlanChunks, ShardChunks, Send, Eager;
    CloseFields(cfg, s, f);
    var t := MaybeClose(cfg, s, f);
    if t != s {
      hide MaybeClose;
      SendWork(cfg, s, t, CloseFile(f));
      SendFrame(cfg, s, CloseFile(f));
      FilesPoint(cfg, s, t, f);
      assert PlacesWork(t) == PlacesWork(s) by { SamePlaces(s, t); }
      assert Remaining(cfg, t) == Remaining(cfg, s);
      CloseFlags(cfg, s, f);
    }
  }

  lemma CloseFlags(cfg: Config, s: Rank, f: nat)
    requires f in s.files && 0 < cfg.writers == |s.sent|
    ensures MaybeClose(cfg, s, f) != s ==> !s.files[f].isClosed && s.files[f].isOpen
  {
    hide Config.WriterOf;
  }

  lemma SamePlaces(s: Rank, t: Rank)
    requires s.places == t.places
    ensures PlacesWork(t) == PlacesWork(s)
  {
    assert seq(|s.places|, x requires 0 <= x < |s.places| => PlaceWork(s.places[x]))
        == seq(|t.places|, x requires 0 <= x < |t.places| => PlaceWork(t.places[x]));
  }

  lemma SameFiles(cfg: Config, s: Rank, t: Rank)
    requires s.files == t.files
    ensures FilesWork(cfg, t) == FilesWork(cfg, s)
  {
    assert seq(|cfg.size|, f requires 0 <= f => FileWork(s, f)) == seq(|cfg.size|, f requires 0 <= f => FileWork(t, f));
  }

  lemma SameCmds(s: Rank, t: Rank)
    requires s.sent == t.sent && s.received == t.received && |s.received| == |s.sent|
    ensures CmdsWork(t) == CmdsWork(s)
  {
    assert seq(|s.sent|, w requires 0 <= w < |s.sent| => |s.sent[w]| - s.received[w])
        == seq(|t.sent|, w requires 0 <= w < |t.sent| => |t.sent[w]| - t.received[w]);
  }

  lemma TakeRemaining(cfg: Config, r: nat, s: Rank, t: Rank)
    requires cfg.chunk > 0 && s.active.None? && s.nextPlan < |cfg.plan| && Taken(cfg, r, s, t)
    ensures Remaining(cfg, t) == Remaining(cfg, s)
  {
    hide Send;
    var rest := cfg.plan[s.nextPlan..];
    assert rest[0] == cfg.plan[s.nextPlan] && rest[1..] == cfg.plan[t.nextPlan..];
  }

  lemma TakeBodyWork(cfg: Config, r: nat, s: Rank, t: Rank)
    requires cfg.chunk > 0 && s.active.None? && s.nextPlan < |cfg.plan| && Taken(cfg, r, s, t)
    requires |s.received| == |s.sent| && !s.files[cfg.plan[s.nextPlan].fileIdx].isClosed
    ensures |t.sent| == |s.sent| && LocalWork(cfg, t) == LocalWork(cfg, s) - 1
  {
    hide Config.WriterOf, PlacesWork, FilesWork, CmdsWork, ChunksWork, Remaining, Send;
    var f := cfg.plan[s.nextPlan].fileIdx;
    TakeRemaining(cfg, r, s, t);
    FilesPoint(cfg, s, t, f);
    SamePlaces(s, t);
    if !s.files[f].needsWrite || s.files[f].isOpen {
      SameCmds(s, t);
    } else {
      SendWork(cfg, s, t, OpenFile(f, cfg.size[f]));
      SendFrame(cfg, s, OpenFile(f, cfg.size[f]));
    }
  }

  lemma TakeWork(cfg: Config, r: nat, src: seq<seq<Byte>>, s: Rank)
    requires Inv(cfg, r, src, s) && ShapeOk(cfg, s) && CanTake(cfg, s)
    ensures var t := Take(cfg, r, s);
            && t.nextPlan <= |cfg.plan| && s.nextPlan <= |cfg.plan| && |t.sent| == |t.received| && |s.sent| == |s.received|
            && cfg.chunk > 0 && t.pc == s.pc && t.completed == s.completed
            && LocalWork(cfg, t) == LocalWork(cfg, s) - 1
  {
    hide LocalWork, TakeBody, MaybeClose, ShapeOk, Config.Valid, SlotInv, QueueInv, FlightInv, PosInv, CountInv, LifeInv, OpenInv, ContentInv, SizeInv;
    var f := cfg.plan[s.nextPlan].fileIdx;
    ReceivedBound(cfg, s);
    TakeFields(cfg, r, s);
    NotYetClosed(cfg, r, s);
    var t := TakeBody(cfg, r, s);
    TakeBodyWork(cfg, r, s, t);
    if t.active.None? {
      CloseWork(cfg, t, f);
    }
  }

  lemma PostBodyWork(cfg: Config, r: nat, s: Rank, t: Rank, slot: nat, ch: Chunk, data: seq<Byte>)
    requires PosInv(cfg, r, s) && Posted(cfg, s, t, slot, ch, data) && s.places[slot].Free?
    requires |s.received| == |s.sent| && ch.file < |cfg.size|
    ensures t.nextPlan == s.nextPlan <= |cfg.plan|
    ensures LocalWork(cfg, t) == LocalWork(cfg, s) - 1
  {
    hide Config.WriterOf, PlacesWork, FilesWork, CmdsWork, Remaining, SubPosts, AllPosts, PlanChunks, WellChunk;
    PostRemaining(cfg, r, s, t, slot, ch, data);
    FilesPoint(cfg, s, t, ch.file);
    PlacesPoint(s, t, slot);
    SameCmds(s, t);
    assert ([ch] + Remaining(cfg, t))[1..] == Remaining(cfg, t);
    SubCount(ch, |s.chunks|, slot, 0);
  }

  lemma SubCount(c: Chunk, index: nat, slot: nat, off: nat)
    ensures |SubPosts(c, index, slot, off)| == |SubPosts(c, 0, 0, off)|
    decreases c.n - off
  {
    if off < c.n {
      SubCount(c, index, slot, off + Min(c.n - off, MAX_SUB_BCAST));
    }
  }

  lemma PostWork(cfg: Config, r: nat, src: seq<seq<Byte>>, s: Rank)
    requires Inv(cfg, r, src, s) && ShapeOk(cfg, s) && CanPost(cfg, s) && ReadOk(cfg, s)
    ensures var t := PostChunk(cfg, s);
            && t.nextPlan <= |cfg.plan| && s.nextPlan <= |cfg.plan| && |t.sent| == |t.received| && |s.sent| == |s.received|
            && cfg.chunk > 0 && t.pc == s.pc && t.completed == s.completed
            && LocalWork(cfg, t) == LocalWork(cfg, s) - 1
  {
    hide LocalWork, PostBody, MaybeClose, ShapeOk, Config.Valid, SlotInv, QueueInv, FlightInv, PosInv, CountInv, LifeInv, OpenInv, ContentInv, SizeInv, SubPosts, Entries;
    ReceivedBound(cfg, s);
    PlanBound(cfg, r, s);
    var slot, ch, data := PostFields(cfg, s);
    var t := PostBody(cfg, s);
    PostSlot(cfg, s, t, slot, ch, data);
    CountAt(cfg, r, s, ch.file);
    PostBodyWork(cfg, r, s, t, slot, ch, data);
    if t.active.None? {
      CloseWork(cfg, t, ch.file);
    }
  }

  lemma AckBodyWork(cfg: Config, r: nat, s: Rank, t: Rank, a: Ack)
    requires cfg.chunk > 0 && s.nextPlan <= |cfg.plan| && Acknowledged(s, t, a) && s.places[a.slot].Acked?
    requires |s.received| == |s.sent| && a.file < |cfg.size|
    ensures LocalWork(cfg, t) == LocalWork(cfg, s) - 1
  {
    hide PlacesWork, FilesWork, CmdsWork, ChunksWork, PlanChunks, ShardChunks;
    FilesPoint(cfg, s, t, a.file);
    PlacesPoint(s, t, a.slot);
    SameCmds(s, t);
    assert Remaining(cfg, t) == Remaining(cfg, s);
  }

  lemma AckWork(cfg: Config, r: nat, src: seq<seq<Byte>>, s: Rank)
    requires Inv(cfg, r, src, s) && ShapeOk(cfg, s) && CanAck(s)
    ensures var t := TakeAck(cfg, s);
            && t.nextPlan <= |cfg.plan| && s.nextPlan <= |cfg.plan| && |t.sent| == |t.received| && |s.sent| == |s.received|
            && cfg.chunk > 0 && t.pc == (if s.pc.AckWait? then Posting else Draining) && t.completed == s.completed
            && LocalWork(cfg, t) == LocalWork(cfg, s) - 1
  {
    hide LocalWork, MaybeClose, ShapeOk, Config.Valid, SlotInv, QueueInv, FlightInv, PosInv, CountInv, LifeInv, OpenInv, ContentInv, SizeInv;
    ReceivedBound(cfg, s);
    PlanBound(cfg, r, s);
    var a := s.acks[0];
    var t := AckBody(s);
    AckHead(cfg, s);
    CountAt(cfg, r, s, a.file);
    assert Acknowledged(s, t, a);
    AckBodyWork(cfg, r, s, t, a);
    CloseWork(cfg, t, a.file);
  }

  lemma ReapBodyWork(cfg: Config, s: Rank, t: Rank, i: nat)
    requires cfg.chunk > 0 && s.nextPlan <= |cfg.plan| && Reaped(s, t, i) && 0 < cfg.writers == |s.sent| == |s.received|
    requires var e := s.inFlight[i];
             && e.file < |cfg.size|
             && ((t == s.(pc := Posting, inFlight := t.inFlight, subs := t.subs))
                 || (e.slot < |s.bufs| && s.bufs[e.slot].Some? && Queueing(cfg, s, t, i, s.bufs[e.slot].value))
                 || Freed(s, t, i))
    ensures t.nextPlan == s.nextPlan && |t.sent| == |t.received|
    ensures LocalWork(cfg, t) <= LocalWork(cfg, s) - 1
  {
    hide PlacesWork, FilesWork, CmdsWork, ChunksWork, PlanChunks, ShardChunks, Send, Config.WriterOf;
    var e := s.inFlight[i];
    assert |t.inFlight| == |s.inFlight| - 1;
    assert Remaining(cfg, t) == Remaining(cfg, s);
    if t == s.(pc := Posting, inFlight := t.inFlight, subs := t.subs) {
      SamePlaces(s, t);
      SameFiles(cfg, s, t);
      SameCmds(s, t);
    } else if Freed(s, t, i) {
      FilesPoint(cfg, s, t, e.file);
      PlacesPoint(s, t, e.slot);
      SameCmds(s, t);
    } else {
      var cmd := Write(e.file, e.slot, e.n, e.offset, s.bufs[e.slot].value);
      SendWork(cfg, s, t, cmd);
      SendFrame(cfg, s, cmd);
      FilesPoint(cfg, s, t, e.file);
      PlacesPoint(s, t, e.slot);
    }
  }

  lemma ReapWork(cfg: Config, r: nat, src: seq<seq<Byte>>, s: Rank, i: nat)
    requires Inv(cfg, r, src, s) && ShapeOk(cfg, s) && CanReap(cfg, s, i)
    ensures var t := Reap(cfg, s, i);
            && t.nextPlan <= |cfg.plan| && s.nextPlan <= |cfg.plan| && |t.sent| == |t.received| && |s.sent| == |s.received|
            && cfg.chunk > 0 && t.pc == Posting && t.completed == s.completed
            && LocalWork(cfg, t) <= LocalWork(cfg, s) - 1
  {
    hide LocalWork, ReapBody, MaybeClose, ShapeOk, Config.Valid, SlotInv, QueueInv, FlightInv, PosInv, CountInv, LifeInv, OpenInv, ContentInv, SizeInv, SwapRemove, Config.WriterOf;
    ReceivedBound(cfg, s);
    PlanBound(cfg, r, s);
    var e := s.inFlight[i];
    EntryAt(cfg, s, i);
    FlyingAt(cfg, s, e.slot);
    CountAt(cfg, r, s, e.file);
    ReapFields(cfg, s, i);
    var t := ReapBody(cfg, s, i);
    ReapBodyWork(cfg, s, t, i);
    if s.subs[e.slot] <= 1 {
      CloseWork(cfg, t, e.file);
    }
  }

  lemma TurnWork(cfg: Config, s: Rank, t: Rank, w: nat)
    requires cfg.chunk > 0 && s.nextPlan <= |cfg.plan| && Turned(s, t, w) && |s.received| == |s.sent|
    ensures LocalWork(cfg, t) == LocalWork(cfg, s) - 1
  {
    hide PlacesWork, FilesWork, CmdsWork, ChunksWork, PlanChunks, ShardChunks;
    assert Remaining(cfg, t) == Remaining(cfg, s);
    SameFiles(cfg, s, t);
    CmdsPoint(s, t, w);
    var cmd := Next(s, w);
    if cmd.Write? {
      PlacesPoint(s, t, cmd.slot);
    } else {
      SamePlaces(s, t);
    }
  }

  lemma WriterWork(cfg: Config, r: nat, src: seq<seq<Byte>>, s: Rank, w: nat)
    requires Inv(cfg, r, src, s) && CanWrite(cfg, s, w)
    ensures var t := WriterStep(cfg, s, w);
            && t.nextPlan <= |cfg.plan| && s.nextPlan <= |cfg.plan| && |t.sent| == |t.received| && |s.sent| == |s.received|
            && cfg.chunk > 0 && t.pc == s.pc && t.completed == s.completed
            && LocalWork(cfg, t) == LocalWork(cfg, s) - 1
  {
    hide LocalWork, WriterStep, Config.Valid, SlotInv, QueueInv, FlightInv, PosInv, CountInv, LifeInv, OpenInv, ContentInv, SizeInv;
    ReceivedBound(cfg, s);
    PlanBound(cfg, r, s);
    TurnFields(cfg, r, src, s, w);
    TurnWork(cfg, s, WriterStep(cfg, s, w), w);
  }

  lemma StillWork(cfg: Config, s: Rank, t: Rank)
    requires cfg.chunk > 0 && s.nextPlan <= |cfg.plan| && |s.received| == |s.sent|
    requires t.nextPlan == s.nextPlan && t.active == s.active && t.places == s.places && t.inFlight == s.inFlight
    requires t.files == s.files && t.sent == s.sent && t.received == s.received
    ensures LocalWork(cfg, t) == LocalWork(cfg, s)
  {
    hide PlacesWork, FilesWork, CmdsWork, ChunksWork, PlanChunks, ShardChunks;
    assert Remaining(cfg, t) == Remaining(cfg, s);
    SamePlaces(s, t);
    SameFiles(cfg, s, t);
    SameCmds(s, t);
  }

  // ---- the whole cluster

  /** No schedule from this state can be longer than this. */
  function WorldWork(cfg: Config, w: World): int
    requires cfg.chunk > 0
    requires forall r | 0 <= r < |w.ranks| :: w.ranks[r].nextPlan <= |cfg.plan| && |w.ranks[r].received| == |w.ranks[r].sent|
  {
    Sum(seq(|w.ranks|, r requires 0 <= r < |w.ranks| => RankWork(cfg, w.ranks[r]))) + |All(cfg) - w.wire.Keys|
  }

  lemma WorldShape(cfg: Config, src: seq<seq<Byte>>, w: World)
    requires WorldInv(cfg, src, w)
    ensures cfg.Valid() && |w.ranks| == cfg.world && cfg.chunk > 0
    ensures forall r | 0 <= r < |w.ranks| :: w.ranks[r].nextPlan <= |cfg.plan| && |w.ranks[r].received| == |w.ranks[r].sent|
    ensures forall r | 0 <= r < |w.ranks| :: RankWork(cfg, w.ranks[r]) >= 0
    ensures WorldWork(cfg, w) >= 0
  {
    hide Inv, Config.Valid, WireOk, RankWork, Sum, All;
    Positive(cfg);
    forall r | 0 <= r < |w.ranks|
      ensures w.ranks[r].nextPlan <= |cfg.plan| && |w.ranks[r].received| == |w.ranks[r].sent|
      ensures RankWork(cfg, w.ranks[r]) >= 0
    {
      WorkIsNat(cfg, r, src, w.ranks[r]);
    }
    SumAtLeast(seq(|w.ranks|, r requires 0 <= r < |w.ranks| => RankWork(cfg, w.ranks[r])), 0);
  }

  lemma RankPoint(cfg: Config, w: World, t: World, r: nat)
    requires cfg.chunk > 0 && r < |w.ranks| == |t.ranks|
    requires forall q | 0 <= q < |w.ranks| :: w.ranks[q].nextPlan <= |cfg.plan| && |w.ranks[q].received| == |w.ranks[q].sent|
    requires forall q | 0 <= q < |t.ranks| :: t.ranks[q].nextPlan <= |cfg.plan| && |t.ranks[q].received| == |t.ranks[q].sent|
    requires forall q | 0 <= q < |w.ranks| && q != r :: t.ranks[q] == w.ranks[q]
    requires t.wire == w.wire
    ensures WorldWork(cfg, t) == WorldWork(cfg, w) - RankWork(cfg, w.ranks[r]) + RankWork(cfg, t.ranks[r])
  {
    hide Sum, RankWork, All;
    SumPoint(seq(|w.ranks|, q requires 0 <= q < |w.ranks| => RankWork(cfg, w.ranks[q])),
             seq(|t.ranks|, q requires 0 <= q < |t.ranks| => RankWork(cfg, t.ranks[q])), r);
  }

  lemma LocalActionWork(cfg: Config, src: seq<seq<Byte>>, w: World, a: Action)
    requires WorldInv(cfg, src, w) && Enabled(cfg, w, a) && !a.ACapture? && !a.AComplete?
    ensures var s := w.ranks[a.r];
            var t := Apply(cfg, w, a).ranks[a.r];
            && cfg.chunk > 0 && t.nextPlan <= |cfg.plan| && s.nextPlan <= |cfg.plan|
            && |t.sent| == |t.received| && |s.sent| == |s.received|
            && RankWork(cfg, t) < RankWork(cfg, s)
  {
    hide Inv, LocalWork, Take, PostChunk, TakeAck, Reap, WriterStep, ShapeOk, CanWrite, CanPost, CanTake, ReadOk, Config.Valid, WireOk, All;
    var s := w.ranks[a.r];
    WorkIsNat(cfg, a.r, src, s);
    match a
    case ATake(r) => TakeWork(cfg, r, src, s);
    case APost(r) => PostWork(cfg, r, src, s);
    case AEndPosting(r) => StillWork(cfg, s, EndPosting(s));
    case AAck(r) => AckWork(cfg, r, src, s);
    case AEndDrain(r) => StillWork(cfg, s, EndDrain(cfg, s));
    case AReap(r, i) => ReapWork(cfg, r, src, s, i);
    case AWriter(r, v) => WriterWork(cfg, r, src, s, v);
  }

  lemma SmallerSet(big: set<nat>, old': set<nat>, k: nat)
    requires k in big && k !in old'
    ensures |big - (old' + {k})| == |big - old'| - 1
  {
    assert big - (old' + {k}) == (big - old') - {k};
  }

  lemma CompleteWork(cfg: Config, src: seq<seq<Byte>>, w: World, a: Action)
    requires WorldInv(cfg, src, w) && Enabled(cfg, w, a) && a.AComplete?
    ensures var s := w.ranks[a.r];
            var t := Apply(cfg, w, a).ranks[a.r];
            && cfg.chunk > 0 && t.nextPlan <= |cfg.plan| && s.nextPlan <= |cfg.plan|
            && |t.sent| == |t.received| && |s.sent| == |s.received|
            && RankWork(cfg, t) < RankWork(cfg, s)
  {
    hide Inv, RankWork, ShapeOk, Config.Valid, WireOk, Complete, CanComplete;
    ArriveWork(cfg, a.r, src, w.ranks[a.r], a.k, w.wire[a.k]);
  }

  lemma Ordered(cfg: Config, r: nat, src: seq<seq<Byte>>, s: Rank)
    requires Inv(cfg, r, src, s)
    ensures cfg.chunk > 0 && |s.posts| <= |Order(cfg)|
  {
    hide CoreInv, PosInv, FlightInv, SlotInv, Order;
    InvPos(cfg, r, src, s);
    PlanBound(cfg, r, s);
    PostsArePrefix(cfg, r, s);
  }

  lemma ArriveWork(cfg: Config, r: nat, src: seq<seq<Byte>>, s: Rank, k: nat, payload: seq<Byte>)
    requires Inv(cfg, r, src, s) && CanComplete(s, k, payload)
    ensures var t := Complete(r, s, k, payload);
            && cfg.chunk > 0 && t.nextPlan <= |cfg.plan| && s.nextPlan <= |cfg.plan|
            && |t.sent| == |t.received| && |s.sent| == |s.received|
            && RankWork(cfg, t) < RankWork(cfg, s)
  {
    hide Inv, LocalWork, Order;
    WorkIsNat(cfg, r, src, s);
    Ordered(cfg, r, src, s);
    SmallerSet(All(cfg), s.completed, k);
    StillWork(cfg, s, Complete(r, s, k, payload));
  }

  lemma CaptureWork(cfg: Config, src: seq<seq<Byte>>, w: World, a: Action)
    requires WorldInv(cfg, src, w) && Enabled(cfg, w, a) && a.ACapture?
    ensures cfg.chunk > 0
    ensures var t := Apply(cfg, w, a);
            t.ranks == w.ranks && |All(cfg) - t.wire.Keys| < |All(cfg) - w.wire.Keys|
  {
    hide Inv, ShapeOk, Config.Valid, WireOk, Order;
    Ordered(cfg, a.r, src, w.ranks[a.r]);
    var t := Apply(cfg, w, a);
    assert t.wire.Keys == w.wire.Keys + {a.k};
    SmallerSet(All(cfg), w.wire.Keys, a.k);
  }

  /** Every step, lucky or not, lowers the work left. */
  lemma StepUsesWork(cfg: Config, src: seq<seq<Byte>>, w: World, a: Action)
    requires WorldInv(cfg, src, w) && Enabled(cfg, w, a)
    ensures WorldInv(cfg, src, Apply(cfg, w, a)) && cfg.chunk > 0
    ensures forall r | 0 <= r < |w.ranks| :: w.ranks[r].nextPlan <= |cfg.plan| && |w.ranks[r].received| == |w.ranks[r].sent|
    ensures var t := Apply(cfg, w, a);
            && (forall r | 0 <= r < |t.ranks| :: t.ranks[r].nextPlan <= |cfg.plan| && |t.ranks[r].received| == |t.ranks[r].sent|)
            && 0 <= WorldWork(cfg, t) < WorldWork(cfg, w)
  {
    hide WorldInv, Enabled, Config.Valid, RankWork, WorldWork, All;
    WorldShape(cfg, src, w);
    var t := Apply(cfg, w, a);
    StepKeeps(cfg, src, w, a);
    WorldShape(cfg, src, t);
    OtherRanks(cfg, w, a);
    if a.ACapture? {
      CaptureWork(cfg, src, w, a);
      SameRanks(cfg, w, t);
    } else {
      hide Apply;
      if a.AComplete? {
        CompleteWork(cfg, src, w, a);
      } else {
        LocalActionWork(cfg, src, w, a);
      }
      RankPoint(cfg, w, t, a.r);
    }
  }

  lemma OtherRanks(cfg: Config, w: World, a: Action)
    requires cfg.Valid() && |w.ranks| == cfg.world && Enabled(cfg, w, a)
    ensures a.r < |w.ranks|
    ensures forall q | 0 <= q < |w.ranks| && q != a.r :: Apply(cfg, w, a).ranks[q] == w.ranks[q]
    ensures !a.ACapture? ==> Apply(cfg, w, a).wire == w.wire
  {
    hide Take, PostChunk, TakeAck, Reap, WriterStep, ShapeOk, CanWrite, CanPost, CanTake, ReadOk, CanReap, CanAck, Config.Valid;
  }

  lemma SameRanks(cfg: Config, w: World, t: World)
    requires cfg.chunk > 0 && t.ranks == w.ranks
    requires forall q | 0 <= q < |w.ranks| :: w.ranks[q].nextPlan <= |cfg.plan| && |w.ranks[q].received| == |w.ranks[q].sent|
    ensures WorldWork(cfg, t) - |All(cfg) - t.wire.Keys| == WorldWork(cfg, w) - |All(cfg) - w.wire.Keys|
  {
    hide Sum, RankWork, All;
    assert seq(|w.ranks|, r requires 0 <= r < |w.ranks| => RankWork(cfg, w.ranks[r]))
        == seq(|t.ranks|, r requires 0 <= r < |t.ranks| => RankWork(cfg, t.ranks[r]));
  }

  /** No run is longer than the work there is: together with Progress, a run ends done or starved. */
  lemma {:induction false} RunsAreFinite(cfg: Config, src: seq<seq<Byte>>, w: World, sched: seq<Action>)
    requires WorldInv(cfg, src, w) && Exec(cfg, w, sched).Some?
    ensures cfg.chunk > 0
    ensures forall r | 0 <= r < |w.ranks| :: w.ranks[r].nextPlan <= |cfg.plan| && |w.ranks[r].received| == |w.ranks[r].sent|
    ensures |sched| <= WorldWork(cfg, w)
    decreases |sched|
  {
    hide WorldInv, Enabled, Apply, WorldWork, Config.Valid;
    WorldShape(cfg, src, w);
    if sched != [] {
      StepUsesWork(cfg, src, w, sched[0]);
      RunsAreFinite(cfg, src, Apply(cfg, w, sched[0]), sched[1..]);
    }
  }
}
