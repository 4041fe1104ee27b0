/** Progress of the whole cluster: some step is always possible, unless a rank waits for an ack nobody will send. */
module PipelineProgress {
  import opened Types
  import opened Counting
  import opened PipelineModel
  import opened PipelineInv
  import opened PipelinePosts
  import opened PipelineClose
  import opened PipelineTake
  import opened PipelinePost
  import opened PipelineAck
  import opened PipelineReap
  import opened PipelineWrite
  import opened PipelineComplete
  import opened PipelineWorld
  import opened PipelineSafety
  import opened PipelineTheorems

  /**
    A step that MPI has to let happen: a collective is only sure to move once every rank has posted it.
    Runs may be luckier (see Enabled); progress must not rely on it.
  */
  predicate Sure(cfg: Config, w: World, a: Action)
    requires cfg.Valid() && |w.ranks| == cfg.world
  {
    && Enabled(cfg, w, a)
    && (a.ACapture? || a.AComplete? ==> forall q | 0 <= q < cfg.world :: a.k < |w.ranks[q].posts|)
  }

  /** Runs a schedule of such steps; None when one of them is not sure. */
  function SureRun(cfg: Config, w: World, sched: seq<Action>): (o: Option<World>)
    requires cfg.Valid() && |w.ranks| == cfg.world
    ensures o.Some? ==> |o.value.ranks| == cfg.world
    decreases |sched|
  {
    if sched == [] then Some(w)
    else if Sure(cfg, w, sched[0]) then SureRun(cfg, Apply(cfg, w, sched[0]), sched[1..])
    else None
  }

  /** Some such schedule leads from one state to the other. */
  ghost predicate SurelyFrom(cfg: Config, w0: World, w: World)
    requires cfg.Valid() && |w0.ranks| == cfg.world
  {
    exists sched: seq<Action> :: SureRun(cfg, w0, sched) == Some(w)
  }

  /** Reachable under every MPI, however late it lets collectives move. */
  ghost predicate SurelyReachable(cfg: Config, src: seq<seq<Byte>>, w: World) {
    exists w0: World :: InitWorld(cfg, src, w0) && SurelyFrom(cfg, w0, w)
  }

  lemma {:induction false} SureRunIsRun(cfg: Config, w: World, sched: seq<Action>)
    requires cfg.Valid() && |w.ranks| == cfg.world && SureRun(cfg, w, sched).Some?
    ensures Exec(cfg, w, sched) == SureRun(cfg, w, sched)
    decreases |sched|
  {
    hide Enabled, Apply, Config.Valid;
    if sched != [] {
      SureRunIsRun(cfg, Apply(cfg, w, sched[0]), sched[1..]);
    }
  }

  lemma SurelyIsReachable(cfg: Config, src: seq<seq<Byte>>, w: World)
    requires SurelyReachable(cfg, src, w)
    ensures cfg.Valid() && Reachable(cfg, src, w)
  {
    hide Config.Valid, DiskReady, InitRank, Exec, SureRun;
    var w0: World :| InitWorld(cfg, src, w0) && SurelyFrom(cfg, w0, w);
    var sched: seq<Action> :| SureRun(cfg, w0, sched) == Some(w);
    SureRunIsRun(cfg, w0, sched);
  }

  lemma {:induction false} SureRunLast(cfg: Config, w: World, sched: seq<Action>, a: Action)
    requires cfg.Valid() && |w.ranks| == cfg.world && SureRun(cfg, w, sched).Some?
    requires Sure(cfg, SureRun(cfg, w, sched).value, a)
    ensures SureRun(cfg, w, sched + [a]) == Some(Apply(cfg, SureRun(cfg, w, sched).value, a))
    decreases |sched|
  {
    hide Enabled, Apply, Config.Valid;
    if sched == [] {
      assert (sched + [a])[1..] == [];
    } else {
      assert (sched + [a])[1..] == sched[1..] + [a];
      SureRunLast(cfg, Apply(cfg, w, sched[0]), sched[1..], a);
    }
  }

  lemma SurelyNext(cfg: Config, w0: World, w: World, a: Action)
    requires cfg.Valid() && |w0.ranks| == cfg.world == |w.ranks| && SurelyFrom(cfg, w0, w) && Sure(cfg, w, a)
    ensures SurelyFrom(cfg, w0, Apply(cfg, w, a))
  {
    hide Config.Valid, SureRun, Sure, Apply;
    var sched: seq<Action> :| SureRun(cfg, w0, sched) == Some(w);
    SureRunLast(cfg, w0, sched, a);
  }

  lemma SurelyStart(cfg: Config, w: World)
    requires cfg.Valid() && |w.ranks| == cfg.world
    ensures SurelyFrom(cfg, w, w)
  {
    hide Config.Valid;
    assert SureRun(cfg, w, []) == Some(w);
  }

  // ---- one rank

  /** What a driver can do by itself. */
  predicate DriverSteps(cfg: Config, s: Rank)
    requires cfg.Valid()
  {
    && ShapeOk(cfg, s)
    && (CanTake(cfg, s) || (CanPost(cfg, s) && ReadOk(cfg, s)) || CanEndPosting(cfg, s)
        || CanAck(s) || (s.pc.Draining? && s.acks == []))
  }

  lemma DriverRuns(cfg: Config, r: nat, src: seq<seq<Byte>>, s: Rank)
    requires Inv(cfg, r, src, s) && (s.pc.Posting? || s.pc.Draining?)
    ensures DriverSteps(cfg, s)
  {
    hide SlotInv, QueueInv, FlightInv, PosInv, CountInv, LifeInv, OpenInv, ContentInv, SizeInv, ShapeOk, ReadOk, CanPost, Config.Valid, SourceOk;
    ShapeFromInv(cfg, r, src, s);
    if s.pc.Draining? && s.acks != [] {
      AckIsOk(cfg, r, src, s);
    } else if s.pc.Posting? && s.free != [] && s.active.Some? {
      ReadIsOk(cfg, r, src, s);
    }
  }

  /** An outstanding write is at a writer that can run, or already acknowledged. */
  lemma AckComes(cfg: Config, r: nat, src: seq<seq<Byte>>, s: Rank) returns (v: nat)
    requires Inv(cfg, r, src, s) && s.pc.AckWait? && s.pending != 0
    ensures DriverSteps(cfg, s) || (ShapeOk(cfg, s) && CanWrite(cfg, s, v))
  {
    hide SlotInv, QueueInv, FlightInv, PosInv, CountInv, LifeInv, OpenInv, ContentInv, SizeInv, ShapeOk, ReadOk, CanPost, CanAck, Config.Valid, SourceOk, CanWrite, Config.WriterOf;
    ShapeFromInv(cfg, r, src, s);
    v := 0;
    if s.acks != [] {
      AckIsOk(cfg, r, src, s);
    } else {
      var x := SomeWriting(cfg, r, s);
      WriterPlace(cfg, s, x);
      assert !InAck(s, x);
      QueuedWhere(cfg, s, x);
      v := cfg.WriterOf(s.places[x].chunk.file);
      WriteIsOk(cfg, r, src, s, v);
    }
  }

  lemma SomeWriting(cfg: Config, r: nat, s: Rank) returns (x: nat)
    requires CountInv(cfg, r, s) && s.pending != 0
    ensures x < cfg.depth == |s.places| && s.places[x].AtWriter()
  {
    hide Count, Config.NeedsWrite, FileCounts;
    CountZero(s.places, Writing());
    var i :| 0 <= i < |s.places| && Writing()(s.places[i]);
    x := i;
  }

  lemma QueuedWhere(cfg: Config, s: Rank, x: nat)
    requires QueueInv(cfg, s) && x < cfg.depth && s.places[x].Queued?
    ensures var v := cfg.WriterOf(s.places[x].chunk.file);
            v < cfg.writers == |s.sent| == |s.received| && s.received[v] < |s.sent[v]|
  {
    assert QueuedAt(cfg, s, x);
  }

  // ---- all ranks

  lemma {:induction false} LeastPosted(ranks: seq<Rank>) returns (m: nat)
    requires |ranks| > 0
    ensures m < |ranks|
    ensures forall q | 0 <= q < |ranks| :: |ranks[m].posts| <= |ranks[q].posts|
  {
    var n := |ranks| - 1;
    if n == 0 {
      m := 0;
    } else {
      m := LeastPosted(ranks[..n]);
      assert forall q | 0 <= q < n :: ranks[..n][q] == ranks[q];
      if |ranks[n].posts| < |ranks[m].posts| {
        m := n;
      }
    }
  }

  predicate Ready(cfg: Config, w: World, r: nat)
    requires cfg.Valid() && |w.ranks| == cfg.world
  {
    r < cfg.world && (DriverSteps(cfg, w.ranks[r])
                      || (ShapeOk(cfg, w.ranks[r]) && exists v :: 0 <= v < cfg.writers && CanWrite(cfg, w.ranks[r], v)))
  }

  /** A rank that can move by itself gives the cluster a step. */
  lemma ReadySteps(cfg: Config, w: World, r: nat) returns (a: Action)
    requires cfg.Valid() && |w.ranks| == cfg.world && Ready(cfg, w, r)
    ensures Sure(cfg, w, a) && a.r == r && (DriverSteps(cfg, w.ranks[r]) ==> !a.AWriter?)
  {
    hide ShapeOk, CanTake, CanPost, ReadOk, CanEndPosting, CanAck, CanWrite, Config.Valid;
    var s := w.ranks[r];
    if DriverSteps(cfg, s) {
      a := if CanTake(cfg, s) then ATake(r)
           else if CanPost(cfg, s) && ReadOk(cfg, s) then APost(r)
           else if CanEndPosting(cfg, s) then AEndPosting(r)
           else if CanAck(s) then AAck(r)
           else AEndDrain(r);
    } else {
      var v :| 0 <= v < cfg.writers && CanWrite(cfg, s, v);
      a := AWriter(r, v);
    }
  }

  /** A rank that cannot move by itself and is not starved waits for MPI, or is done. */
  lemma StuckRank(cfg: Config, src: seq<seq<Byte>>, w: World, r: nat)
    requires cfg.Valid() && |w.ranks| == cfg.world && r < cfg.world && Inv(cfg, r, src, w.ranks[r])
    requires !Ready(cfg, w, r) && !Starved(w.ranks[r])
    ensures w.ranks[r].pc.RequestWait? || Done(w.ranks[r])
  {
    hide CoreInv, ShapeOk, CanTake, CanPost, ReadOk, CanEndPosting, CanAck, CanWrite, Config.Valid, DriverSteps;
    var s := w.ranks[r];
    match s.pc
    case Posting => DriverRuns(cfg, r, src, s);
    case Draining => DriverRuns(cfg, r, src, s);
    case AckWait =>
      var v := AckComes(cfg, r, src, s);
      if !DriverSteps(cfg, s) {
        WriterInRange(cfg, s, v);
      }
    case RequestWait =>
    case Finished =>
      InvLengths(cfg, r, src, s);
      ShapeFromInv(cfg, r, src, s);
      forall v | 0 <= v < |s.sent|
        ensures s.received[v] >= |s.sent[v]|
      {
        if s.received[v] < |s.sent[v]| {
          WriteIsOk(cfg, r, src, s, v);
        }
      }
  }

  lemma WriterInRange(cfg: Config, s: Rank, v: nat)
    requires CanWrite(cfg, s, v)
    ensures v < cfg.writers
  {
  }

  lemma InvLengths(cfg: Config, r: nat, src: seq<seq<Byte>>, s: Rank)
    requires CoreInv(cfg, r, src, s)
    ensures |s.sent| == |s.received| == cfg.writers
  {
    hide SlotInv, QueueInv, FlightInv, PosInv, CountInv, LifeInv, OpenInv, ContentInv, SizeInv;
  }

  /** A collective that all ranks have posted and one of them still waits for can move. */
  lemma CollectiveMoves(cfg: Config, src: seq<seq<Byte>>, w: World, r: nat, k: nat) returns (a: Action)
    requires WorldInv(cfg, src, w) && r < cfg.world
    requires forall q | 0 <= q < cfg.world :: k < |w.ranks[q].posts|
    requires k !in w.ranks[r].completed
    ensures Sure(cfg, w, a) && (a.ACapture? || a.AComplete?)
  {
    hide Inv, CoreInv, ShapeOk, CanTake, CanPost, ReadOk, CanEndPosting, CanAck, CanWrite, Config.Valid, PosInv, FlightInv, SlotInv, PayloadOk, CanComplete, WireOk;
    Positive(cfg);
    var s := w.ranks[r];
    ShapeIs(cfg, r, src, s);
    InvPos(cfg, r, src, s);
    PostsArePrefix(cfg, r, s);
    assert NoSlot(s.posts[k]) == Order(cfg)[k];
    if k in w.wire {
      assert |w.wire[k]| == Order(cfg)[k].len by { WireLen(cfg, src, w.wire, k); }
      CoreIs(cfg, r, src, s);
      CompleteIsOk(cfg, r, src, s, k, w.wire[k]);
      a := AComplete(r, k);
    } else {
      CollectiveRoot(cfg, r, s, k);
      var q := s.posts[k].root;
      var t := w.ranks[q];
      ShapeIs(cfg, q, src, t);
      InvPos(cfg, q, src, t);
      PostsArePrefix(cfg, q, t);
      assert NoSlot(t.posts[k]) == Order(cfg)[k];
      CaptureOk(cfg, q, src, t, k);
      a := ACapture(q, k);
    }
  }

  lemma WireLen(cfg: Config, src: seq<seq<Byte>>, wire: map<nat, seq<Byte>>, k: nat)
    requires cfg.chunk > 0 && WireOk(cfg, src, wire) && k in wire
    ensures k < |Order(cfg)| && |wire[k]| == Order(cfg)[k].len
  {
    hide PayloadOk, Order;
  }

  lemma CollectiveRoot(cfg: Config, r: nat, s: Rank, k: nat)
    requires cfg.Valid() && PosInv(cfg, r, s) && k < |s.posts|
    ensures s.posts[k].root < cfg.world
  {
    hide PosInv, Config.Valid;
    PostAt(cfg, r, s, k);
    RootInWorld(cfg, s.chunks[s.posts[k].chunk]);
  }

  lemma ShapeIs(cfg: Config, r: nat, src: seq<seq<Byte>>, s: Rank)
    requires Inv(cfg, r, src, s)
    ensures ShapeOk(cfg, s)
  {
    hide CoreInv;
    ShapeFromInv(cfg, r, src, s);
  }

  lemma CoreIs(cfg: Config, r: nat, src: seq<seq<Byte>>, s: Rank)
    requires Inv(cfg, r, src, s)
    ensures CoreInv(cfg, r, src, s)
  {
    hide CoreInv;
  }

  lemma ReapMoves(cfg: Config, src: seq<seq<Byte>>, w: World, r: nat) returns (a: Action)
    requires WorldInv(cfg, src, w) && r < cfg.world && w.ranks[r].pc.RequestWait?
    requires forall k | 0 <= k < |w.ranks[r].posts| :: k in w.ranks[r].completed
    ensures Sure(cfg, w, a) && a.AReap?
  {
    hide CoreInv, ShapeOk, CanTake, CanPost, ReadOk, CanEndPosting, CanAck, CanWrite, CanReap, Config.Valid, FlightInv, WireOk;
    var s := w.ranks[r];
    assert Inv(cfg, r, src, s);
    InvPos(cfg, r, src, s);
    EntryAt(cfg, s, 0);
    ReapIsOk(cfg, r, src, s, 0);
    a := AReap(r, 0);
  }

  lemma FinishedPosted(cfg: Config, r: nat, src: seq<seq<Byte>>, s: Rank)
    requires Inv(cfg, r, src, s) && s.pc.Finished? && cfg.chunk > 0
    ensures |s.posts| == |Order(cfg)|
  {
    hide CoreInv, PosInv;
    InvPos(cfg, r, src, s);
    PostsArePrefix(cfg, r, s);
  }

  /** When no rank can move by itself, the rank that has posted least shows what can. */
  lemma LeastMoves(cfg: Config, src: seq<seq<Byte>>, w: World, r: nat) returns (a: Action)
    requires WorldInv(cfg, src, w) && r < cfg.world && w.ranks[r].pc.RequestWait?
    requires forall q: nat | q < cfg.world :: w.ranks[q].pc.RequestWait? || w.ranks[q].pc.Finished?
    ensures Sure(cfg, w, a) && (a.AReap? || a.ACapture? || a.AComplete?)
  {
    hide Inv, Config.Valid, WireOk, Enabled, Order, PosInv, FlightInv, SlotInv;
    Positive(cfg);
    var m := LeastPosted(w.ranks);
    var least := |w.ranks[m].posts|;
    if q: nat, k: nat :| q < cfg.world && k < least && k !in w.ranks[q].completed {
      a := CollectiveMoves(cfg, src, w, q, k);
    } else if w.ranks[m].pc.RequestWait? {
      a := ReapMoves(cfg, src, w, m);
    } else {
      FinishedPosted(cfg, m, src, w.ranks[m]);
      InvPos(cfg, r, src, w.ranks[r]);
      PostsArePrefix(cfg, r, w.ranks[r]);
      a := ReapMoves(cfg, src, w, r);
    }
  }

  /**
    Global progress: in every reachable state that is not the end and in which no rank is starved in the
    blocking ack receive, some step is sure to be possible, even if MPI moves a collective only after all
    ranks have posted it.
  */
  lemma Progress(cfg: Config, src: seq<seq<Byte>>, w: World) returns (a: Action)
    requires cfg.Valid() && Reachable(cfg, src, w) && !AllDone(w)
    requires forall r | 0 <= r < |w.ranks| :: !Starved(w.ranks[r])
    ensures |w.ranks| == cfg.world && Sure(cfg, w, a)
  {
    hide Inv, Reachable, Config.Valid, WireOk, Ready, Sure, Starved, Done;
    ReachableInv(cfg, src, w);
    if r: nat :| r < cfg.world && Ready(cfg, w, r) {
      a := ReadySteps(cfg, w, r);
    } else {
      var r: nat :| r < cfg.world && !Done(w.ranks[r]);
      forall q: nat | q < cfg.world
        ensures w.ranks[q].pc.RequestWait? || Done(w.ranks[q])
      {
        StuckRank(cfg, src, w, q);
      }
      forall q: nat | q < cfg.world
        ensures w.ranks[q].pc.RequestWait? || w.ranks[q].pc.Finished?
      {
        if Done(w.ranks[q]) {
          DoneIsFinished(w.ranks[q]);
        }
      }
      a := LeastMoves(cfg, src, w, r);
    }
  }

  lemma DoneIsFinished(s: Rank)
    requires Done(s)
    ensures s.pc.Finished?
  {
  }
}
