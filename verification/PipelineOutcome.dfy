/** How runs end: which plans always complete, and that every plan can. */
module PipelineOutcome {
  import opened Types
  import opened Counting
  import opened PipelineModel
  import opened PipelineInv
  import opened PipelinePosts
  import opened PipelineClose
  import opened PipelineReap
  import opened PipelineWrite
  import opened PipelineComplete
  import opened PipelineWorld
  import opened PipelineSafety
  import opened PipelineTheorems
  import opened PipelineProgress
  import opened PipelineMeasure
  import opened PipelineStarve
  import opened PipelineStarveRun
  import opened PipelineStuck

  /** Nothing is sure to happen any more: where a run ends when MPI is as slow as it may be. */
  ghost predicate Halted(cfg: Config, w: World)
    requires cfg.Valid()
  {
    |w.ranks| == cfg.world && forall a: Action :: !Sure(cfg, w, a)
  }

  /** Nothing at all is possible any more. */
  ghost predicate Dead(cfg: Config, w: World)
    requires cfg.Valid()
  {
    |w.ranks| == cfg.world && forall a: Action :: !Enabled(cfg, w, a)
  }

  ghost predicate Harmless(cfg: Config)
    requires cfg.chunk > 0
  {
    forall r: nat | r < cfg.world :: !Starvable(cfg, r)
  }

  // ---- plans that starve nobody

  /** When the plan can starve no rank, a run that goes on as long as it can has completed everywhere. */
  lemma MaximalRunCompletes(cfg: Config, src: seq<seq<Byte>>, w: World)
    requires cfg.Valid() && cfg.chunk > 0 && Harmless(cfg) && Reachable(cfg, src, w) && Halted(cfg, w)
    ensures AllDone(w)
  {
    hide Reachable, Starvable, Starved, Config.Valid, Sure, Done;
    if !AllDone(w) {
      forall r | 0 <= r < |w.ranks|
        ensures !Starved(w.ranks[r])
      {
        if Starved(w.ranks[r]) {
          StarvedIsStarvable(cfg, src, w, r);
        }
      }
      var a := Progress(cfg, src, w);
    }
  }

  // ---- plans that starve somebody

  lemma {:induction false} ExecLast(cfg: Config, w: World, sched: seq<Action>, a: Action)
    requires cfg.Valid() && |w.ranks| == cfg.world && Exec(cfg, w, sched).Some?
    requires Enabled(cfg, Exec(cfg, w, sched).value, a)
    ensures Exec(cfg, w, sched + [a]) == Some(Apply(cfg, Exec(cfg, w, sched).value, a))
    decreases |sched|
  {
    hide Enabled, Apply, Config.Valid;
    if sched == [] {
      assert (sched + [a])[1..] == [];
    } else {
      assert (sched + [a])[1..] == sched[1..] + [a];
      ExecLast(cfg, Apply(cfg, w, sched[0]), sched[1..], a);
    }
  }

  lemma ReachableNext(cfg: Config, src: seq<seq<Byte>>, w: World, a: Action)
    requires cfg.Valid() && Reachable(cfg, src, w) && |w.ranks| == cfg.world && Enabled(cfg, w, a)
    ensures Reachable(cfg, src, Apply(cfg, w, a))
  {
    hide Config.Valid, DiskReady, InitRank, Exec, Enabled, Apply;
    var w0: World, sched: seq<Action> :| InitWorld(cfg, src, w0) && Exec(cfg, w0, sched) == Some(w);
    ExecLast(cfg, w0, sched, a);
  }

  /** Whatever happens to the others, a run with a starved rank goes dead with that rank still waiting. */
  lemma {:induction false} StarvedEnds(cfg: Config, src: seq<seq<Byte>>, w: World, r: nat, bound: nat) returns (w': World)
    requires cfg.Valid() && Reachable(cfg, src, w) && WorldInv(cfg, src, w) && r < cfg.world && Starved(w.ranks[r])
    requires cfg.chunk > 0
    requires forall q | 0 <= q < |w.ranks| :: w.ranks[q].nextPlan <= |cfg.plan| && |w.ranks[q].received| == |w.ranks[q].sent|
    requires WorldWork(cfg, w) <= bound
    ensures Reachable(cfg, src, w') && Dead(cfg, w') && r < |w'.ranks| && Starved(w'.ranks[r])
    decreases bound
  {
    hide WorldInv, Reachable, Enabled, Apply, WorldWork, Config.Valid, Starved;
    WorldShape(cfg, src, w);
    if a: Action :| Enabled(cfg, w, a) {
      StarvedStays(cfg, src, w, a, r);
      StepUsesWork(cfg, src, w, a);
      ReachableNext(cfg, src, w, a);
      w' := StarvedEnds(cfg, src, Apply(cfg, w, a), r, bound - 1);
    } else {
      w' := w;
    }
  }

  lemma DeadIsHalted(cfg: Config, w: World)
    requires cfg.Valid() && Dead(cfg, w)
    ensures Halted(cfg, w)
  {
    hide Enabled, Config.Valid;
  }

  lemma StarvedIsNotDone(w: World, r: nat)
    requires r < |w.ranks| && Starved(w.ranks[r])
    ensures !AllDone(w)
  {
    assert !Done(w.ranks[r]);
  }

  /**
    The exact condition for the stage to be safe: every run, continued as long as it can be, completes on all ranks
    if and only if the plan can starve no rank. That is so for an MPI that moves collectives as late as it may, and
    for one that moves them as early as it can.
  */
  lemma CompletionIff(cfg: Config, src: seq<seq<Byte>>)
    requires cfg.Valid() && SourceOk(cfg, src)
    ensures cfg.chunk > 0
    ensures Harmless(cfg) <==> forall w: World | Reachable(cfg, src, w) && Halted(cfg, w) :: AllDone(w)
    ensures Harmless(cfg) <==> forall w: World | Reachable(cfg, src, w) && Dead(cfg, w) :: AllDone(w)
  {
    Positive(cfg);
    hide Reachable, Starvable, Starved, Config.Valid, Sure, Enabled, Done, AllDone, Halted, Dead;
    forall w: World | Reachable(cfg, src, w) && Dead(cfg, w)
      ensures Halted(cfg, w)
    {
      DeadIsHalted(cfg, w);
    }
    if Harmless(cfg) {
      forall w: World | Reachable(cfg, src, w) && Halted(cfg, w)
        ensures AllDone(w)
      {
        MaximalRunCompletes(cfg, src, w);
      }
    } else {
      var r: nat :| r < cfg.world && Starvable(cfg, r);
      var w := DeadEnd(cfg, src, r);
      StarvedIsNotDone(w, r);
    }
  }

  lemma DeadEnd(cfg: Config, src: seq<seq<Byte>>, r: nat) returns (w': World)
    requires cfg.Valid() && SourceOk(cfg, src) && r < cfg.world && cfg.chunk > 0 && Starvable(cfg, r)
    ensures Reachable(cfg, src, w') && Dead(cfg, w') && r < |w'.ranks| && Starved(w'.ranks[r])
  {
    hide Reachable, Starvable, Starved, Config.Valid, WorldInv, WorldWork, Dead;
    StarvationIff(cfg, src, r);
    var w: World :| Reachable(cfg, src, w) && r < |w.ranks| && Starved(w.ranks[r]);
    ReachableInv(cfg, src, w);
    WorldShape(cfg, src, w);
    w' := StarvedEnds(cfg, src, w, r, WorldWork(cfg, w));
  }

  // ---- a run that completes, whatever the plan

  /** Writers move only when their driver waits for them, one ack at a time, and once it has left. */
  predicate Lazy(w: World, a: Action) {
    a.AWriter? ==> a.r < |w.ranks| && ((w.ranks[a.r].pc.AckWait? && w.ranks[a.r].acks == []) || w.ranks[a.r].pc.Finished?)
  }

  ghost predicate LazyInv(cfg: Config, w: World) {
    |w.ranks| == cfg.world && forall q: nat | q < cfg.world :: Orderly(cfg, w.ranks[q])
  }

  /** What a writer still has to do for a driver that has left makes no ack. */
  lemma LateWriterOrderly(cfg: Config, r: nat, src: seq<seq<Byte>>, s: Rank, v: nat)
    requires Inv(cfg, r, src, s) && s.pc.Finished? && CanWrite(cfg, s, v) && Orderly(cfg, s)
    ensures Orderly(cfg, WriterStep(cfg, s, v))
  {
    hide SlotInv, QueueInv, FlightInv, PosInv, CountInv, LifeInv, OpenInv, ContentInv, SizeInv, Config.Valid, SourceOk, WriteAt, SetLen, Config.WriterOf, Count;
    AtExit(cfg, r, src, s);
    QueuesEmpty(cfg, s);
    WriterInRange(cfg, s, v);
  }

  lemma LateStep(cfg: Config, src: seq<seq<Byte>>, w: World, a: Action)
    requires WorldInv(cfg, src, w) && Enabled(cfg, w, a) && a.AWriter? && w.ranks[a.r].pc.Finished? && Orderly(cfg, w.ranks[a.r])
    ensures Orderly(cfg, Apply(cfg, w, a).ranks[a.r])
  {
    hide CoreInv, Orderly, ShapeOk, CanWrite, Config.Valid, WireOk, WriterStep;
    assert Inv(cfg, a.r, src, w.ranks[a.r]);
    LateWriterOrderly(cfg, a.r, src, w.ranks[a.r], a.w);
  }

  lemma LazyStep(cfg: Config, src: seq<seq<Byte>>, w: World, a: Action)
    requires WorldInv(cfg, src, w) && Enabled(cfg, w, a) && Lazy(w, a) && LazyInv(cfg, w)
    ensures LazyInv(cfg, Apply(cfg, w, a))
  {
    hide WorldInv, Orderly, Enabled, Apply, Config.Valid;
    WorldShape(cfg, src, w);
    OtherRanks(cfg, w, a);
    if a.AWriter? && w.ranks[a.r].pc.Finished? {
      LateStep(cfg, src, w, a);
    } else {
      StepOrderly(cfg, src, cfg.world, w, a);
    }
    if a.ACapture? {
      CaptureWork(cfg, src, w, a);
    }
  }

  /** Until all ranks are done some such step is sure to be possible. */
  lemma LazyProgress(cfg: Config, src: seq<seq<Byte>>, w: World) returns (a: Action)
    requires WorldInv(cfg, src, w) && LazyInv(cfg, w) && !AllDone(w)
    ensures Sure(cfg, w, a) && Lazy(w, a)
  {
    hide Inv, Config.Valid, WireOk, Sure, Orderly, Done, DriverSteps;
    if q: nat :| q < cfg.world && (w.ranks[q].pc.Posting? || w.ranks[q].pc.Draining?) {
      DriverRuns(cfg, q, src, w.ranks[q]);
      a := ReadySteps(cfg, w, q);
    } else if q: nat :| q < cfg.world && w.ranks[q].pc.AckWait? {
      a := AckStep(cfg, src, w, q);
    } else if q: nat :| q < cfg.world && w.ranks[q].pc.Finished? && !Done(w.ranks[q]) {
      a := LateWriter(cfg, src, w, q);
    } else {
      var r: nat :| r < cfg.world && !Done(w.ranks[r]);
      a := LeastMoves(cfg, src, w, r);
    }
  }

  lemma LateWriter(cfg: Config, src: seq<seq<Byte>>, w: World, q: nat) returns (a: Action)
    requires WorldInv(cfg, src, w) && q < cfg.world && w.ranks[q].pc.Finished? && !Done(w.ranks[q])
    ensures Sure(cfg, w, a) && a.r == q && a.AWriter?
  {
    hide CoreInv, ShapeOk, CanWrite, Config.Valid, WireOk;
    var s := w.ranks[q];
    assert Inv(cfg, q, src, s);
    InvLengths(cfg, q, src, s);
    ShapeFromInv(cfg, q, src, s);
    var v: nat :| v < |s.sent| && s.received[v] < |s.sent[v]|;
    WriteIsOk(cfg, q, src, s, v);
    a := AWriter(q, v);
  }

  lemma {:induction false} LazyRun(cfg: Config, src: seq<seq<Byte>>, w0: World, w: World, bound: nat) returns (w': World)
    requires WorldInv(cfg, src, w) && LazyInv(cfg, w) && cfg.chunk > 0
    requires |w0.ranks| == cfg.world && SurelyFrom(cfg, w0, w)
    requires forall q | 0 <= q < |w.ranks| :: w.ranks[q].nextPlan <= |cfg.plan| && |w.ranks[q].received| == |w.ranks[q].sent|
    requires WorldWork(cfg, w) <= bound
    ensures SurelyFrom(cfg, w0, w') && |w'.ranks| == cfg.world && AllDone(w')
    decreases bound
  {
    hide WorldInv, LazyInv, SurelyFrom, Enabled, Apply, WorldWork, Config.Valid, AllDone, Lazy;
    WorldShape(cfg, src, w);
    if AllDone(w) {
      w' := w;
    } else {
      var a := LazyProgress(cfg, src, w);
      LazyStep(cfg, src, w, a);
      StepUsesWork(cfg, src, w, a);
      SurelyNext(cfg, w0, w, a);
      w' := LazyRun(cfg, src, w0, Apply(cfg, w, a), bound - 1);
    }
  }

  lemma StartLazy(cfg: Config, src: seq<seq<Byte>>, w: World)
    requires InitWorld(cfg, src, w)
    ensures LazyInv(cfg, w)
  {
    hide DiskReady, Config.NeedsWrite, Count, InitFile, Config.Valid;
  }

  /** From every start, however many buffers and whatever the plan, some run completes on all ranks under every MPI. */
  lemma SomeRunCompletes(cfg: Config, src: seq<seq<Byte>>, w0: World) returns (w: World)
    requires InitWorld(cfg, src, w0)
    ensures SurelyFrom(cfg, w0, w) && |w.ranks| == cfg.world && AllDone(w)
  {
    hide WorldInv, LazyInv, WorldWork, Config.Valid, SurelyFrom, AllDone, DiskReady, InitRank;
    InitKeeps(cfg, src, w0);
    StartLazy(cfg, src, w0);
    SurelyStart(cfg, w0);
    WorldShape(cfg, src, w0);
    w := LazyRun(cfg, src, w0, w0, WorldWork(cfg, w0));
  }
}
