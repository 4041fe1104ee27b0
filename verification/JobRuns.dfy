/** What the broadcast stage does with the plan of a whole job, in terms of who lacks which file. */
module JobRuns {
  import opened Types
  import opened Counting
  import opened PresenceMatrix
  import opened Diff
  import opened Shards
  import opened ShardTiling
  import opened PlanAssembly
  import opened PlanReady
  import opened PlanDisk
  import opened PipelineModel
  import opened PipelineInv
  import opened PipelinePosts
  import opened PipelineWorld
  import opened PipelineSafety
  import opened PipelineTheorems
  import opened PipelineStarve
  import opened PipelineOutcome
  import opened PipelineCommands

  /** The rank lacks the file, which is not empty, and another rank broadcasts some of it. */
  ghost predicate Receives(in_: Inputs, r: nat, f: nat)
    requires in_.Valid()
  {
    && r < in_.p.worldSize && f < |in_.entries| && !in_.p.Has(r, f) && in_.entries[f].Size() > 0
    && exists i :: 0 <= i < |in_.Bcast()| && in_.Bcast()[i].fileIdx == f && in_.Bcast()[i].ownerRank != r
  }

  lemma ReceivesIs(in_: Inputs, t: Tuning, r: nat, f: nat)
    requires in_.Valid() && r < in_.p.worldSize
    ensures Receives(in_, r, f) <==> !NothingToWrite(Stage(in_, t), r, f)
    ensures Receives(in_, r, f) <==> Stage(in_, t).NeedsWrite(r, f)
  {
    hide SplitUpTo, Inputs.Bcast, Presence.Has, HaveSet;
    if f < |in_.entries| {
      HaveIs(in_.p, r, f);
    }
  }

  /** In no run of a job is a writer told anything about a file its rank already has. */
  lemma PresentNotWritten(in_: Inputs, o: Options, t: Tuning, src: seq<seq<Byte>>, w: World, r: nat, f: nat)
    requires in_.Valid() && t.Valid() && o.Valid(t.chunk) && o.Lead(in_, t.chunk)
    requires Reachable(Stage(in_, t), src, w) && r < |w.ranks|
    requires r < in_.p.worldSize && f < in_.p.numFiles && in_.p.Has(r, f)
    ensures |w.ranks[r].sent| == t.writers
    ensures forall v, i | 0 <= v < t.writers && 0 <= i < |w.ranks[r].sent[v]| :: w.ranks[r].sent[v][i].file != f
  {
    hide Reachable, SplitUpTo, Inputs.Bcast, Presence.Has, HaveSet, Config.Valid, Options.Lead;
    LedStageIsValid(in_, o, t);
    HaveIs(in_.p, r, f);
    NeedlessNever(Stage(in_, t), src, w, r, f);
  }

  /**
    A rank that has left its loop has opened every file it receives, at the writer given by the file's number, and has
    told that writer each chunk of the file as often as the plan cuts it.
  */
  lemma ReceivedWritten(in_: Inputs, o: Options, t: Tuning, src: seq<seq<Byte>>, w: World, r: nat, f: nat, offset: nat, n: nat)
    requires in_.Valid() && t.Valid() && o.Valid(t.chunk) && o.Lead(in_, t.chunk)
    requires Reachable(Stage(in_, t), src, w) && r < |w.ranks| && w.ranks[r].pc.Finished? && Receives(in_, r, f)
    ensures |w.ranks[r].sent| == t.writers
    ensures var log := w.ranks[r].sent[f % t.writers];
            && (exists i :: 0 <= i < |log| && log[i].OpenFile? && log[i].file == f)
            && Count(log, WriteOf(f, offset, n)) == Count(PlanChunks(in_.Bcast(), t.chunk), ChunkOf(f, offset, n))
  {
    hide Reachable, SplitUpTo, Inputs.Bcast, Presence.Has, HaveSet, Config.Valid, Options.Lead, Count, PlanChunks, NothingToWrite, Config.NeedsWrite;
    LedStageIsValid(in_, o, t);
    ReceivesIs(in_, t, r, f);
    EveryChunkOnce(Stage(in_, t), src, w, r, f, offset, n);
  }

  // ---- when a job completes

  ghost function ReceivedBy(in_: Inputs, r: nat): Chunk -> bool
    requires in_.Valid()
  {
    (c: Chunk) => Receives(in_, r, c.file)
  }

  /** The chunks that go out before the last piece of work: an empty file, or a chunk. */
  ghost function Ahead(in_: Inputs, chunk: nat): seq<Chunk>
    requires in_.Valid() && chunk > 0
  {
    var plan := in_.Bcast();
    var all := PlanChunks(plan, chunk);
    if all == [] || plan[|plan| - 1].byteLen == 0 then all else all[..|all| - 1]
  }

  lemma {:induction false} SameCount(q: seq<Chunk>, a: Chunk -> bool, b: Chunk -> bool)
    requires forall c: Chunk :: a(c) <==> b(c)
    ensures Count(q, a) == Count(q, b)
  {
    if q != [] {
      SameCount(q[..|q| - 1], a, b);
    }
  }

  lemma StarvableIs(in_: Inputs, t: Tuning, r: nat)
    requires in_.Valid() && t.chunk > 0 && r < in_.p.worldSize
    ensures Starvable(Stage(in_, t), r) <==> Count(Ahead(in_, t.chunk), ReceivedBy(in_, r)) >= t.depth
  {
    hide SplitUpTo, Inputs.Bcast, Presence.Has, HaveSet, Count, Receives, Config.NeedsWrite;
    forall c: Chunk
      ensures Written(Stage(in_, t), r)(c) <==> ReceivedBy(in_, r)(c)
    {
      ReceivesIs(in_, t, r, c.file);
    }
    SameCount(Ahead(in_, t.chunk), Written(Stage(in_, t), r), ReceivedBy(in_, r));
    assert BeforeLast(Stage(in_, t)) == Ahead(in_, t.chunk);
  }

  /**
    For every accepted set of arguments: every run of the stage that goes on as long as it can ends with all ranks
    done, if and only if no rank receives as many chunks as the pipeline has buffers before the last piece of work.
  */
  lemma JobCompletesIff(in_: Inputs, o: Options, t: Tuning, blob: string -> seq<Byte>)
    requires in_.Valid() && t.Valid() && o.Valid(t.chunk) && o.Lead(in_, t.chunk) && Sizes64(in_, blob)
    ensures Stage(in_, t).Valid()
    ensures (forall r: nat | r < in_.p.worldSize :: Count(Ahead(in_, t.chunk), ReceivedBy(in_, r)) < t.depth)
            <==> forall w: World | Reachable(Stage(in_, t), Contents(in_.entries, blob), w) && Halted(Stage(in_, t), w) :: AllDone(w)
  {
    hide Reachable, Halted, AllDone, SplitUpTo, Inputs.Bcast, Config.Valid, Options.Lead, Starvable, Ahead, Count, HaveSet;
    LedStageIsValid(in_, o, t);
    CompletionIff(Stage(in_, t), Contents(in_.entries, blob));
    forall r: nat | r < in_.p.worldSize
      ensures Starvable(Stage(in_, t), r) <==> Count(Ahead(in_, t.chunk), ReceivedBy(in_, r)) >= t.depth
    {
      StarvableIs(in_, t, r);
    }
  }
}
