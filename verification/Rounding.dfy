/** O_DIRECT rounding: the padded write of every chunk is aligned, fits its buffer and hits no other chunk. */
module Rounding {
  import opened Types
  import opened Arith
  import opened Counting
  import opened ShardTiling
  import opened PipelineModel

  function ChunkCovers(f: nat, p: nat): Chunk -> bool {
    (c: Chunk) => c.file == f && c.offset <= p < c.offset + c.n
  }

  /** Within one shard each byte from `from` on is in exactly one chunk. */
  lemma {:induction false} ShardChunksCover(s: ShardSpec, chunk: nat, from: nat, f: nat, p: nat)
    requires chunk > 0
    ensures Count(ShardChunks(s, chunk, from), ChunkCovers(f, p))
            == if f == s.fileIdx && s.byteOffset + from <= p < s.byteOffset + s.byteLen then 1 else 0
    decreases s.byteLen - from
  {
    if from < s.byteLen {
      var n := Min(chunk, s.byteLen - from);
      var c := Chunk(s.fileIdx, s.ownerRank, s.byteOffset + from, n);
      ShardChunksCover(s, chunk, from + n, f, p);
      CountAppend([c], ShardChunks(s, chunk, from + n), ChunkCovers(f, p));
      assert [c][..0] == [];
    }
  }

  /** A byte is in as many chunks as shards. */
  lemma {:induction false} PlanChunksCount(plan: seq<ShardSpec>, chunk: nat, f: nat, p: nat)
    requires chunk > 0
    ensures Count(PlanChunks(plan, chunk), ChunkCovers(f, p)) == Count(plan, CoversByte(f, p))
  {
    if plan != [] {
      PlanChunksCount(plan[1..], chunk, f, p);
      ShardChunksCover(plan[0], chunk, 0, f, p);
      CountAppend(ShardChunks(plan[0], chunk, 0), PlanChunks(plan[1..], chunk), ChunkCovers(f, p));
      CountAppend([plan[0]], plan[1..], CoversByte(f, p));
      assert plan == [plan[0]] + plan[1..] && [plan[0]][..0] == [];
    }
  }

  /** Two chunks of a plan that covers no byte twice share no byte. */
  lemma ChunksApart(plan: seq<ShardSpec>, chunk: nat, i: nat, j: nat)
    requires chunk > 0 && i < |PlanChunks(plan, chunk)| && j < |PlanChunks(plan, chunk)| && i != j
    requires forall f: nat, p: nat :: Count(plan, CoversByte(f, p)) <= 1
    ensures var c, d := PlanChunks(plan, chunk)[i], PlanChunks(plan, chunk)[j];
            c.file != d.file || c.offset + c.n <= d.offset || d.offset + d.n <= c.offset || c.n == 0 || d.n == 0
  {
    hide Count, PlanChunks;
    var q := PlanChunks(plan, chunk);
    var c, d := q[i], q[j];
    if c.file == d.file && c.n > 0 && d.n > 0 && c.offset + c.n > d.offset && d.offset + d.n > c.offset {
      var p := Max(c.offset, d.offset);
      CountTwo(q, ChunkCovers(c.file, p), Min(i, j), Max(i, j));
      PlanChunksCount(plan, chunk, c.file, p);
    }
  }

  /** Shards begin on boundaries of `unit`, and are whole numbers of units except at the end of a file. */
  predicate WellCut(plan: seq<ShardSpec>, size: seq<nat>, unit: nat)
    requires unit > 0
  {
    forall i | 0 <= i < |plan| :: CutOk(plan[i], size, unit)
  }

  predicate CutOk(s: ShardSpec, size: seq<nat>, unit: nat)
    requires unit > 0
  {
    && s.fileIdx < |size| && s.byteOffset % unit == 0 && s.byteOffset + s.byteLen <= size[s.fileIdx]
    && (s.byteLen % unit == 0 || s.byteOffset + s.byteLen == size[s.fileIdx])
  }

  predicate ChunkOk(c: Chunk, size: seq<nat>, chunk: nat, unit: nat)
    requires unit > 0
  {
    && c.file < |size| && 0 < c.n <= chunk && c.offset % unit == 0 && c.offset + c.n <= size[c.file]
    && (c.n % unit == 0 || c.offset + c.n == size[c.file])
  }

  lemma {:induction false} ShardChunksOk(s: ShardSpec, size: seq<nat>, chunk: nat, unit: nat, from: nat, i: nat)
    requires chunk > 0 && unit > 0 && chunk % unit == 0 && CutOk(s, size, unit) && (from % unit == 0 || from >= s.byteLen)
    requires i < |ShardChunks(s, chunk, from)|
    ensures ChunkOk(ShardChunks(s, chunk, from)[i], size, chunk, unit)
    decreases s.byteLen - from
  {
    var n := Min(chunk, s.byteLen - from);
    if i == 0 {
      HeadOk(s, size, chunk, unit, from);
    } else {
      if n == chunk {
        SumMultiple(from, chunk, unit);
      }
      hide ChunkOk, CutOk;
      ShardChunksOk(s, size, chunk, unit, from + n, i - 1);
    }
  }

  lemma HeadOk(s: ShardSpec, size: seq<nat>, chunk: nat, unit: nat, from: nat)
    requires chunk > 0 && unit > 0 && chunk % unit == 0 && CutOk(s, size, unit) && from % unit == 0 && from < s.byteLen
    ensures ChunkOk(Chunk(s.fileIdx, s.ownerRank, s.byteOffset + from, Min(chunk, s.byteLen - from)), size, chunk, unit)
  {
    SumMultiple(s.byteOffset, from, unit);
    if s.byteLen % unit == 0 {
      SumMultiple(s.byteLen, from, unit);
    }
  }

  lemma {:induction false} PlanChunksOk(plan: seq<ShardSpec>, size: seq<nat>, chunk: nat, unit: nat, i: nat)
    requires chunk > 0 && unit > 0 && chunk % unit == 0 && WellCut(plan, size, unit) && i < |PlanChunks(plan, chunk)|
    ensures ChunkOk(PlanChunks(plan, chunk)[i], size, chunk, unit)
  {
    var first := ShardChunks(plan[0], chunk, 0);
    if i < |first| {
      ShardChunksOk(plan[0], size, chunk, unit, 0, i);
    } else {
      PlanChunksOk(plan[1..], size, chunk, unit, i - |first|);
    }
  }

  lemma RoundUpBelow(n: nat, chunk: nat)
    requires n <= chunk && chunk % ALIGN == 0
    ensures RoundUp(n) <= chunk
  {
  }

  /**
    With O_DIRECT, every padded write starts and ends on an aligned boundary, fits its buffer, touches no byte of any
    other chunk, and passes the end of the file only for the chunk that ends the file.
  */
  lemma RoundingIsSafe(cfg: Config, i: nat, j: nat)
    requires cfg.Valid() && cfg.direct && WellCut(cfg.plan, cfg.size, ALIGN)
    requires forall f: nat, p: nat :: Count(cfg.plan, CoversByte(f, p)) <= 1
    requires i < |PlanChunks(cfg.plan, cfg.chunk)| && j < |PlanChunks(cfg.plan, cfg.chunk)|
    ensures var c := PlanChunks(cfg.plan, cfg.chunk)[i];
            var d := PlanChunks(cfg.plan, cfg.chunk)[j];
            var len := WriteLen(cfg, c.n);
            && c.offset % ALIGN == 0 && len % ALIGN == 0 && c.n <= len <= cfg.chunk
            && c.file < |cfg.size|
            && (c.offset + len > cfg.size[c.file] ==> c.offset + c.n == cfg.size[c.file])
            && (i != j && c.file == d.file ==> c.offset + len <= d.offset || d.offset + d.n <= c.offset)
  {
    var c := PlanChunks(cfg.plan, cfg.chunk)[i];
    var d := PlanChunks(cfg.plan, cfg.chunk)[j];
    hide Config.Valid, PlanChunks, Count, RoundUp;
    assert cfg.chunk > 0 && cfg.chunk % ALIGN == 0 by { AlignedChunk(cfg); }
    PlanChunksOk(cfg.plan, cfg.size, cfg.chunk, ALIGN, i);
    PlanChunksOk(cfg.plan, cfg.size, cfg.chunk, ALIGN, j);
    RoundUpIs(c.n);
    RoundUpBelow(c.n, cfg.chunk);
    if i != j {
      ChunksApart(cfg.plan, cfg.chunk, i, j);
    }
  }

  lemma AlignedChunk(cfg: Config)
    requires cfg.Valid() && cfg.direct
    ensures cfg.chunk > 0 && cfg.chunk % ALIGN == 0
  {
  }
}
