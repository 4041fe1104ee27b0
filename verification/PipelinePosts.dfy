/** The posting order: how chunks tile the plan and sub-broadcasts tile a chunk. */
module PipelinePosts {
  import opened Types
  import opened Arith
  import opened PipelineModel
  import opened PipelineInv

  /** A sub-broadcast stays inside its chunk and its length is a positive C int. */
  predicate SubOk(p: Post, c: Chunk, index: nat, slot: nat) {
    && p.root == c.root && p.chunk == index && p.slot == slot
    && 0 < p.len <= MAX_SUB_BCAST && p.off + p.len <= c.n
  }

  lemma {:induction false} SubPostsOk(c: Chunk, index: nat, slot: nat, off: nat)
    ensures forall i | 0 <= i < |SubPosts(c, index, slot, off)| :: SubOk(SubPosts(c, index, slot, off)[i], c, index, slot)
    ensures |SubPosts(c, index, slot, off)| > 0 <==> off < c.n
    decreases c.n - off
  {
    if off < c.n {
      SubPostsOk(c, index, slot, off + Min(c.n - off, MAX_SUB_BCAST));
    }
  }

  lemma {:induction false} SubPostsSlot(c: Chunk, index: nat, slot: nat, off: nat)
    ensures |SubPosts(c, index, slot, off)| == |SubPosts(c, index, 0, off)|
    ensures forall i | 0 <= i < |SubPosts(c, index, slot, off)| ::
              NoSlot(SubPosts(c, index, slot, off)[i]) == SubPosts(c, index, 0, off)[i]
    decreases c.n - off
  {
    if off < c.n {
      SubPostsSlot(c, index, slot, off + Min(c.n - off, MAX_SUB_BCAST));
    }
  }

  /** The sub-broadcasts follow one another without gap from `off` to the end of the chunk. */
  lemma {:induction false} SubPostsTile(c: Chunk, index: nat, slot: nat, off: nat)
    requires off < c.n
    ensures var q := SubPosts(c, index, slot, off);
            && |q| > 0 && q[0].off == off && q[|q| - 1].off + q[|q| - 1].len == c.n
            && forall i | 0 <= i < |q| - 1 :: q[i].off + q[i].len == q[i + 1].off
    decreases c.n - off
  {
    var next := off + Min(c.n - off, MAX_SUB_BCAST);
    if next < c.n {
      SubPostsTile(c, index, slot, next);
    }
  }

  lemma {:induction false} SubPostsCover(c: Chunk, index: nat, slot: nat, off: nat, b: nat) returns (i: nat)
    requires off <= b < c.n
    ensures i < |SubPosts(c, index, slot, off)|
    ensures var p := SubPosts(c, index, slot, off)[i]; p.off <= b < p.off + p.len
    decreases c.n - off
  {
    var next := off + Min(c.n - off, MAX_SUB_BCAST);
    if b < next {
      i := 0;
    } else {
      var j := SubPostsCover(c, index, slot, next, b);
      i := j + 1;
    }
  }

  lemma AllPostsAppend(chunks: seq<Chunk>, c: Chunk)
    ensures AllPosts(chunks + [c]) == AllPosts(chunks) + SubPosts(c, |chunks|, 0, 0)
  {
    hide SubPosts;
    assert (chunks + [c])[..|chunks|] == chunks;
  }

  lemma {:induction false} AllPostsOk(chunks: seq<Chunk>, k: nat)
    requires k < |AllPosts(chunks)|
    ensures var p := AllPosts(chunks)[k]; p.chunk < |chunks| && SubOk(p, chunks[p.chunk], p.chunk, 0)
  {
    var n := |chunks| - 1;
    if k < |AllPosts(chunks[..n])| {
      AllPostsOk(chunks[..n], k);
    } else {
      SubPostsOk(chunks[n], n, 0, 0);
    }
  }

  /** Every byte of every posted chunk travels in some posted broadcast. */
  lemma {:induction false} AllPostsCover(chunks: seq<Chunk>, c: nat, b: nat) returns (k: nat)
    requires c < |chunks| && b < chunks[c].n
    ensures k < |AllPosts(chunks)|
    ensures var p := AllPosts(chunks)[k]; p.chunk == c && p.off <= b < p.off + p.len
  {
    var n := |chunks| - 1;
    if c == n {
      var i := SubPostsCover(chunks[n], n, 0, 0, b);
      SubPostsOk(chunks[n], n, 0, 0);
      k := |AllPosts(chunks[..n])| + i;
    } else {
      k := AllPostsCover(chunks[..n], c, b);
    }
  }

  lemma {:induction false} AllPostsPrefix(a: seq<Chunk>, b: seq<Chunk>)
    ensures AllPosts(a) <= AllPosts(a + b)
  {
    if b == [] {
      assert a + b == a;
    } else {
      var n := |b| - 1;
      assert (a + b)[..|a + b| - 1] == a + b[..n];
      AllPostsPrefix(a, b[..n]);
    }
  }

  /** Every byte of a shard travels in some chunk. */
  lemma {:induction false} ShardChunksCover(s: ShardSpec, chunk: nat, from: nat, b: nat) returns (i: nat)
    requires 0 < chunk && from <= b < s.byteLen
    ensures i < |ShardChunks(s, chunk, from)|
    ensures var c := ShardChunks(s, chunk, from)[i];
            c.file == s.fileIdx && c.root == s.ownerRank && c.offset <= s.byteOffset + b < c.offset + c.n
    decreases s.byteLen - from
  {
    var next := from + Min(chunk, s.byteLen - from);
    if b < next {
      i := 0;
    } else {
      var j := ShardChunksCover(s, chunk, next, b);
      i := j + 1;
    }
  }

  lemma {:induction false} PlanChunksCover(plan: seq<ShardSpec>, chunk: nat, j: nat, p: nat) returns (i: nat)
    requires 0 < chunk && j < |plan| && plan[j].Covers(plan[j].fileIdx, p)
    ensures i < |PlanChunks(plan, chunk)|
    ensures var c := PlanChunks(plan, chunk)[i];
            c.file == plan[j].fileIdx && c.root == plan[j].ownerRank && c.offset <= p < c.offset + c.n
  {
    if j == 0 {
      i := ShardChunksCover(plan[0], chunk, 0, p - plan[0].byteOffset);
    } else {
      var t := PlanChunksCover(plan[1..], chunk, j - 1, p);
      i := |ShardChunks(plan[0], chunk, 0)| + t;
    }
  }

  // ---- how large the pieces are

  /** A shard goes out in full chunks from its first byte on; only its last chunk may be shorter. */
  lemma {:induction false} ShardChunksAre(s: ShardSpec, chunk: nat, from: nat, k: nat)
    requires chunk > 0
    ensures k < |ShardChunks(s, chunk, from)| <==> from + k * chunk < s.byteLen
    ensures from + k * chunk < s.byteLen ==>
              k < |ShardChunks(s, chunk, from)| && ShardChunks(s, chunk, from)[k]
              == Chunk(s.fileIdx, s.ownerRank, s.byteOffset + from + k * chunk, Min(chunk, s.byteLen - from - k * chunk))
    decreases k
  {
    if from < s.byteLen && k > 0 {
      NextChunkAt(chunk, k);
      if from + chunk <= s.byteLen {
        ShardChunksAre(s, chunk, from + chunk, k - 1);
      } else {
        assert ShardChunks(s, chunk, s.byteLen) == [];
        Beyond(chunk, k);
      }
    } else if k > 0 {
      Beyond(chunk, k);
    }
  }

  lemma NextChunkAt(chunk: nat, k: nat)
    requires k > 0
    ensures k * chunk == chunk + (k - 1) * chunk
  {
  }

  lemma Beyond(chunk: nat, k: nat)
    requires k > 0
    ensures k * chunk >= chunk
  {
  }

  /** The shards go out one after the other, in the order of the plan. */
  lemma {:induction false} PlanChunksAre(plan: seq<ShardSpec>, chunk: nat, i: nat)
    requires chunk > 0 && i < |plan|
    ensures PlanChunks(plan, chunk)
            == PlanChunks(plan[..i], chunk) + ShardChunks(plan[i], chunk, 0) + PlanChunks(plan[i + 1..], chunk)
  {
    hide ShardChunks;
    if i == 0 {
      assert PlanChunks(plan[..0], chunk) == [];
    } else {
      PlanChunksAre(plan[1..], chunk, i - 1);
      assert plan[1..][..i - 1] == plan[..i][1..] && plan[1..][i..] == plan[i + 1..];
      assert plan[..i][0] == plan[0];
    }
  }

  /** A chunk goes out in broadcasts of 1 GiB, which a C int can count; only its last one may be shorter. */
  lemma {:induction false} SubPostsAre(c: Chunk, index: nat, slot: nat, off: nat, k: nat)
    ensures k < |SubPosts(c, index, slot, off)| <==> off + k * 0x4000_0000 < c.n
    ensures off + k * 0x4000_0000 < c.n ==>
              k < |SubPosts(c, index, slot, off)| && SubPosts(c, index, slot, off)[k]
              == Post(c.root, Min(c.n - off - k * 0x4000_0000, 0x4000_0000), slot, index, off + k * 0x4000_0000)
    decreases k
  {
    if off < c.n && k > 0 {
      SubPostsAre(c, index, slot, off + Min(c.n - off, MAX_SUB_BCAST), k - 1);
    }
  }

  /** Files whose numbers follow one another go to different writers, as many as there are. */
  lemma WritersShare(cfg: Config, f: nat, g: nat)
    requires cfg.writers > 0 && f < g < f + cfg.writers
    ensures cfg.WriterOf(f) != cfg.WriterOf(g)
    ensures cfg.WriterOf(f + cfg.writers) == cfg.WriterOf(f)
  {
    var w := cfg.writers;
    AddWhole(f, w);
    NotBetween(f / w, g / w, w);
    assert f == f / w * w + f % w && g == g / w * w + g % w;
  }

  /** Two multiples of w are not strictly between 0 and w apart. */
  lemma NotBetween(a: nat, b: nat, w: nat)
    ensures b * w - a * w <= 0 || b * w - a * w >= w
  {
    if b <= a {
      Products(b, a, w);
    } else {
      Products(a + 1, b, w);
      assert (a + 1) * w == a * w + w;
    }
  }

  lemma AddWhole(f: nat, w: nat)
    requires w > 0
    ensures (f + w) % w == f % w
  {
    var q := f / w;
    QuotientUnique(f, w, q);
    assert (q + 1) * w == q * w + w;
    QuotientUnique(f + w, w, q + 1);
    assert f + w == (f + w) / w * w + (f + w) % w;
    assert f == q * w + f % w;
  }
}
