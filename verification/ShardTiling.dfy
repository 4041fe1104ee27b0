/** The shards of a plan tile every file, in order; their owners are ranks; their cuts are aligned. */
module ShardTiling {
  import opened Types
  import opened Arith
  import opened Counting
  import opened Lpt
  import opened Shards

  function CoversByte(f: nat, p: nat): ShardSpec -> bool { (s: ShardSpec) => s.Covers(f, p) }

  /** The shard that holds byte `p`. */
  function HolderOf(size: nat, shardSize: nat, p: nat): nat {
    if shardSize == 0 || size <= shardSize then 0 else p / shardSize
  }

  lemma CutCovers(file: nat, size: nat, shardSize: nat, i: nat, p: nat)
    requires i < ShardsPerFile(size, shardSize)
    ensures Cut(file, size, shardSize, i).Covers(file, p) <==> p < size && i == HolderOf(size, shardSize, p)
  {
    if shardSize > 0 && size > shardSize {
      QuotientUnique(p, shardSize, i);
    }
  }

  lemma HolderExists(size: nat, shardSize: nat, p: nat)
    requires p < size
    ensures HolderOf(size, shardSize, p) < ShardsPerFile(size, shardSize)
  {
    if shardSize > 0 && size > shardSize {
      DivCeilIs(size, shardSize);
      QuotientUnique(p, shardSize, p / shardSize);
      if DivCeil(size, shardSize) <= p / shardSize {
        Products(DivCeil(size, shardSize), p / shardSize, shardSize);
      }
    }
  }

  lemma FileCover(file: nat, size: nat, shardSize: nat, f: nat, p: nat)
    ensures Count(FileShards(file, size, shardSize), CoversByte(f, p)) == if f == file && p < size then 1 else 0
  {
    hide Cut, HolderOf, Count;
    var q := FileShards(file, size, shardSize);
    if f == file && p < size {
      forall i | 0 <= i < |q|
        ensures CoversByte(f, p)(q[i]) <==> i == HolderOf(size, shardSize, p)
      {
        CutCovers(file, size, shardSize, i, p);
      }
      HolderExists(size, shardSize, p);
      CountOnly(q, CoversByte(f, p), HolderOf(size, shardSize, p));
    } else {
      forall i | 0 <= i < |q|
        ensures !CoversByte(f, p)(q[i])
      {
        CutFile(file, size, shardSize, i);
        if f == file {
          CutCovers(file, size, shardSize, i, p);
        }
      }
      CountZero(q, CoversByte(f, p));
    }
  }

  lemma CutFile(file: nat, size: nat, shardSize: nat, i: nat)
    ensures Cut(file, size, shardSize, i).fileIdx == file
  {
  }

  /** Every byte of every file lies in exactly one shard, and no shard covers anything else. */
  lemma {:induction false} EachByteOnce(sizes: seq<nat>, shardSize: nat, f: nat, p: nat)
    ensures Count(RawShards(sizes, shardSize), CoversByte(f, p)) == if f < |sizes| && p < sizes[f] then 1 else 0
  {
    if sizes == [] {
    } else {
      var n := |sizes| - 1;
      EachByteOnce(sizes[..n], shardSize, f, p);
      FileCover(n, sizes[n], shardSize, f, p);
      CountAppend(RawShards(sizes[..n], shardSize), FileShards(n, sizes[n], shardSize), CoversByte(f, p));
    }
  }

  // ---- order

  /** Where shard `i` stands: at the start of its file, or right behind the shard before it. */
  predicate StepOk(plan: seq<ShardSpec>, sizes: seq<nat>, i: nat)
    requires i < |plan|
  {
    var s := plan[i];
    && s.fileIdx < |sizes|
    && (s.byteLen > 0 || sizes[s.fileIdx] == 0)
    && s.byteOffset + s.byteLen <= sizes[s.fileIdx]
    && (if s.shardIdx == 0
        then s.byteOffset == 0 && s.fileIdx == (if i == 0 then 0 else plan[i - 1].fileIdx + 1)
        else i > 0 && plan[i - 1].fileIdx == s.fileIdx && plan[i - 1].shardIdx + 1 == s.shardIdx
             && plan[i - 1].byteOffset + plan[i - 1].byteLen == s.byteOffset)
    && (LastOfFile(plan, i) ==> s.byteOffset + s.byteLen == sizes[s.fileIdx])
  }

  predicate LastOfFile(plan: seq<ShardSpec>, i: nat)
    requires i < |plan|
  {
    i + 1 == |plan| || plan[i + 1].fileIdx != plan[i].fileIdx
  }

  predicate InOrder(plan: seq<ShardSpec>, sizes: seq<nat>) {
    && (forall i | 0 <= i < |plan| :: StepOk(plan, sizes, i))
    && (if plan == [] then sizes == [] else plan[|plan| - 1].fileIdx == |sizes| - 1)
  }

  lemma CutStep(file: nat, size: nat, shardSize: nat, i: nat)
    requires i < ShardsPerFile(size, shardSize)
    ensures var s := Cut(file, size, shardSize, i);
            && (s.byteLen > 0 || size == 0)
            && s.byteOffset + s.byteLen <= size
            && (i == 0 ==> s.byteOffset == 0)
            && (i > 0 ==> Cut(file, size, shardSize, i - 1).byteOffset + Cut(file, size, shardSize, i - 1).byteLen == s.byteOffset)
            && (s.byteOffset + s.byteLen == size <==> i == ShardsPerFile(size, shardSize) - 1 || size == 0)
  {
    if shardSize > 0 && size > shardSize {
      var n := DivCeil(size, shardSize);
      DivCeilIs(size, shardSize);
      Products(i + 1, n, shardSize);
      assert (i + 1) * shardSize == i * shardSize + shardSize;
      assert n * shardSize == (n - 1) * shardSize + shardSize;
      if i < n - 1 {
        Products(i + 1, n - 1, shardSize);
      }
      if i > 0 {
        assert (i - 1) * shardSize + shardSize == i * shardSize;
      }
    }
  }

  /** The shards stand file by file, and within a file each begins where the one before ended, up to its last byte. */
  lemma {:induction false} ShardsInOrder(sizes: seq<nat>, shardSize: nat)
    ensures InOrder(RawShards(sizes, shardSize), sizes)
  {
    if sizes != [] {
      var n := |sizes| - 1;
      ShardsInOrder(sizes[..n], shardSize);
      AppendFile(RawShards(sizes[..n], shardSize), sizes, shardSize);
    }
  }

  lemma AppendFile(before: seq<ShardSpec>, sizes: seq<nat>, shardSize: nat)
    requires sizes != [] && InOrder(before, sizes[..|sizes| - 1])
    ensures InOrder(before + FileShards(|sizes| - 1, sizes[|sizes| - 1], shardSize), sizes)
  {
    hide Cut, ShardsPerFile;
    var n := |sizes| - 1;
    var own := FileShards(n, sizes[n], shardSize);
    var plan := before + own;
    assert |own| >= 1;
    forall i | 0 <= i < |own|
      ensures own[i].fileIdx == n && own[i].shardIdx == i
    {
      CutIs(n, sizes[n], shardSize, i);
    }
    forall i | 0 <= i < |plan|
      ensures StepOk(plan, sizes, i)
    {
      if i < |before| {
        assert StepOk(before, sizes[..n], i);
      } else {
        CutStep(n, sizes[n], shardSize, i - |before|);
      }
    }
  }

  lemma CutIs(file: nat, size: nat, shardSize: nat, i: nat)
    ensures Cut(file, size, shardSize, i).fileIdx == file && Cut(file, size, shardSize, i).shardIdx == i
  {
  }

  /** Every file has a shard, the empty ones too. */
  lemma {:induction false} EveryFileListed(sizes: seq<nat>, shardSize: nat, f: nat) returns (i: nat)
    requires f < |sizes|
    ensures i < |RawShards(sizes, shardSize)| && RawShards(sizes, shardSize)[i].fileIdx == f
  {
    var n := |sizes| - 1;
    var before := RawShards(sizes[..n], shardSize);
    if f == n {
      i := |before|;
      assert RawShards(sizes, shardSize)[i] == Cut(n, sizes[n], shardSize, 0);
    } else {
      i := EveryFileListed(sizes[..n], shardSize, f);
    }
  }

  // ---- totals and owners

  function Lens(plan: seq<ShardSpec>): (r: seq<nat>)
    ensures |r| == |plan| && forall i | 0 <= i < |r| :: r[i] == plan[i].byteLen
  {
    seq(|plan|, i requires 0 <= i < |plan| => plan[i].byteLen)
  }

  lemma {:induction false} CutsAddUp(file: nat, size: nat, shardSize: nat, k: nat)
    requires 0 < k <= ShardsPerFile(size, shardSize)
    ensures var last := Cut(file, size, shardSize, k - 1);
            Sum(Lens(FileShards(file, size, shardSize)[..k])) == last.byteOffset + last.byteLen
  {
    hide Cut, ShardsPerFile;
    var q := FileShards(file, size, shardSize);
    CutStep(file, size, shardSize, k - 1);
    assert Lens(q[..k])[..k - 1] == Lens(q[..k - 1]);
    if k > 1 {
      CutsAddUp(file, size, shardSize, k - 1);
    } else {
      assert Lens(q[..k - 1]) == [];
    }
  }

  lemma FileTotal(file: nat, size: nat, shardSize: nat)
    ensures Sum(Lens(FileShards(file, size, shardSize))) == size
  {
    hide Cut, Sum;
    var q := FileShards(file, size, shardSize);
    CutsAddUp(file, size, shardSize, |q|);
    CutStep(file, size, shardSize, |q| - 1);
    assert q[..|q|] == q;
  }

  lemma {:induction false} TotalBytes(sizes: seq<nat>, shardSize: nat)
    ensures Sum(Lens(RawShards(sizes, shardSize))) == Sum(sizes)
  {
    if sizes != [] {
      var n := |sizes| - 1;
      var before, own := RawShards(sizes[..n], shardSize), FileShards(n, sizes[n], shardSize);
      assert RawShards(sizes, shardSize) == before + own;
      assert Sum(sizes) == Sum(sizes[..n]) + sizes[n];
      hide RawShards, FileShards, Sum;
      TotalBytes(sizes[..n], shardSize);
      FileTotal(n, sizes[n], shardSize);
      LensAppend(before, own);
      SumAppend(Lens(before), Lens(own));
    }
  }

  lemma LensAppend(a: seq<ShardSpec>, b: seq<ShardSpec>)
    ensures Lens(a + b) == Lens(a) + Lens(b)
  {
  }

  /** A plan is its raw shards with owners filled in. */
  lemma PlanIs(sizes: seq<nat>, count: nat, shardSize: nat)
    ensures var raw, plan := RawShards(sizes, shardSize), Plan(sizes, count, shardSize);
            |plan| == |raw| && forall i | 0 <= i < |raw| :: plan[i] == raw[i].(ownerRank := plan[i].ownerRank)
  {
    if count > 1 {
      AssignedOwners(RawShards(sizes, shardSize), LptOrder(RawShards(sizes, shardSize)), count);
    }
  }

  lemma {:induction false} RawUnowned(sizes: seq<nat>, shardSize: nat)
    ensures forall i | 0 <= i < |RawShards(sizes, shardSize)| :: RawShards(sizes, shardSize)[i].ownerRank == 0
  {
    if sizes != [] {
      RawUnowned(sizes[..|sizes| - 1], shardSize);
    }
  }

  lemma OwnersInRange(sizes: seq<nat>, count: nat, shardSize: nat, i: nat)
    requires i < |Plan(sizes, count, shardSize)|
    ensures Plan(sizes, count, shardSize)[i].ownerRank < Max(count, 1)
  {
    hide RawShards, LptOrder, Assigned, IndexLe;
    var raw := RawShards(sizes, shardSize);
    RawUnowned(sizes, shardSize);
    if count > 1 {
      LptOrderIs(raw);
      AssignedInRange(raw, LptOrder(raw), count, i);
    }
  }

  lemma AssignedInRange(shards: seq<ShardSpec>, order: seq<nat>, m: nat, i: nat)
    requires m > 0 && i < |shards| && i in order
    requires forall t | 0 <= t < |order| :: order[t] < |shards|
    requires forall t, u | 0 <= t < u < |order| :: order[t] != order[u]
    ensures Assigned(shards, order, m)[i].ownerRank < m
  {
    hide Assigned, Bins, SizesIn;
    AssignedBins(shards, order, m);
    var t :| 0 <= t < |order| && order[t] == i;
    assert Bins(SizesIn(shards, order), m)[t] < m;
  }

  lemma {:induction false} CountSame(a: seq<ShardSpec>, b: seq<ShardSpec>, f: nat, p: nat)
    requires |a| == |b| && forall i | 0 <= i < |a| :: b[i] == a[i].(ownerRank := b[i].ownerRank)
    ensures Count(a, CoversByte(f, p)) == Count(b, CoversByte(f, p))
  {
    if a != [] {
      CountSame(a[..|a| - 1], b[..|a| - 1], f, p);
    }
  }

  /**
    Through cutting, sorting and in-place assignment: the plan tiles every file in shard order without gap or
    overlap, has an empty shard only for an empty file, adds up to the total, and names existing ranks.
  */
  lemma PlanTiles(sizes: seq<nat>, count: nat, shardSize: nat)
    ensures var plan := Plan(sizes, count, shardSize);
            && InOrder(plan, sizes)
            && Sum(Lens(plan)) == Sum(sizes)
            && (forall f: nat, p: nat ::
                  Count(plan, CoversByte(f, p)) == if f < |sizes| && p < sizes[f] then 1 else 0)
            && (forall i | 0 <= i < |plan| :: plan[i].ownerRank < Max(count, 1))
  {
    var raw, plan := RawShards(sizes, shardSize), Plan(sizes, count, shardSize);
    hide Plan, RawShards, Count, Sum;
    PlanIs(sizes, count, shardSize);
    ShardsInOrder(sizes, shardSize);
    TotalBytes(sizes, shardSize);
    assert Lens(plan) == Lens(raw);
    forall i | 0 <= i < |plan|
      ensures StepOk(plan, sizes, i) && plan[i].ownerRank < Max(count, 1)
    {
      assert StepOk(raw, sizes, i);
      OwnersInRange(sizes, count, shardSize, i);
    }
    forall f: nat, p: nat
      ensures Count(plan, CoversByte(f, p)) == if f < |sizes| && p < sizes[f] then 1 else 0
    {
      EachByteOnce(sizes, shardSize, f, p);
      CountSame(raw, plan, f, p);
    }
  }

  // ---- alignment

  /** With a shard size of 0 or a multiple of the chunk, a shard is a whole number of chunks or ends its file. */
  lemma CutsWhole(sizes: seq<nat>, count: nat, shardSize: nat, chunk: nat, i: nat)
    requires chunk > 0 && shardSize % chunk == 0 && i < |Plan(sizes, count, shardSize)|
    ensures var s := Plan(sizes, count, shardSize)[i];
            && s.fileIdx < |sizes| && s.byteOffset % chunk == 0
            && (s.byteLen % chunk == 0 || s.byteOffset + s.byteLen == sizes[s.fileIdx])
  {
    PlanIs(sizes, count, shardSize);
    RawWhole(sizes, shardSize, chunk, i);
  }

  lemma {:induction false} RawWhole(sizes: seq<nat>, shardSize: nat, chunk: nat, i: nat)
    requires chunk > 0 && shardSize % chunk == 0 && i < |RawShards(sizes, shardSize)|
    ensures var s := RawShards(sizes, shardSize)[i];
            && s.fileIdx < |sizes| && s.byteOffset % chunk == 0
            && (s.byteLen % chunk == 0 || s.byteOffset + s.byteLen == sizes[s.fileIdx])
  {
    if sizes != [] {
      var n := |sizes| - 1;
      var before := RawShards(sizes[..n], shardSize);
      if i < |before| {
        RawWhole(sizes[..n], shardSize, chunk, i);
      } else {
        var k := i - |before|;
        assert RawShards(sizes, shardSize)[i] == Cut(n, sizes[n], shardSize, k);
        CutWhole(n, sizes[n], shardSize, chunk, k);
      }
    }
  }

  lemma CutWhole(file: nat, size: nat, shardSize: nat, chunk: nat, i: nat)
    requires chunk > 0 && shardSize % chunk == 0 && i < ShardsPerFile(size, shardSize)
    ensures var s := Cut(file, size, shardSize, i);
            s.byteOffset % chunk == 0 && (s.byteLen % chunk == 0 || s.byteOffset + s.byteLen == size)
  {
    CutStep(file, size, shardSize, i);
    MultipleOf(i, shardSize, chunk);
  }

  // ---- --file-shards

  function MaxSize(sizes: seq<nat>): (m: nat)
    ensures forall i | 0 <= i < |sizes| :: sizes[i] <= m
    ensures m > 0 ==> m in sizes
  {
    if sizes == [] then 0 else Max(MaxSize(sizes[..|sizes| - 1]), sizes[|sizes| - 1])
  }

  /** compute_shard_size_from_file_shards; the product wraps at 64 bits. */
  function DerivedShardSize(sizes: seq<nat>, fileShards: nat, chunk: nat): nat
    requires fileShards >= 1 && chunk > 0
  {
    if MaxSize(sizes) == 0 then 0
    else DivCeil(DivCeil(MaxSize(sizes), fileShards), chunk) * chunk % TWO64
  }

  predicate DerivedFits(sizes: seq<nat>, fileShards: nat, chunk: nat)
    requires fileShards >= 1 && chunk > 0
  {
    DivCeil(DivCeil(MaxSize(sizes), fileShards), chunk) * chunk < TWO64
  }

  /** The derived size is a multiple of the chunk exactly when the product does not wrap or wraps on a chunk boundary. */
  lemma DerivedQualifies(sizes: seq<nat>, fileShards: nat, chunk: nat)
    requires fileShards >= 1 && 0 < chunk < TWO64 && MaxSize(sizes) < TWO64
    ensures DerivedShardSize(sizes, fileShards, chunk) % chunk == 0
            <==> DerivedFits(sizes, fileShards, chunk) || TWO64 % chunk == 0
  {
    var raw := DivCeil(MaxSize(sizes), fileShards);
    var pieces := DivCeil(raw, chunk);
    if MaxSize(sizes) == 0 {
      assert pieces == 0;
    } else {
      DivCeilSmall(MaxSize(sizes), fileShards);
      DivCeilIs(raw, chunk);
      MulMod(pieces, chunk);
      if pieces * chunk >= TWO64 {
        assert pieces * chunk % TWO64 == pieces * chunk - TWO64;
        RestMultiple(pieces, chunk);
      }
    }
  }

  lemma RestMultiple(q: nat, b: nat)
    requires b > 0 && q * b >= TWO64
    ensures (q * b - TWO64) % b == 0 <==> TWO64 % b == 0
  {
    MulMod(q, b);
    if TWO64 % b == 0 {
      SumMultiple(q * b, TWO64, b);
    }
    if (q * b - TWO64) % b == 0 {
      SumMultiple(q * b, q * b - TWO64, b);
    }
  }

  /** It can fail: one file of 2^64 - 1 bytes in one shard, with chunks of 12288, gives 8192. */
  lemma DerivedWraps()
    ensures DerivedShardSize([TWO64 - 1], 1, 12288) == 8192 && 8192 % 12288 != 0
  {
    assert [TWO64 - 1][..0] == [];
    assert MaxSize([TWO64 - 1]) == TWO64 - 1;
    assert DivCeil(TWO64 - 1, 1) == TWO64 - 1;
  }

  /** Wrapping keeps a power of two: with an aligned chunk the derived size is aligned whatever happens. */
  lemma DerivedAligned(sizes: seq<nat>, fileShards: nat, chunk: nat)
    requires fileShards >= 1 && chunk > 0 && chunk % ALIGN == 0
    ensures DerivedShardSize(sizes, fileShards, chunk) % ALIGN == 0
  {
    var product := DivCeil(DivCeil(MaxSize(sizes), fileShards), chunk) * chunk;
    MultipleOf(DivCeil(DivCeil(MaxSize(sizes), fileShards), chunk), chunk, ALIGN);
    assert TWO64 % ALIGN == 0;
    assert product % TWO64 == product - product / TWO64 * TWO64;
    MultipleOf(product / TWO64, TWO64, ALIGN);
    SumMultiple(product, product / TWO64 * TWO64, ALIGN);
  }

  /**
    Without wrap-around the derived size is the least whole number of chunks of which the requested number of shards
    holds the largest file.
  */
  lemma DerivedIsLeast(sizes: seq<nat>, fileShards: nat, chunk: nat, pieces: nat)
    requires fileShards >= 1 && chunk > 0 && DerivedFits(sizes, fileShards, chunk)
    ensures var size := DerivedShardSize(sizes, fileShards, chunk);
            && size % chunk == 0 && (forall i | 0 <= i < |sizes| :: sizes[i] <= size * fileShards)
            && ((forall i | 0 <= i < |sizes| :: sizes[i] <= pieces * chunk * fileShards) ==> size <= pieces * chunk)
  {
    var max := MaxSize(sizes);
    var raw := DivCeil(max, fileShards);
    var least := DivCeil(raw, chunk);
    if max > 0 {
      DivCeilIs(max, fileShards);
      DivCeilIs(raw, chunk);
      MulMod(least, chunk);
      Products(raw, least * chunk, fileShards);
      if forall i | 0 <= i < |sizes| :: sizes[i] <= pieces * chunk * fileShards {
        NoFewer(max, fileShards, pieces * chunk);
        NoFewer(raw, chunk, pieces);
        Products(least, pieces, chunk);
      }
    }
  }

  lemma NoFewer(a: nat, b: nat, n: nat)
    requires b > 0 && a <= n * b
    ensures DivCeil(a, b) <= n
  {
    DivCeilIs(a, b);
    Distrib(n, -1, b);
    if DivCeil(a, b) > n {
      Products(n + 1, DivCeil(a, b), b);
    }
  }

  /** Without wrap-around the largest file, and so every file, is cut into at most the requested number of shards. */
  lemma DerivedCount(sizes: seq<nat>, fileShards: nat, chunk: nat, f: nat)
    requires fileShards >= 1 && chunk > 0 && DerivedFits(sizes, fileShards, chunk) && f < |sizes|
    ensures ShardsPerFile(sizes[f], DerivedShardSize(sizes, fileShards, chunk)) <= fileShards
  {
    var size := DerivedShardSize(sizes, fileShards, chunk);
    var raw := DivCeil(MaxSize(sizes), fileShards);
    if MaxSize(sizes) > 0 && size > 0 && sizes[f] > size {
      assert size == DivCeil(raw, chunk) * chunk;
      DivCeilIs(raw, chunk);
      DivCeilIs(MaxSize(sizes), fileShards);
      DivCeilIs(sizes[f], size);
      Products(raw, size, fileShards);
      Distrib(DivCeil(sizes[f], size), 1, size);
      MulSwap(fileShards, size);
      if DivCeil(sizes[f], size) > fileShards {
        Products(fileShards, DivCeil(sizes[f], size) - 1, size);
        assert false;
      }
    }
  }
}
