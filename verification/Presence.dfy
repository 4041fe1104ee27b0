/** The packed presence matrix: bit (rank, file) says that the rank already holds the file. */
module PresenceMatrix {
  import opened Types
  import opened Arith
  import opened Counting
  import opened Sorting

  // ---- bits of a byte

  function Bit(b: Byte, k: nat): bool
    requires k < 8
  {
    (b >> (k as bv8)) & 1 == 1
  }

  function SetBit(b: Byte, k: nat): Byte
    requires k < 8
  {
    b | (1 << (k as bv8))
  }

  lemma SetBitAt(b: Byte, k: bv8, j: bv8)
    requires k < 8 && j < 8
    ensures ((b | (1 << k)) >> j) & 1 == 1 <==> j == k || (b >> j) & 1 == 1
  {
  }

  lemma SetBitIs(b: Byte, k: nat, j: nat)
    requires k < 8 && j < 8
    ensures Bit(SetBit(b, k), j) <==> j == k || Bit(b, j)
  {
    var x, y := k as bv8, j as bv8;
    assert x as nat == k && y as nat == j;
    SmallByte(x);
    SmallByte(y);
    SetBitAt(b, x, y);
  }

  lemma SmallByte(x: bv8)
    requires x as nat < 8
    ensures x < 8
  {
  }

  lemma NoBits(k: nat)
    requires k < 8
    ensures !Bit(0, k)
  {
  }

  // ---- one rank's row

  /** Bit `i` of the row is `holds[i]`, and the padding behind the last file is clear. */
  predicate RowOf(row: seq<Byte>, holds: seq<bool>) {
    && |row| == DivCeil(|holds|, 8)
    && forall i | 0 <= i < 8 * |row| :: Bit(row[i / 8], i % 8) <==> i < |holds| && holds[i]
  }

  /** The loop of presence::run over the listing; `holds` is the local comparison of each entry. */
  method LocalRow(holds: seq<bool>) returns (row: array<Byte>)
    ensures RowOf(row[..], holds)
  {
    var n := |holds|;
    row := new Byte[DivCeil(n, 8)](_ => 0);
    DivCeilIs(n, 8);
    forall k | 0 <= k < 8
      ensures !Bit(0, k)
    {
      NoBits(k);
    }
    var i := 0;
    while i < n
      invariant 0 <= i <= n
      invariant forall j | 0 <= j < 8 * row.Length :: Bit(row[j / 8], j % 8) <==> j < i && holds[j]
    {
      if holds[i] {
        ghost var was := row[..];
        forall j | 0 <= j < 8
          ensures Bit(SetBit(was[i / 8], i % 8), j) <==> j == i % 8 || Bit(was[i / 8], j)
        {
          SetBitIs(was[i / 8], i % 8, j);
        }
        hide Bit;
        row[i / 8] := SetBit(row[i / 8], i % 8);
        forall j | 0 <= j < 8 * row.Length
          ensures Bit(row[j / 8], j % 8) <==> j < i + 1 && holds[j]
        {
          assert Bit(was[j / 8], j % 8) <==> j < i && holds[j];
          SamePlace(i, j);
        }
      }
      i := i + 1;
    }
  }

  lemma SamePlace(i: nat, j: nat)
    ensures i == j <==> i / 8 == j / 8 && i % 8 == j % 8
  {
  }

  // ---- the matrix

  datatype Presence = Presence(worldSize: nat, numFiles: nat, bytesPerRank: nat, data: seq<Byte>)
  {
    predicate Valid() {
      bytesPerRank == DivCeil(numFiles, 8) && |data| == bytesPerRank * worldSize
    }

    predicate InRange(rank: nat, file: nat) {
      rank < worldSize && file < numFiles
    }

    predicate Has(rank: nat, file: nat)
      requires Valid() && InRange(rank, file)
    {
      IndexInside(rank, file, worldSize, numFiles);
      Bit(data[rank * bytesPerRank + file / 8], file % 8)
    }

    function Havers(file: nat): (r: seq<bool>)
      requires Valid() && file < numFiles
      ensures |r| == worldSize && forall q | 0 <= q < worldSize :: r[q] == Has(q, file)
    {
      seq(worldSize, q requires 0 <= q < worldSize => Has(q, file))
    }

    /** How many ranks have the file. */
    function CountOf(file: nat): nat
      requires Valid() && file < numFiles
    {
      Count(Havers(file), IsTrue())
    }

    /** The lowest rank that has the file. */
    function FirstHaver(file: nat): (r: Option<nat>)
      requires Valid() && file < numFiles
      ensures r.Some? ==> r.value < worldSize && Has(r.value, file) && forall q | 0 <= q < r.value :: !Has(q, file)
      ensures r.None? ==> forall q | 0 <= q < worldSize :: !Has(q, file)
    {
      Find(Havers(file), 0)
    }
  }

  function IsTrue(): bool -> bool { (b: bool) => b }

  function Find(q: seq<bool>, from: nat): (r: Option<nat>)
    requires from <= |q|
    ensures r.Some? ==> from <= r.value < |q| && q[r.value] && forall i | from <= i < r.value :: !q[i]
    ensures r.None? ==> forall i | from <= i < |q| :: !q[i]
    decreases |q| - from
  {
    if from == |q| then None else if q[from] then Some(from) else Find(q, from + 1)
  }

  lemma IndexInside(rank: nat, file: nat, worldSize: nat, numFiles: nat)
    requires rank < worldSize && file < numFiles
    ensures rank * DivCeil(numFiles, 8) + file / 8 < DivCeil(numFiles, 8) * worldSize
  {
    var w := DivCeil(numFiles, 8);
    Products(rank + 1, worldSize, w);
    assert (rank + 1) * w == rank * w + w;
  }

  /** MPI_Allgather: the rows one behind the other, in rank order. */
  function Gather(rows: seq<seq<Byte>>): seq<Byte> {
    if rows == [] then [] else Gather(rows[..|rows| - 1]) + rows[|rows| - 1]
  }

  lemma {:induction false} GatherAt(rows: seq<seq<Byte>>, w: nat, r: nat, b: nat)
    requires forall q | 0 <= q < |rows| :: |rows[q]| == w
    requires r < |rows| && b < w
    ensures |Gather(rows)| == w * |rows|
    ensures r * w + b < |Gather(rows)| && Gather(rows)[r * w + b] == rows[r][b]
  {
    var n := |rows| - 1;
    GatherLen(rows, w);
    GatherLen(rows[..n], w);
    if r < n {
      GatherAt(rows[..n], w, r, b);
      Products(n, |rows|, w);
    } else {
      MulSwap(w, n);
    }
    MulSwap(w, |rows|);
  }

  lemma {:induction false} GatherLen(rows: seq<seq<Byte>>, w: nat)
    requires forall q | 0 <= q < |rows| :: |rows[q]| == w
    ensures |Gather(rows)| == w * |rows|
  {
    if rows != [] {
      GatherLen(rows[..|rows| - 1], w);
      assert w * |rows| == w * (|rows| - 1) + w;
    }
  }

  /** What run returns, from the rows of all ranks. */
  function Matrix(rows: seq<seq<Byte>>, numFiles: nat): Presence {
    Presence(|rows|, numFiles, DivCeil(numFiles, 8), Gather(rows))
  }

  /** Reading the packed matrix gives back what each rank found locally. */
  lemma MatrixTells(rows: seq<seq<Byte>>, holds: seq<seq<bool>>, numFiles: nat, r: nat, f: nat)
    requires |rows| == |holds| && r < |rows| && f < numFiles
    requires forall q | 0 <= q < |rows| :: |holds[q]| == numFiles && RowOf(rows[q], holds[q])
    ensures Matrix(rows, numFiles).Valid()
    ensures Matrix(rows, numFiles).Has(r, f) == holds[r][f]
  {
    var w := DivCeil(numFiles, 8);
    DivCeilIs(numFiles, 8);
    GatherAt(rows, w, r, f / 8);
    hide Bit, Gather;
    assert Bit(rows[r][f / 8], f % 8) <==> f < |holds[r]| && holds[r][f];
  }
}
