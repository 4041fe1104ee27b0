/** Values shared by the planner, the plan assembly and the broadcast pipeline. */
module Types {
  datatype Option<+T> = None | Some(value: T)

  type Byte = bv8

  /** One byte-range shard of a file, assigned to one owner rank. */
  datatype ShardSpec = ShardSpec(fileIdx: nat, shardIdx: nat, byteOffset: nat, byteLen: nat, ownerRank: nat)
  {
    /** The bytes of the file this shard covers. */
    predicate Covers(file: nat, p: nat) {
      fileIdx == file && byteOffset <= p < byteOffset + byteLen
    }
  }

  function OfFile(f: nat): ShardSpec -> bool { (s: ShardSpec) => s.fileIdx == f }

  const ALIGN: nat := 4096

  function Min(a: int, b: int): int { if a <= b then a else b }

  function Max(a: int, b: int): int { if a >= b then a else b }

  /** Rust's `div_ceil` on unsigned integers. */
  function DivCeil(a: nat, b: nat): nat
    requires b > 0
  {
    if a % b == 0 then a / b else a / b + 1
  }

  /** `pwrite` of a whole buffer: bytes past the end of the file extend it, a gap reads as zeros. */
  function WriteAt(file: seq<Byte>, offset: nat, data: seq<Byte>): (r: seq<Byte>)
    ensures |r| == if data == [] then |file| else Max(|file|, offset + |data|)
    ensures forall p | 0 <= p < |r| ::
              r[p] == if offset <= p < offset + |data| then data[p - offset]
                      else if p < |file| then file[p] else 0
  {
    if data == [] then file
    else seq(Max(|file|, offset + |data|), p requires 0 <= p =>
               if offset <= p < offset + |data| then data[p - offset]
               else if p < |file| then file[p] else 0)
  }

  /** `ftruncate`: cuts the file, or extends it with zeros. */
  function SetLen(file: seq<Byte>, size: nat): (r: seq<Byte>)
    ensures |r| == size
    ensures forall p | 0 <= p < size :: r[p] == if p < |file| then file[p] else 0
  {
    seq(size, p requires 0 <= p => if p < |file| then file[p] else 0)
  }

  // ---- listings

  const TWO64: nat := 0x1_0000_0000_0000_0000

  /** What a listing says about a blob; `props` and its fields may be missing. */
  datatype Props = Props(size: Option<nat>, modified: Option<string>)

  datatype Blob = Blob(name: string, props: Option<Props>)
  {
    /** `content_length`, 0 when it is not known. */
    function Size(): nat {
      if props.Some? && props.value.size.Some? then props.value.size.value else 0
    }
  }

  function Sizes(entries: seq<Blob>): (r: seq<nat>)
    ensures |r| == |entries| && forall i | 0 <= i < |r| :: r[i] == entries[i].Size()
  {
    seq(|entries|, i requires 0 <= i < |entries| => entries[i].Size())
  }
}
