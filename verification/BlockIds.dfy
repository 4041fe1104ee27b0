/** Block ids: the block number in decimal, padded to six digits, in Base64 (section 4 of RFC 4648). */
module BlockIds {
  import opened Types
  import opened Filelist

  /** Zero-padding on the left to six characters. */
  function Pad(s: string): (r: string)
    ensures |r| == Max(|s|, 6)
    decreases 6 - |s|
  {
    if |s| >= 6 then s else Pad("0" + s)
  }

  /** The Base64 alphabet. */
  function Sextet(k: nat): char
    requires k < 64
  {
    if k < 26 then 'A' + k as char
    else if k < 52 then 'a' + (k - 26) as char
    else if k < 62 then '0' + (k - 52) as char
    else if k == 62 then '+' else '/'
  }

  /** A sextet, or the padding character for 64. */
  function Symbol(v: nat): char
    requires v <= 64
  {
    if v == 64 then '=' else Sextet(v)
  }

  lemma SymbolTells(j: nat, k: nat)
    requires j <= 64 && k <= 64
    ensures Symbol(j) == Symbol(k) <==> j == k
  {
  }

  predicate Bytes(s: seq<nat>) { forall i | 0 <= i < |s| :: s[i] < 256 }

  /** The four symbols of the first three bytes, or of what is left. */
  function Four(s: seq<nat>): (v: seq<nat>)
    requires Bytes(s) && s != []
    ensures |v| == 4 && forall i | 0 <= i < 4 :: v[i] <= 64
  {
    if |s| == 1 then [s[0] / 4, s[0] % 4 * 16, 64, 64]
    else if |s| == 2 then [s[0] / 4, s[0] % 4 * 16 + s[1] / 16, s[1] % 16 * 4, 64]
    else [s[0] / 4, s[0] % 4 * 16 + s[1] / 16, s[1] % 16 * 4 + s[2] / 64, s[2] % 64]
  }

  /**
    Four groups of six bits hold the three bytes, high bits first; what is missing of them counts as zeros, and groups
    with nothing but missing bits are padding.
  */
  lemma FourIs(s: seq<nat>)
    requires Bytes(s) && s != []
    ensures var v := Four(s);
            && v[0] < 64 && v[1] < 64 && (v[2] == 64 <==> |s| < 2) && (v[3] == 64 <==> |s| < 3)
            && 0x1_0000 * s[0] + 0x100 * (if |s| > 1 then s[1] else 0) + (if |s| > 2 then s[2] else 0)
               == 0x4_0000 * v[0] + 0x1000 * v[1] + 0x40 * (if |s| < 2 then 0 else v[2]) + if |s| < 3 then 0 else v[3]
  {
    Halves(s[0], 4);
    if |s| > 1 {
      Halves(s[1], 16);
      if |s| > 2 {
        Halves(s[2], 64);
      }
    }
  }

  lemma Halves(x: nat, d: nat)
    requires 0 < d
    ensures x == d * (x / d) + x % d && x % d < d
  {
  }

  function Rest(s: seq<nat>): seq<nat> { if |s| > 3 then s[3..] else [] }

  function Base64(s: seq<nat>): string
    requires Bytes(s)
    decreases |s|
  {
    if s == [] then ""
    else
      var v := Four(s);
      [Symbol(v[0]), Symbol(v[1]), Symbol(v[2]), Symbol(v[3])] + Base64(Rest(s))
  }

  /** Four symbols for every three bytes or part of three. */
  lemma {:induction false} Base64Length(s: seq<nat>)
    requires Bytes(s)
    ensures |Base64(s)| == DivCeil(|s|, 3) * 4
    decreases |s|
  {
    hide Four, Symbol;
    if s != [] {
      Base64Length(Rest(s));
    }
  }

  /** The first four symbols give back the first three bytes, or say that there are fewer. */
  lemma FourTells(a: seq<nat>, b: seq<nat>)
    requires Bytes(a) && Bytes(b) && a != [] && b != [] && Four(a) == Four(b)
    ensures |a| < 3 || |b| < 3 ==> a == b
    ensures |a| >= 3 && |b| >= 3 ==> a[..3] == b[..3]
  {
    var v, w := Four(a), Four(b);
    assert v[0] == w[0] && v[1] == w[1] && v[2] == w[2] && v[3] == w[3];
  }

  /** Different byte strings have different encodings. */
  lemma {:induction false} Base64Injective(a: seq<nat>, b: seq<nat>)
    requires Bytes(a) && Bytes(b) && Base64(a) == Base64(b)
    ensures a == b
    decreases |a|
  {
    if a != [] && b != [] {
      var x, y := Base64(a), Base64(b);
      forall i | 0 <= i < 4
        ensures Four(a)[i] == Four(b)[i]
      {
        assert x[i] == Symbol(Four(a)[i]) && y[i] == Symbol(Four(b)[i]);
        SymbolTells(Four(a)[i], Four(b)[i]);
      }
      hide Four;
      FourTells(a, b);
      assert x[4..] == Base64(Rest(a)) && y[4..] == Base64(Rest(b));
      Base64Injective(Rest(a), Rest(b));
      Together(a);
      Together(b);
    }
  }

  lemma Together(s: seq<nat>)
    ensures |s| >= 3 ==> s == s[..3] + Rest(s)
  {
  }

  // ---- ids

  function Ascii(s: string): (r: seq<nat>)
    ensures |r| == |s| && Bytes(r)
  {
    seq(|s|, i requires 0 <= i < |s| => s[i] as nat % 256)
  }

  function BlockId(i: nat): (id: string) { Base64(Ascii(Pad(Decimal(i)))) }

  predicate Digits(s: string) { forall i | 0 <= i < |s| :: '0' <= s[i] <= '9' }

  lemma {:induction false} DecimalDigits(n: nat)
    ensures Digits(Decimal(n)) && Decimal(n) != []
  {
    DigitIs(n % 10);
    if n >= 10 {
      DecimalDigits(n / 10);
    }
  }

  lemma {:induction false} PadIs(s: string)
    requires Digits(s) && s != []
    ensures Digits(Pad(s)) && ParseDigits(Pad(s)) == ParseDigits(s)
    decreases 6 - |s|
  {
    if |s| < 6 {
      LeadingZero(s);
      PadIs("0" + s);
    }
  }

  lemma {:induction false} LeadingZero(s: string)
    ensures ParseDigits("0" + s) == ParseDigits(s)
  {
    if s == [] {
      assert "0"[..0] == "";
      assert ParseDigits("") == Some(0);
      assert "0" + s == "0";
    } else {
      LeadingZero(s[..|s| - 1]);
      assert ("0" + s)[..|s|] == "0" + s[..|s| - 1];
    }
  }

  lemma AsciiTells(a: string, b: string)
    requires Digits(a) && Digits(b) && Ascii(a) == Ascii(b)
    ensures a == b
  {
    forall i | 0 <= i < |a|
      ensures a[i] == b[i]
    {
      assert Ascii(a)[i] == Ascii(b)[i];
      assert a[i] as nat < 256 && b[i] as nat < 256;
    }
  }

  /** What a block id encodes: at least six digits, whose value is the block's number. */
  lemma IdTextIs(i: nat)
    requires i < TWO64
    ensures var text := Pad(Decimal(i));
            && |text| >= 6 && Digits(text) && ParseDigits(text) == Some(i) && BlockId(i) == Base64(Ascii(text))
            && forall k | 0 <= k < |text| :: Ascii(text)[k] == text[k] as nat
  {
    hide Base64, Pad, Decimal, ParseDigits;
    DecimalDigits(i);
    PadIs(Decimal(i));
    DecimalParses(i);
  }

  lemma PadZero()
    ensures Pad("0") == "000000"
  {
    assert "0" + "0" == "00" && "0" + "00" == "000" && "0" + "000" == "0000" && "0" + "0000" == "00000" && "0" + "00000" == "000000";
    assert Pad("000000") == "000000";
    assert Pad("0000") == Pad("00000") == "000000";
    assert Pad("0") == Pad("00") == Pad("000") == Pad("0000");
  }

  /** Three digits zero, and what follows them. */
  lemma ZerosEncode(s: seq<nat>)
    requires Bytes(s) && |s| >= 3 && s[0] == s[1] == s[2] == 48
    ensures Base64(s) == "MDAw" + Base64(s[3..])
  {
    var v := Four(s);
    assert v == [12, 3, 0, 48];
    assert Symbol(12) == 'M' && Symbol(3) == 'D' && Symbol(0) == 'A' && Symbol(48) == 'w';
    hide Four, Symbol;
    assert Rest(s) == s[3..];
    assert Base64(s) == [Symbol(12), Symbol(3), Symbol(0), Symbol(48)] + Base64(s[3..]);
  }

  /** The id of a file's first block, spelled out. */
  lemma FirstId()
    ensures BlockId(0) == "MDAwMDAw"
  {
    hide Pad, Base64, Four;
    PadZero();
    var s := Ascii("000000");
    ZerosEncode(s);
    ZerosEncode(s[3..]);
    assert s[3..][3..] == [];
    NothingEncodes();
    assert Decimal(0) == "0";
  }

  lemma NothingEncodes()
    ensures Base64([]) == ""
  {
  }

  /** No two blocks share an id. */
  lemma IdsDistinct(i: nat, j: nat)
    requires i < TWO64 && j < TWO64 && BlockId(i) == BlockId(j)
    ensures i == j
  {
    hide Base64, Pad, Decimal, ParseDigits;
    DecimalDigits(i);
    DecimalDigits(j);
    PadIs(Decimal(i));
    PadIs(Decimal(j));
    Base64Injective(Ascii(Pad(Decimal(i))), Ascii(Pad(Decimal(j))));
    AsciiTells(Pad(Decimal(i)), Pad(Decimal(j)));
    DecimalParses(i);
    DecimalParses(j);
  }

  function Pow10(k: nat): (r: nat)
    ensures r >= 1
  {
    if k == 0 then 1 else 10 * Pow10(k - 1)
  }

  lemma {:induction false} DecimalLength(n: nat, k: nat)
    requires k >= 1
    ensures |Decimal(n)| <= k <==> n < Pow10(k)
    decreases n
  {
    if n < 10 {
      assert Pow10(k) == 10 * Pow10(k - 1);
    } else {
      assert |Decimal(n)| == |Decimal(n / 10)| + 1;
      if k == 1 {
        DecimalDigits(n / 10);
        assert Pow10(1) == 10 * Pow10(0);
      } else {
        DecimalLength(n / 10, k - 1);
        assert Pow10(k) == 10 * Pow10(k - 1);
      }
    }
  }

  /** The ids of n blocks all have the length of the first one exactly when there are at most a million of them. */
  lemma EqualLengths(n: nat)
    ensures (forall i: nat | i < n :: |BlockId(i)| == |BlockId(0)|) <==> n <= 1000000
  {
    assert Pow10(6) == 1000000 by {
      assert Pow10(3) == 1000;
      assert Pow10(6) == 1000 * Pow10(3);
    }
    hide Pow10, Decimal, Base64, Pad;
    forall i: nat
      ensures |BlockId(i)| == 8 <==> i < 1000000
    {
      DecimalLength(i, 6);
      Base64Length(Ascii(Pad(Decimal(i))));
      assert |BlockId(i)| == DivCeil(Max(|Decimal(i)|, 6), 3) * 4;
    }
    if n > 1000000 {
      assert |BlockId(1000000)| != |BlockId(0)|;
    }
  }
}
