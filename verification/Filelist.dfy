/** The saved file list: one name, size and date per line, tab-separated. */
module Filelist {
  import opened Types

  // ---- text

  /** char::is_whitespace */
  predicate IsSpace(c: char) {
    || '\t' <= c <= '\r' || c == ' ' || c == '\U{85}' || c == '\U{a0}' || c == '\U{1680}'
    || '\U{2000}' <= c <= '\U{200a}' || c == '\U{2028}' || c == '\U{2029}' || c == '\U{202f}'
    || c == '\U{205f}' || c == '\U{3000}'
  }

  function TrimStart(s: string): string {
    if s != [] && IsSpace(s[0]) then TrimStart(s[1..]) else s
  }

  function TrimEnd(s: string): string {
    if s != [] && IsSpace(s[|s| - 1]) then TrimEnd(s[..|s| - 1]) else s
  }

  function Trim(s: string): string { TrimEnd(TrimStart(s)) }

  /** trim_end_matches('\r') */
  function TrimCr(s: string): string {
    if s != [] && s[|s| - 1] == '\r' then TrimCr(s[..|s| - 1]) else s
  }

  /** The position of the first `c`, or the length. */
  function IndexOf(s: string, c: char): (i: nat)
    ensures i <= |s|
    ensures forall j | 0 <= j < i :: s[j] != c
    ensures i < |s| ==> s[i] == c
  {
    if s == [] || s[0] == c then 0 else 1 + IndexOf(s[1..], c)
  }

  /** str::lines: a line ends at a line feed, with at most one carriage return before it. */
  function Lines(text: string): seq<string>
    decreases |text|
  {
    if text == [] then []
    else
      var i := IndexOf(text, '\n');
      if i == |text| then [text]
      else [if i > 0 && text[i - 1] == '\r' then text[..i - 1] else text[..i]] + Lines(text[i + 1..])
  }

  /** str::split: at least one field. */
  function Split(s: string, c: char): (r: seq<string>)
    ensures |r| >= 1
    decreases |s|
  {
    var i := IndexOf(s, c);
    if i == |s| then [s] else [s[..i]] + Split(s[i + 1..], c)
  }

  // ---- numbers

  function Digit(d: nat): char
    requires d < 10
  {
    '0' + d as char
  }

  /** A u64 in decimal. */
  function Decimal(n: nat): string {
    if n < 10 then [Digit(n)] else Decimal(n / 10) + [Digit(n % 10)]
  }

  /** The digits of u64::from_str, with checked arithmetic. */
  function ParseDigits(s: string): (r: Option<nat>)
    ensures r.Some? ==> r.value < TWO64
  {
    if s == [] then Some(0)
    else
      var c := s[|s| - 1];
      match ParseDigits(s[..|s| - 1])
      case None => None
      case Some(v) =>
        if '0' <= c <= '9' && v * 10 + (c - '0') as nat < TWO64 then Some(v * 10 + (c - '0') as nat) else None
  }

  /** u64::from_str: an optional plus sign, then at least one digit. */
  function ParseU64(s: string): (r: Option<nat>)
    ensures r.Some? ==> r.value < TWO64
  {
    var digits := if s != [] && s[0] == '+' then s[1..] else s;
    if digits == [] then None else ParseDigits(digits)
  }

  // ---- one line

  function ParseModified(fields: seq<string>): Option<string> {
    if |fields| < 3 then None
    else
      var s := Trim(fields[2]);
      if s == [] || s == "-" then None else Some(s)
  }

  predicate Skipped(line: string) {
    line == [] || line[0] == '#'
  }

  /** One raw line of the list; None when it is skipped. */
  function ParseLine(raw: string): Option<Blob> {
    var line := TrimCr(raw);
    if Skipped(line) then None
    else
      var fields := Split(line, '\t');
      if fields[0] == [] || |fields| < 2 || ParseU64(fields[1]).None? then None
      else Some(Blob(fields[0], Some(Props(ParseU64(fields[1]), ParseModified(fields)))))
  }

  function ParseLines(lines: seq<string>): seq<Blob> {
    if lines == [] then []
    else
      match ParseLine(lines[0])
      case None => ParseLines(lines[1..])
      case Some(b) => [b] + ParseLines(lines[1..])
  }

  function Deserialize(text: string): seq<Blob> { ParseLines(Lines(text)) }

  function Modified(e: Blob): Option<string> {
    if e.props.Some? then e.props.value.modified else None
  }

  function FormatLine(e: Blob): string {
    e.name + "\t" + Decimal(e.Size()) + "\t" + (if Modified(e).Some? then Modified(e).value else "-")
  }

  function Serialize(entries: seq<Blob>): string {
    if entries == [] then [] else FormatLine(entries[0]) + "\n" + Serialize(entries[1..])
  }

  // ---- the loops

  lemma SerializeNext(out: string, entries: seq<Blob>, i: nat)
    requires i < |entries|
    ensures out + Serialize(entries[i..]) == (out + FormatLine(entries[i]) + "\n") + Serialize(entries[i + 1..])
  {
    hide FormatLine;
    assert entries[i..][1..] == entries[i + 1..];
    assert Serialize(entries[i..]) == FormatLine(entries[i]) + "\n" + Serialize(entries[i + 1..]);
  }

  method SerializeList(entries: seq<Blob>) returns (out: string)
    ensures out == Serialize(entries)
  {
    hide FormatLine;
    out := "";
    var i := 0;
    assert entries[0..] == entries;
    while i < |entries|
      invariant 0 <= i <= |entries|
      invariant out + Serialize(entries[i..]) == Serialize(entries)
    {
      SerializeNext(out, entries, i);
      out := out + FormatLine(entries[i]) + "\n";
      i := i + 1;
    }
    assert entries[i..] == [];
  }

  method DeserializeText(text: string) returns (out: seq<Blob>)
    ensures out == Deserialize(text)
  {
    out := [];
    var lines := Lines(text);
    var i := 0;
    assert lines[0..] == lines;
    while i < |lines|
      invariant 0 <= i <= |lines|
      invariant out + ParseLines(lines[i..]) == ParseLines(lines)
    {
      assert lines[i..][1..] == lines[i + 1..];
      var b := ParseLine(lines[i]);
      if b.Some? {
        assert out + ([b.value] + ParseLines(lines[i + 1..])) == (out + [b.value]) + ParseLines(lines[i + 1..]);
        out := out + [b.value];
      }
      i := i + 1;
    }
    assert lines[i..] == [];
  }

  // ---- read_shardlist

  datatype Shardlist = Entries(entries: seq<Blob>) | MissingName(line: nat) | MissingSize(line: nat)

  /** read_shardlist: the same format, but a line without a name or without a size field is an error. */
  method ReadShardlist(content: string) returns (r: Shardlist)
    ensures r.Entries? <==> AllComplete(content)
    ensures r.Entries? ==> r.entries == Deserialize(content)
    ensures r.MissingName? ==> FirstBad(content, r.line) && NameMissing(Lines(content)[r.line - 1])
    ensures r.MissingSize? ==> FirstBad(content, r.line) && !NameMissing(Lines(content)[r.line - 1])
  {
    hide Lines, Split, TrimCr, ParseU64, ParseModified;
    var out := [];
    var lines := Lines(content);
    var lineno := 0;
    assert lines[0..] == lines;
    while lineno < |lines|
      invariant 0 <= lineno <= |lines|
      invariant out + ParseLines(lines[lineno..]) == ParseLines(lines)
      invariant forall i | 0 <= i < lineno :: Complete(lines[i])
    {
      assert lines[lineno..][1..] == lines[lineno + 1..];
      var line := TrimCr(lines[lineno]);
      if !Skipped(line) {
        var fields := Split(line, '\t');
        if fields[0] == [] {
          assert FirstBad(content, lineno + 1);
          return MissingName(lineno + 1);
        }
        if |fields| < 2 {
          assert FirstBad(content, lineno + 1);
          return MissingSize(lineno + 1);
        }
        var size := ParseU64(fields[1]);
        if size.Some? {
          var b := Blob(fields[0], Some(Props(size, ParseModified(fields))));
          assert out + ([b] + ParseLines(lines[lineno + 1..])) == (out + [b]) + ParseLines(lines[lineno + 1..]);
          out := out + [b];
        }
      }
      lineno := lineno + 1;
    }
    assert lines[lineno..] == [];
    r := Entries(out);
  }

  predicate NameMissing(raw: string) {
    !Skipped(TrimCr(raw)) && Split(TrimCr(raw), '\t')[0] == []
  }

  predicate Complete(raw: string) {
    var line := TrimCr(raw);
    Skipped(line) || (Split(line, '\t')[0] != [] && |Split(line, '\t')| >= 2)
  }

  predicate AllComplete(content: string) {
    forall i | 0 <= i < |Lines(content)| :: Complete(Lines(content)[i])
  }

  predicate FirstBad(content: string, line: nat) {
    && 0 < line <= |Lines(content)| && !Complete(Lines(content)[line - 1])
    && forall i | 0 <= i < line - 1 :: Complete(Lines(content)[i])
  }

  // ---- well-formed entries

  predicate Without(s: string, c: char) {
    forall i | 0 <= i < |s| :: s[i] != c
  }

  /** What a saved entry must be to come back unchanged. */
  predicate WellFormed(e: Blob) {
    && e.name != [] && e.name[0] != '#' && Without(e.name, '\t') && Without(e.name, '\n')
    && e.props.Some? && e.props.value.size.Some? && e.props.value.size.value < TWO64
    && (e.props.value.modified.Some? ==>
          var m := e.props.value.modified.value;
          && m != [] && m != "-" && !IsSpace(m[0]) && !IsSpace(m[|m| - 1])
          && Without(m, '\t') && Without(m, '\n'))
  }

  lemma {:induction false} TrimmedEnds(s: string)
    ensures TrimEnd(s) != [] ==> !IsSpace(TrimEnd(s)[|TrimEnd(s)| - 1]) && TrimEnd(s)[0] == s[0]
    ensures s != [] && !IsSpace(s[|s| - 1]) ==> TrimEnd(s) == s
    ensures forall c | Without(s, c) :: Without(TrimEnd(s), c)
  {
    if s != [] && IsSpace(s[|s| - 1]) {
      TrimmedEnds(s[..|s| - 1]);
      assert forall c | Without(s, c) :: Without(s[..|s| - 1], c);
    }
  }

  lemma {:induction false} TrimmedStarts(s: string)
    ensures TrimStart(s) != [] ==> !IsSpace(TrimStart(s)[0])
    ensures s != [] && !IsSpace(s[0]) ==> TrimStart(s) == s
    ensures forall c | Without(s, c) :: Without(TrimStart(s), c)
  {
    if s != [] && IsSpace(s[0]) {
      TrimmedStarts(s[1..]);
      assert forall c | Without(s, c) :: Without(s[1..], c);
    }
  }

  lemma {:induction false} TrimmedCr(s: string)
    ensures |TrimCr(s)| <= |s| && TrimCr(s) == s[..|TrimCr(s)|]
    ensures s == [] || s[|s| - 1] != '\r' ==> TrimCr(s) == s
  {
    if s != [] && s[|s| - 1] == '\r' {
      TrimmedCr(s[..|s| - 1]);
    }
  }

  lemma {:induction false} FieldsClean(s: string, c: char, d: char)
    ensures forall i | 0 <= i < |Split(s, c)| :: Without(Split(s, c)[i], c) && (Without(s, d) ==> Without(Split(s, c)[i], d))
    ensures Split(s, c)[0] == s[..IndexOf(s, c)]
    decreases |s|
  {
    var i := IndexOf(s, c);
    if i < |s| {
      FieldsClean(s[i + 1..], c, d);
    }
  }

  lemma {:induction false} LinesClean(text: string, i: nat)
    requires i < |Lines(text)|
    ensures Without(Lines(text)[i], '\n')
    decreases |text|
  {
    var k := IndexOf(text, '\n');
    if k < |text| && i > 0 {
      LinesClean(text[k + 1..], i - 1);
    }
  }

  /** Whatever the line, an entry read from it is well formed. */
  lemma ParsedIsWellFormed(raw: string)
    requires Without(raw, '\n') && ParseLine(raw).Some?
    ensures WellFormed(ParseLine(raw).value)
  {
    var line := TrimCr(raw);
    TrimmedCr(raw);
    FieldsClean(line, '\t', '\n');
    var fields := Split(line, '\t');
    assert fields[0][0] == line[0];
    if |fields| >= 3 {
      TrimmedStarts(fields[2]);
      TrimmedEnds(TrimStart(fields[2]));
      var m := Trim(fields[2]);
      assert Without(TrimStart(fields[2]), '\t') && Without(TrimStart(fields[2]), '\n');
      assert m != [] ==> m[0] == TrimStart(fields[2])[0];
    }
  }

  lemma {:induction false} AllWellFormed(lines: seq<string>, i: nat)
    requires forall k | 0 <= k < |lines| :: Without(lines[k], '\n')
    requires i < |ParseLines(lines)|
    ensures WellFormed(ParseLines(lines)[i])
  {
    hide WellFormed, ParseLine;
    if ParseLine(lines[0]).Some? {
      ParsedIsWellFormed(lines[0]);
      if i > 0 {
        AllWellFormed(lines[1..], i - 1);
      }
    } else {
      AllWellFormed(lines[1..], i);
    }
  }

  // ---- reading back what was written

  lemma DigitIs(d: nat)
    requires d < 10
    ensures '0' <= Digit(d) <= '9' && (Digit(d) - '0') as nat == d
  {
  }

  lemma {:induction false} DecimalParses(n: nat)
    requires n < TWO64
    ensures Decimal(n) != [] && '0' <= Decimal(n)[0] <= '9'
    ensures ParseDigits(Decimal(n)) == Some(n)
    ensures Without(Decimal(n), '\t') && Without(Decimal(n), '\n')
  {
    DigitIs(n % 10);
    if n < 10 {
      assert Decimal(n)[..0] == [];
      assert ParseDigits([]) == Some(0);
    } else {
      DecimalParses(n / 10);
      assert Decimal(n)[..|Decimal(n)| - 1] == Decimal(n / 10);
    }
  }

  lemma IndexAfter(a: string, b: string, c: char)
    requires Without(a, c)
    ensures IndexOf(a + [c] + b, c) == |a|
    ensures Without(a + b, c) <==> Without(b, c)
    ensures IndexOf(a, c) == |a|
  {
    var s := a + [c] + b;
    assert s[|a|] == c;
    assert forall i | 0 <= i < |a| :: s[i] == a[i];
    assert forall i | 0 <= i < |b| :: (a + b)[|a| + i] == b[i];
  }

  lemma SplitAfter(a: string, b: string, c: char)
    requires Without(a, c)
    ensures Split(a + [c] + b, c) == [a] + Split(b, c)
    ensures Split(a, c) == [a]
  {
    IndexAfter(a, b, c);
    var s := a + [c] + b;
    assert s[..|a|] == a && s[|a| + 1..] == b;
  }

  function ModifiedField(e: Blob): string { if Modified(e).Some? then Modified(e).value else "-" }

  lemma FormatFields(e: Blob)
    requires WellFormed(e)
    ensures Split(FormatLine(e), '\t') == [e.name, Decimal(e.Size()), ModifiedField(e)]
  {
    var size, m := Decimal(e.Size()), ModifiedField(e);
    DecimalParses(e.Size());
    assert FormatLine(e) == e.name + ['\t'] + (size + ['\t'] + m);
    SplitAfter(e.name, size + ['\t'] + m, '\t');
    SplitAfter(size, m, '\t');
    SplitAfter(m, [], '\t');
  }

  lemma FormatClean(e: Blob)
    requires WellFormed(e)
    ensures Without(FormatLine(e), '\n') && FormatLine(e) != [] && FormatLine(e)[0] == e.name[0]
    ensures FormatLine(e)[|FormatLine(e)| - 1] != '\r'
  {
    DecimalParses(e.Size());
    var line, m := FormatLine(e), ModifiedField(e);
    assert line[|line| - 1] == m[|m| - 1];
    assert !IsSpace('-') && IsSpace('\r');
  }

  lemma NumberParses(n: nat)
    requires n < TWO64
    ensures ParseU64(Decimal(n)) == Some(n)
  {
    DecimalParses(n);
    hide Decimal, ParseDigits;
  }

  lemma ModifiedParses(e: Blob)
    requires WellFormed(e)
    ensures ParseModified([e.name, Decimal(e.Size()), ModifiedField(e)]) == Modified(e)
  {
    hide Decimal, TrimStart, TrimEnd;
    var m := ModifiedField(e);
    assert !IsSpace('-');
    TrimmedStarts(m);
    TrimmedEnds(m);
  }

  lemma FormatParses(e: Blob)
    requires WellFormed(e)
    ensures ParseLine(FormatLine(e)) == Some(e)
  {
    FormatClean(e);
    FormatFields(e);
    TrimmedCr(FormatLine(e));
    NumberParses(e.Size());
    ModifiedParses(e);
    hide FormatLine, Split, Decimal, ParseU64, ParseModified, TrimCr, Without;
    assert e == Blob(e.name, Some(Props(Some(e.Size()), Modified(e))));
  }

  lemma LinesAfter(line: string, rest: string)
    requires Without(line, '\n') && line != [] && line[|line| - 1] != '\r'
    ensures Lines(line + "\n" + rest) == [line] + Lines(rest)
  {
    var text := line + ['\n'] + rest;
    IndexAfter(line, rest, '\n');
    assert text[|line| - 1] == line[|line| - 1];
    assert text[..|line|] == line && text[|line| + 1..] == rest;
  }

  lemma {:induction false} WrittenLines(entries: seq<Blob>)
    requires forall i | 0 <= i < |entries| :: WellFormed(entries[i])
    ensures ParseLines(Lines(Serialize(entries))) == entries
  {
    if entries != [] {
      var e, rest := entries[0], entries[1..];
      hide FormatLine, ParseLine, WellFormed, Without, Lines;
      FormatClean(e);
      FormatParses(e);
      WrittenLines(rest);
      LinesAfter(FormatLine(e), Serialize(rest));
      var lines := Lines(Serialize(entries));
      assert lines[0] == FormatLine(e) && lines[1..] == Lines(Serialize(rest));
    } else {
      assert Lines([]) == [];
    }
  }

  lemma ReadIsWellFormed(text: string)
    ensures forall i | 0 <= i < |Deserialize(text)| :: WellFormed(Deserialize(text)[i])
  {
    hide WellFormed, ParseLines, Lines;
    forall k | 0 <= k < |Lines(text)|
      ensures Without(Lines(text)[k], '\n')
    {
      LinesClean(text, k);
    }
    forall i | 0 <= i < |Deserialize(text)|
      ensures WellFormed(Deserialize(text)[i])
    {
      AllWellFormed(Lines(text), i);
    }
  }

  /** Entries survive being saved and read back exactly when every one of them is well formed. */
  lemma RoundTrip(entries: seq<Blob>)
    ensures Deserialize(Serialize(entries)) == entries <==> forall i | 0 <= i < |entries| :: WellFormed(entries[i])
  {
    hide WellFormed, ParseLines, Lines, Serialize;
    ReadIsWellFormed(Serialize(entries));
    if forall i | 0 <= i < |entries| :: WellFormed(entries[i]) {
      WrittenLines(entries);
    }
  }

  /** Saving what was read and reading it again changes nothing, whatever the text. */
  lemma NormalForm(text: string)
    ensures Deserialize(Serialize(Deserialize(text))) == Deserialize(text)
  {
    hide WellFormed, Deserialize, Serialize;
    ReadIsWellFormed(text);
    RoundTrip(Deserialize(text));
  }

  // ---- what a line says

  lemma TwoFields(name: string, size: string)
    requires Without(name, '\t') && Without(size, '\t')
    ensures Split(name + ['\t'] + size, '\t') == [name, size]
  {
    SplitAfter(name, size, '\t');
    SplitAfter(size, [], '\t');
  }

  lemma ThreeFields(name: string, size: string, date: string)
    requires Without(name, '\t') && Without(size, '\t') && Without(date, '\t')
    ensures Split(name + ['\t'] + (size + ['\t'] + date), '\t') == [name, size, date]
  {
    SplitAfter(name, size + ['\t'] + date, '\t');
    TwoFields(size, date);
  }

  /** A line of a name and a number has no date. */
  lemma LineWithoutDate(name: string, n: nat)
    requires name != [] && name[0] != '#' && Without(name, '\t') && n < TWO64
    ensures ParseLine(name + ['\t'] + Decimal(n)) == Some(Blob(name, Some(Props(Some(n), None))))
  {
    hide Split, Decimal, ParseU64, ParseDigits, TrimCr, TrimStart, TrimEnd, Without;
    var line := name + ['\t'] + Decimal(n);
    DecimalParses(n);
    NumberParses(n);
    DecimalEnds(n);
    TwoFields(name, Decimal(n));
    assert line[0] == name[0] && line[|line| - 1] == Decimal(n)[|Decimal(n)| - 1];
    TrimmedCr(line);
  }

  /** The third field is the date, without the spaces around it; an empty one or a dash stands for none. */
  lemma LineMeans(name: string, n: nat, date: string)
    requires name != [] && name[0] != '#' && Without(name, '\t') && n < TWO64
    requires Without(date, '\t') && (date == [] || date[|date| - 1] != '\r')
    ensures var d := Trim(date);
            ParseLine(name + ['\t'] + (Decimal(n) + ['\t'] + date))
            == Some(Blob(name, Some(Props(Some(n), if d == "" || d == "-" then None else Some(d)))))
  {
    hide Split, Decimal, ParseU64, ParseDigits, TrimCr, TrimStart, TrimEnd, Without;
    var line := name + ['\t'] + (Decimal(n) + ['\t'] + date);
    DecimalParses(n);
    NumberParses(n);
    ThreeFields(name, Decimal(n), date);
    assert line[0] == name[0] && line[|line| - 1] == if date == [] then '\t' else date[|date| - 1];
    TrimmedCr(line);
  }

  lemma DecimalEnds(n: nat)
    ensures Decimal(n) != [] && '0' <= Decimal(n)[|Decimal(n)| - 1] <= '9'
  {
  }

  /** A plus sign and leading zeros are accepted, whatever the number. */
  lemma PlusAndZeros(n: nat, zeros: nat)
    requires n < TWO64
    ensures ParseU64(Zeros(zeros) + Decimal(n)) == Some(n) && ParseU64(['+'] + (Zeros(zeros) + Decimal(n))) == Some(n)
  {
    hide Decimal, ParseDigits;
    ZerosParse(n, zeros);
    DecimalParses(n);
    var s := Zeros(zeros) + Decimal(n);
    assert s != [] && s[0] == if zeros > 0 then '0' else Decimal(n)[0];
    assert (['+'] + s)[1..] == s;
  }

  function Zeros(k: nat): string { seq(k, _ => '0') }

  lemma {:induction false} ZerosParse(n: nat, zeros: nat)
    requires n < TWO64
    ensures ParseDigits(Zeros(zeros) + Decimal(n)) == Some(n)
  {
    var s := Zeros(zeros) + Decimal(n);
    if n < 10 {
      DigitIs(n);
      assert s[..|s| - 1] == Zeros(zeros);
      OnlyZeros(zeros);
    } else {
      ZerosParse(n / 10, zeros);
      DigitIs(n % 10);
      assert s[..|s| - 1] == Zeros(zeros) + Decimal(n / 10);
    }
  }

  lemma {:induction false} OnlyZeros(zeros: nat)
    ensures ParseDigits(Zeros(zeros)) == Some(0)
  {
    if zeros > 0 {
      OnlyZeros(zeros - 1);
      assert Zeros(zeros)[..zeros - 1] == Zeros(zeros - 1);
    }
  }

  predicate IsDigits(s: string) {
    forall i | 0 <= i < |s| :: '0' <= s[i] <= '9'
  }

  /** The number that digits stand for, whatever its size. */
  function Value(s: string): nat
    requires IsDigits(s)
  {
    if s == [] then 0 else Value(s[..|s| - 1]) * 10 + (s[|s| - 1] - '0') as nat
  }

  lemma {:induction false} DigitsParse(s: string)
    ensures ParseDigits(s).Some? <==> IsDigits(s) && Value(s) < TWO64
    ensures ParseDigits(s).Some? ==> ParseDigits(s).value == Value(s)
  {
    if s != [] {
      DigitsParse(s[..|s| - 1]);
      if IsDigits(s[..|s| - 1]) && '0' <= s[|s| - 1] <= '9' {
        assert IsDigits(s);
      }
    }
  }

  /** A size is read from digits alone, at least one, after at most one plus sign, and only if it fits in 64 bits. */
  lemma NumberIs(s: string)
    requires s != [] ==> s[0] != '+'
    ensures ParseU64(s).Some? <==> s != [] && IsDigits(s) && Value(s) < TWO64
    ensures ParseU64(s).Some? ==> ParseU64(s).value == Value(s)
    ensures ParseU64(['+'] + s) == ParseU64(s)
  {
    DigitsParse(s);
    assert (['+'] + s)[1..] == s;
  }
}
