/** The three-way split of the listing: everybody has it, nobody has it, or a peer can send it. */
module Diff {
  import opened Types
  import opened Counting
  import opened PresenceMatrix

  datatype Classification = Classification(skipped: nat, bcastOnly: seq<(nat, nat)>, needsDownload: seq<nat>)

  predicate Everyone(p: Presence, f: nat)
    requires p.Valid() && f < p.numFiles
  {
    forall r: nat | r < p.worldSize :: p.Has(r, f)
  }

  predicate Nobody(p: Presence, f: nat)
    requires p.Valid() && f < p.numFiles
  {
    forall r: nat | r < p.worldSize :: !p.Has(r, f)
  }

  /** Some rank lacks the file. */
  predicate Lacking(p: Presence, f: nat)
    requires p.Valid() && f < p.numFiles
  {
    !Everyone(p, f)
  }

  predicate Increasing(q: seq<nat>) {
    forall i, j | 0 <= i < j < |q| :: q[i] < q[j]
  }

  function Files(q: seq<(nat, nat)>): (r: seq<nat>)
    ensures |r| == |q| && forall i | 0 <= i < |r| :: r[i] == q[i].0
  {
    seq(|q|, i requires 0 <= i < |q| => q[i].0)
  }

  predicate FirstHolder(p: Presence, f: nat, r: nat)
    requires p.Valid() && f < p.numFiles
  {
    r < p.worldSize && p.Has(r, f) && forall q: nat | q < r :: !p.Has(q, f)
  }

  /** The first `n` files are split right. */
  ghost predicate SplitUpTo(p: Presence, c: Classification, n: nat)
    requires p.Valid() && n <= p.numFiles
  {
    && (forall i | 0 <= i < |c.needsDownload| :: c.needsDownload[i] < n && Nobody(p, c.needsDownload[i]))
    && (forall f: nat | f < n && Nobody(p, f) && p.worldSize > 0 :: f in c.needsDownload)
    && Increasing(c.needsDownload)
    && (forall i | 0 <= i < |c.bcastOnly| ::
          c.bcastOnly[i].0 < n && Lacking(p, c.bcastOnly[i].0) && FirstHolder(p, c.bcastOnly[i].0, c.bcastOnly[i].1))
    && (forall f: nat | f < n && Lacking(p, f) && !Nobody(p, f) :: f in Files(c.bcastOnly))
    && Increasing(Files(c.bcastOnly))
    && c.skipped + |c.needsDownload| + |c.bcastOnly| == n
  }

  lemma CountTells(p: Presence, f: nat)
    requires p.Valid() && f < p.numFiles
    ensures p.CountOf(f) == p.worldSize <==> Everyone(p, f)
    ensures p.CountOf(f) == 0 <==> Nobody(p, f)
    ensures !Nobody(p, f) ==> p.FirstHaver(f).Some? && FirstHolder(p, f, p.FirstHaver(f).value)
  {
    hide Bit;
    CountBound(p.Havers(f), IsTrue());
    CountZero(p.Havers(f), IsTrue());
    assert forall r: nat | r < p.worldSize :: p.Havers(f)[r] == p.Has(r, f);
    if Everyone(p, f) {
      assert forall r | 0 <= r < p.worldSize :: IsTrue()(p.Havers(f)[r]);
    }
  }

  /** classify */
  method Classify(p: Presence) returns (c: Classification)
    requires p.Valid() && p.worldSize > 0
    ensures SplitUpTo(p, c, p.numFiles)
  {
    hide Presence.Has, Presence.Havers, Presence.CountOf, Presence.FirstHaver, Everyone, Nobody, FirstHolder, Increasing;
    c := Classification(0, [], []);
    assert Increasing([]) by { EmptyIncreasing(); }
    var i := 0;
    while i < p.numFiles
      invariant 0 <= i <= p.numFiles && SplitUpTo(p, c, i)
    {
      var count := p.CountOf(i);
      CountTells(p, i);
      NotBoth(p, i);
      ghost var was := c;
      if count == p.worldSize {
        c := c.(skipped := c.skipped + 1);
      } else if count == 0 {
        c := c.(needsDownload := c.needsDownload + [i]);
        IncreasingAppend(was.needsDownload, i);
      } else {
        c := c.(bcastOnly := c.bcastOnly + [(i, p.FirstHaver(i).value)]);
        assert Files(c.bcastOnly) == Files(was.bcastOnly) + [i];
        IncreasingAppend(Files(was.bcastOnly), i);
      }
      i := i + 1;
    }
  }

  lemma EmptyIncreasing()
    ensures Increasing([])
  {
  }

  lemma IncreasingAppend(q: seq<nat>, x: nat)
    requires Increasing(q) && forall i | 0 <= i < |q| :: q[i] < x
    ensures Increasing(q + [x])
  {
  }

  lemma NotBoth(p: Presence, f: nat)
    requires p.Valid() && f < p.numFiles && p.worldSize > 0
    ensures !(Everyone(p, f) && Nobody(p, f))
  {
    hide Bit;
    if Everyone(p, f) {
      assert p.Has(0, f);
    }
  }

  /** The split leaves no choice: there is one classification for a presence matrix. */
  lemma OneSplit(p: Presence, c: Classification, d: Classification)
    requires p.Valid() && p.worldSize > 0 && SplitUpTo(p, c, p.numFiles) && SplitUpTo(p, d, p.numFiles)
    ensures c == d
  {
    hide Presence.Has, Everyone, Nobody;
    SameIncreasing(c.needsDownload, d.needsDownload);
    forall f
      ensures f in Files(c.bcastOnly) <==> f in Files(d.bcastOnly)
    {
      if f in Files(c.bcastOnly) {
        HeldNotNobody(p, c, f);
      }
      if f in Files(d.bcastOnly) {
        HeldNotNobody(p, d, f);
      }
    }
    SameIncreasing(Files(c.bcastOnly), Files(d.bcastOnly));
    forall i | 0 <= i < |c.bcastOnly|
      ensures c.bcastOnly[i] == d.bcastOnly[i]
    {
      assert c.bcastOnly[i].0 == Files(c.bcastOnly)[i] == Files(d.bcastOnly)[i] == d.bcastOnly[i].0;
    }
  }

  lemma HeldNotNobody(p: Presence, c: Classification, f: nat)
    requires p.Valid() && SplitUpTo(p, c, p.numFiles) && f in Files(c.bcastOnly)
    ensures f < p.numFiles && Lacking(p, f) && !Nobody(p, f)
  {
    hide Bit;
    var i :| 0 <= i < |c.bcastOnly| && Files(c.bcastOnly)[i] == f;
    assert FirstHolder(p, f, c.bcastOnly[i].1);
  }

  lemma {:induction false} SameIncreasing(a: seq<nat>, b: seq<nat>)
    requires Increasing(a) && Increasing(b) && forall x :: x in a <==> x in b
    ensures a == b
  {
    assert b == [] || b[0] in b;
    if a != [] {
      assert a[0] in b;
      assert b[0] in a;
      assert a[0] == b[0];
      forall x
        ensures x in a[1..] <==> x in b[1..]
      {
        assert a == [a[0]] + a[1..] && b == [b[0]] + b[1..];
        assert x in a[1..] <==> x in a && x != a[0];
        assert x in b[1..] <==> x in b && x != b[0];
      }
      SameIncreasing(a[1..], b[1..]);
    }
  }
}
