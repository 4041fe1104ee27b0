/** Stable sorting of a sequence, as `sort_by` does it, and sums that do not depend on the order. */
module Sorting {
  import opened Counting

  ghost predicate TotalOrder<T(!new)>(le: (T, T) -> bool) {
    && (forall a, b :: le(a, b) || le(b, a))
    && (forall a, b, c :: le(a, b) && le(b, c) ==> le(a, c))
  }

  predicate Sorted<T>(s: seq<T>, le: (T, T) -> bool) {
    forall i, j | 0 <= i < j < |s| :: le(s[i], s[j])
  }

  /** Puts x behind the elements that may stand before it. */
  function Insert<T>(s: seq<T>, x: T, le: (T, T) -> bool): (r: seq<T>)
    ensures |r| == |s| + 1
  {
    if s == [] || le(s[|s| - 1], x) then s + [x]
    else Insert(s[..|s| - 1], x, le) + [s[|s| - 1]]
  }

  function Sort<T>(s: seq<T>, le: (T, T) -> bool): (r: seq<T>)
    ensures |r| == |s|
  {
    if s == [] then [] else Insert(Sort(s[..|s| - 1], le), s[|s| - 1], le)
  }

  lemma {:induction false} InsertIs<T(!new)>(s: seq<T>, x: T, le: (T, T) -> bool)
    requires TotalOrder(le) && Sorted(s, le)
    ensures Sorted(Insert(s, x, le), le)
    ensures multiset(Insert(s, x, le)) == multiset(s) + multiset{x}
  {
    if s != [] && !le(s[|s| - 1], x) {
      var last := s[|s| - 1];
      var init := s[..|s| - 1];
      InsertIs(init, x, le);
      assert s == init + [last];
      AllBelow(Insert(init, x, le), init, x, last, le);
      hide Insert;
      SortedLast(Insert(init, x, le), last, le);
    }
  }

  lemma AllBelow<T(!new)>(q: seq<T>, init: seq<T>, x: T, last: T, le: (T, T) -> bool)
    requires multiset(q) == multiset(init) + multiset{x} && le(x, last) && forall i | 0 <= i < |init| :: le(init[i], last)
    ensures forall i | 0 <= i < |q| :: le(q[i], last)
  {
    forall i | 0 <= i < |q|
      ensures le(q[i], last)
    {
      assert q[i] in multiset(q);
      if q[i] != x {
        assert q[i] in multiset(init);
        var j :| 0 <= j < |init| && init[j] == q[i];
      }
    }
  }

  lemma SortedLast<T(!new)>(q: seq<T>, last: T, le: (T, T) -> bool)
    requires Sorted(q, le) && forall i | 0 <= i < |q| :: le(q[i], last)
    ensures Sorted(q + [last], le)
  {
  }

  /** The result is a sorted permutation. */
  lemma {:induction false} SortIs<T(!new)>(s: seq<T>, le: (T, T) -> bool)
    requires TotalOrder(le)
    ensures Sorted(Sort(s, le), le)
    ensures multiset(Sort(s, le)) == multiset(s)
  {
    if s != [] {
      SortIs(s[..|s| - 1], le);
      InsertIs(Sort(s[..|s| - 1], le), s[|s| - 1], le);
      assert s == s[..|s| - 1] + [s[|s| - 1]];
    }
  }

  lemma TakeOut<T>(q: seq<T>, i: nat)
    requires i < |q|
    ensures multiset(q[..i] + q[i + 1..]) == multiset(q) - multiset{q[i]}
    ensures multiset(q) == multiset(q[..i] + q[i + 1..]) + multiset{q[i]}
  {
    assert q == q[..i] + [q[i]] + q[i + 1..];
  }

  lemma Twice<T>(q: seq<T>, t: nat, u: nat)
    requires t < u < |q| && q[t] == q[u]
    ensures multiset(q)[q[t]] >= 2
  {
    TakeOut(q, u);
    assert (q[..u] + q[u + 1..])[t] == q[t];
    assert q[t] in multiset(q[..u] + q[u + 1..]);
  }

  ghost predicate Distinct<T(!new)>(s: seq<T>, le: (T, T) -> bool) {
    forall x, y | x in s && y in s && le(x, y) && le(y, x) :: x == y
  }

  /** The last element of a sorted sequence is at least every other one. */
  lemma LastIsGreatest<T>(a: seq<T>, le: (T, T) -> bool, x: T)
    requires Sorted(a, le) && x in a
    ensures x == a[|a| - 1] || le(x, a[|a| - 1])
  {
  }

  lemma SameMembers<T>(a: seq<T>, b: seq<T>)
    requires multiset(a) == multiset(b)
    ensures |a| == |b|
    ensures forall x | x in a :: x in b
  {
    assert |a| == |multiset(a)| == |multiset(b)| == |b|;
    forall x | x in a
      ensures x in b
    {
      assert x in multiset(b);
    }
  }

  /** When no two elements are equal in rank, a multiset has only one sorted arrangement. */
  lemma {:induction false} SortedOnce<T(!new)>(a: seq<T>, b: seq<T>, le: (T, T) -> bool)
    requires Sorted(a, le) && Sorted(b, le) && multiset(a) == multiset(b) && Distinct(a, le)
    ensures a == b
  {
    hide Sorted, Distinct;
    SameMembers(a, b);
    if a != [] {
      var n := |a| - 1;
      SameLast(a, b, le);
      SameRest(a, b);
      InitSorted(a, le);
      InitSorted(b, le);
      SortedOnce(a[..n], b[..n], le);
    }
  }

  lemma SameLast<T(!new)>(a: seq<T>, b: seq<T>, le: (T, T) -> bool)
    requires Sorted(a, le) && Sorted(b, le) && multiset(a) == multiset(b) && Distinct(a, le) && a != []
    ensures b != [] && a[|a| - 1] == b[|b| - 1]
  {
    SameMembers(a, b);
    SameMembers(b, a);
    LastIsGreatest(a, le, b[|b| - 1]);
    LastIsGreatest(b, le, a[|a| - 1]);
  }

  lemma SameRest<T>(a: seq<T>, b: seq<T>)
    requires |a| == |b| > 0 && multiset(a) == multiset(b) && a[|a| - 1] == b[|b| - 1]
    ensures multiset(a[..|a| - 1]) == multiset(b[..|b| - 1])
  {
    var n := |a| - 1;
    TakeOut(a, n);
    TakeOut(b, n);
    assert a[..n] + a[n + 1..] == a[..n] && b[..n] + b[n + 1..] == b[..n];
  }

  lemma InitSorted<T(!new)>(a: seq<T>, le: (T, T) -> bool)
    requires Sorted(a, le) && a != []
    ensures Sorted(a[..|a| - 1], le)
    ensures Distinct(a, le) ==> Distinct(a[..|a| - 1], le)
  {
    assert forall z | z in a[..|a| - 1] :: z in a;
  }

  // ---- counts and sums do not depend on the order

  lemma {:induction false} CountRemove<T>(q: seq<T>, i: nat, p: T -> bool)
    requires i < |q|
    ensures Count(q, p) == Count(q[..i] + q[i + 1..], p) + if p(q[i]) then 1 else 0
  {
    hide Count;
    CountAppend(q[..i], q[i + 1..], p);
    CountAppend(q[..i], [q[i]], p);
    CountAppend(q[..i] + [q[i]], q[i + 1..], p);
    assert q == q[..i] + [q[i]] + q[i + 1..];
    CountLast([q[i]], p);
    assert [q[i]][..0] == [];
    CountZero([q[i]][..0], p);
  }

  lemma {:induction false} CountPermuted<T>(a: seq<T>, b: seq<T>, p: T -> bool)
    requires multiset(a) == multiset(b)
    ensures Count(a, p) == Count(b, p)
  {
    SameMembers(a, b);
    if a != [] {
      var n := |a| - 1;
      CountLast(a, p);
      hide Count;
      assert a[n] in b;
      var i :| 0 <= i < |b| && b[i] == a[n];
      CountRemove(b, i, p);
      TakeOut(a, n);
      TakeOut(b, i);
      assert a[..n] + a[n + 1..] == a[..n];
      CountPermuted(a[..n], b[..i] + b[i + 1..], p);
    }
  }

  function SumOf(q: seq<nat>, g: nat -> int): int {
    if q == [] then 0 else SumOf(q[..|q| - 1], g) + g(q[|q| - 1])
  }

  lemma {:induction false} SumOfRemove(q: seq<nat>, i: nat, g: nat -> int)
    requires i < |q|
    ensures SumOf(q, g) == SumOf(q[..i] + q[i + 1..], g) + g(q[i])
  {
    var n := |q| - 1;
    if i == n {
      assert q[..i] + q[i + 1..] == q[..n];
    } else {
      SumOfRemove(q[..n], i, g);
      assert (q[..i] + q[i + 1..])[..n - 1] == q[..n][..i] + q[..n][i + 1..];
    }
  }

  lemma {:induction false} SumOfPermuted(p: seq<nat>, q: seq<nat>, g: nat -> int)
    requires multiset(p) == multiset(q)
    ensures SumOf(p, g) == SumOf(q, g)
  {
    assert |p| == |multiset(p)| == |multiset(q)| == |q|;
    if p != [] {
      var n := |p| - 1;
      assert SumOf(p, g) == SumOf(p[..n], g) + g(p[n]);
      hide SumOf;
      assert p[n] in multiset(q);
      var i :| 0 <= i < |q| && q[i] == p[n];
      SumOfRemove(q, i, g);
      TakeOut(p, n);
      TakeOut(q, i);
      assert p[..n] + p[n + 1..] == p[..n];
      SumOfPermuted(p[..n], q[..i] + q[i + 1..], g);
    }
  }

  /** 0, 1, ..., n - 1 */
  function Upto(n: nat): (r: seq<nat>)
    ensures |r| == n && forall i | 0 <= i < n :: r[i] == i
  {
    seq(n, i requires 0 <= i => i)
  }

  /** A permutation of 0 .. n - 1 hits every index, and none twice. */
  lemma PermutationHits(order: seq<nat>, n: nat)
    requires multiset(order) == multiset(Upto(n))
    ensures |order| == n
    ensures forall t | 0 <= t < n :: order[t] < n
    ensures forall i: nat | i < n :: i in order
    ensures forall t, u | 0 <= t < u < n :: order[t] != order[u]
  {
    assert |order| == |multiset(order)| == |multiset(Upto(n))| == n;
    forall t | 0 <= t < n
      ensures order[t] < n
    {
      assert order[t] in multiset(order);
    }
    forall i: nat | i < n
      ensures i in order
    {
      assert Upto(n)[i] in multiset(Upto(n));
      assert i in multiset(order);
    }
    forall t, u | 0 <= t < u < n
      ensures order[t] != order[u]
    {
      if order[t] == order[u] {
        OnceEach(n, order[t]);
        Twice(order, t, u);
      }
    }
  }

  lemma {:induction false} OnceEach(n: nat, i: nat)
    ensures multiset(Upto(n))[i] == if i < n then 1 else 0
  {
    if n > 0 {
      OnceEach(n - 1, i);
      assert Upto(n) == Upto(n - 1) + [n - 1];
    }
  }

  // ---- stability

  /** `le`, with equal keys by index. */
  function Lex(le: (nat, nat) -> bool): (nat, nat) -> bool {
    (a: nat, b: nat) => le(a, b) && (le(b, a) ==> a <= b)
  }

  lemma {:induction false} InsertStable(s: seq<nat>, x: nat, le: (nat, nat) -> bool)
    requires TotalOrder(le) && Sorted(s, Lex(le)) && forall i | 0 <= i < |s| :: s[i] < x
    ensures Sorted(Insert(s, x, le), Lex(le))
  {
    if s != [] {
      var last, init := s[|s| - 1], s[..|s| - 1];
      if le(last, x) {
        forall i | 0 <= i < |s|
          ensures Lex(le)(s[i], x)
        {
          assert i == |s| - 1 || Lex(le)(s[i], last);
        }
      } else {
        InsertStable(init, x, le);
        assert Sorted(s, le);
        InsertIs(init, x, le);
        forall i | 0 <= i < |init| + 1
          ensures Lex(le)(Insert(init, x, le)[i], last)
        {
          var y := Insert(init, x, le)[i];
          assert y in multiset(Insert(init, x, le));
          if y != x {
            assert y in init;
          }
        }
      }
    }
  }

  /** sort_by is stable. */
  lemma {:induction false} SortStable(n: nat, le: (nat, nat) -> bool)
    requires TotalOrder(le)
    ensures Sorted(Sort(Upto(n), le), Lex(le))
  {
    if n > 0 {
      SortStable(n - 1, le);
      SortIs(Upto(n - 1), le);
      assert Upto(n)[..n - 1] == Upto(n - 1);
      var s := Sort(Upto(n - 1), le);
      forall i | 0 <= i < |s|
        ensures s[i] < n - 1
      {
        assert s[i] in multiset(s);
      }
      InsertStable(s, n - 1, le);
    }
  }

  /** Among distinct elements each counts once. */
  lemma {:induction false} DistinctOnce(s: seq<nat>, x: nat)
    requires forall t, u | 0 <= t < u < |s| :: s[t] != s[u]
    ensures multiset(s)[x] == if x in s then 1 else 0
  {
    if s != [] {
      var n := |s| - 1;
      DistinctOnce(s[..n], x);
      assert s == s[..n] + [s[n]];
    }
  }
}
