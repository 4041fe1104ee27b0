/** Counting the elements of a sequence that satisfy a predicate, and summing a sequence. */
module Counting {
  function Count<T>(q: seq<T>, p: T -> bool): nat {
    if q == [] then 0 else Count(q[..|q| - 1], p) + if p(q[|q| - 1]) then 1 else 0
  }

  lemma CountLast<T>(q: seq<T>, p: T -> bool)
    requires q != []
    ensures Count(q, p) == Count(q[..|q| - 1], p) + if p(q[|q| - 1]) then 1 else 0
  {
  }

  lemma {:induction false} CountAppend<T>(a: seq<T>, b: seq<T>, p: T -> bool)
    ensures Count(a + b, p) == Count(a, p) + Count(b, p)
  {
    if b == [] {
      assert a + b == a;
    } else {
      CountAppend(a, b[..|b| - 1], p);
      assert (a + b)[..|a + b| - 1] == a + b[..|b| - 1];
    }
  }

  lemma {:induction false} CountUpdate<T>(q: seq<T>, i: nat, x: T, p: T -> bool)
    requires i < |q|
    ensures Count(q[i := x], p) == Count(q, p) - (if p(q[i]) then 1 else 0) + (if p(x) then 1 else 0)
  {
    var n := |q| - 1;
    if i == n {
      assert q[i := x][..n] == q[..n];
    } else {
      CountUpdate(q[..n], i, x, p);
      assert q[i := x][..n] == q[..n][i := x];
    }
  }

  lemma {:induction false} CountZero<T>(q: seq<T>, p: T -> bool)
    ensures Count(q, p) == 0 <==> forall i | 0 <= i < |q| :: !p(q[i])
  {
    if q != [] {
      CountZero(q[..|q| - 1], p);
      assert forall i | 0 <= i < |q| - 1 :: q[i] == q[..|q| - 1][i];
    }
  }

  lemma {:induction false} CountBound<T>(q: seq<T>, p: T -> bool)
    ensures Count(q, p) <= |q|
    ensures Count(q, p) == |q| <==> forall i | 0 <= i < |q| :: p(q[i])
  {
    if q != [] {
      CountBound(q[..|q| - 1], p);
      assert forall i | 0 <= i < |q| - 1 :: q[i] == q[..|q| - 1][i];
    }
  }

  /** Vec::swap_remove */
  function SwapRemove<T>(q: seq<T>, i: nat): (r: seq<T>)
    requires i < |q|
    ensures |r| == |q| - 1
  {
    if i == |q| - 1 then q[..i] else q[..|q| - 1][i := q[|q| - 1]]
  }

  lemma SwapRemoveKeeps<T>(q: seq<T>, i: nat, j: nat) returns (m: nat)
    requires i < |q| && j < |q| && i != j
    ensures m < |q| - 1 && SwapRemove(q, i)[m] == q[j]
  {
    m := if j == |q| - 1 then i else j;
  }

  lemma SwapRemoveFrom<T>(q: seq<T>, i: nat, m: nat) returns (j: nat)
    requires i < |q| && m < |q| - 1
    ensures j < |q| && j != i && SwapRemove(q, i)[m] == q[j]
    ensures j == if m == i then |q| - 1 else m
  {
    j := if m == i then |q| - 1 else m;
  }

  lemma SwapRemoveCount<T>(q: seq<T>, i: nat, p: T -> bool)
    requires i < |q|
    ensures Count(SwapRemove(q, i), p) == Count(q, p) - if p(q[i]) then 1 else 0
  {
    hide Count;
    CountLast(q, p);
    if i < |q| - 1 {
      CountUpdate(q[..|q| - 1], i, q[|q| - 1], p);
    }
  }

  /** Sum of a sequence of integers. */
  function Sum(q: seq<int>): int {
    if q == [] then 0 else Sum(q[..|q| - 1]) + q[|q| - 1]
  }

  lemma {:induction false} SumAppend(a: seq<int>, b: seq<int>)
    ensures Sum(a + b) == Sum(a) + Sum(b)
  {
    if b == [] {
      assert a + b == a;
    } else {
      SumAppend(a, b[..|b| - 1]);
      assert (a + b)[..|a + b| - 1] == a + b[..|b| - 1];
    }
  }

  lemma {:induction false} SumUpdate(q: seq<int>, i: nat, x: int)
    requires i < |q|
    ensures Sum(q[i := x]) == Sum(q) - q[i] + x
  {
    var n := |q| - 1;
    if i == n {
      assert q[i := x][..n] == q[..n];
    } else {
      SumUpdate(q[..n], i, x);
      assert q[i := x][..n] == q[..n][i := x];
    }
  }

  lemma {:induction false} SumAtLeast(q: seq<int>, b: int)
    requires forall i | 0 <= i < |q| :: q[i] >= b
    ensures Sum(q) >= b * |q|
  {
    if q != [] {
      SumAtLeast(q[..|q| - 1], b);
    }
  }

  lemma {:induction false} SumAtMost(q: seq<int>, b: int)
    requires forall i | 0 <= i < |q| :: q[i] <= b
    ensures Sum(q) <= b * |q|
  {
    if q != [] {
      SumAtMost(q[..|q| - 1], b);
    }
  }

  lemma {:induction false} SumZero(q: seq<int>)
    requires forall i | 0 <= i < |q| :: q[i] == 0
    ensures Sum(q) == 0
  {
    if q != [] {
      SumZero(q[..|q| - 1]);
    }
  }

  lemma {:induction false} SumPositive(q: seq<int>) returns (i: nat)
    requires Sum(q) > 0
    ensures i < |q| && q[i] > 0
  {
    var n := |q| - 1;
    if q[n] > 0 {
      i := n;
    } else {
      i := SumPositive(q[..n]);
    }
  }

  lemma {:induction false} SumNone(q: seq<int>)
    requires Sum(q) <= 0 && forall i | 0 <= i < |q| :: q[i] >= 0
    ensures Sum(q) == 0 && forall i | 0 <= i < |q| :: q[i] == 0
  {
    if q != [] {
      SumAtLeast(q[..|q| - 1], 0);
      SumNone(q[..|q| - 1]);
    }
  }

  /** Exactly one element satisfies the predicate, if there is one at `k`. */
  lemma {:induction false} CountOnly<T>(q: seq<T>, p: T -> bool, k: nat)
    requires forall i | 0 <= i < |q| :: p(q[i]) <==> i == k
    ensures Count(q, p) == if k < |q| then 1 else 0
  {
    if q != [] {
      CountOnly(q[..|q| - 1], p, k);
    }
  }

  lemma {:induction false} CountTwo<T>(q: seq<T>, p: T -> bool, i: nat, j: nat)
    requires i < j < |q| && p(q[i]) && p(q[j])
    ensures Count(q, p) >= 2
  {
    var n := |q| - 1;
    if j == n {
      CountZero(q[..n], p);
      assert q[..n][i] == q[i];
    } else {
      CountTwo(q[..n], p, i, j);
    }
  }
}
