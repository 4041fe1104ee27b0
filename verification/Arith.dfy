/** Multiplication, division and remainders of natural numbers. */
module Arith {
  import opened Types

  lemma MulMono(m: nat, a: int, b: int)
    requires a <= b
    ensures m * a <= m * b
  {
  }

  lemma MulSwap(a: int, b: int)
    ensures a * b == b * a
  {
  }

  lemma Products(i: nat, j: nat, k: nat)
    requires i <= j
    ensures i * k <= j * k
  {
  }

  lemma Distrib(x: int, y: int, b: int)
    ensures (x - y) * b == x * b - y * b
  {
  }

  lemma QuotientUnique(p: nat, k: nat, i: nat)
    requires k > 0
    ensures i * k <= p < i * k + k <==> i == p / k
  {
    assert p == p / k * k + p % k;
    if i < p / k {
      Products(i + 1, p / k, k);
      assert (i + 1) * k == i * k + k;
    } else if i > p / k {
      Products(p / k + 1, i, k);
      assert (p / k + 1) * k == p / k * k + k;
    }
  }

  lemma MulMod(q: nat, b: nat)
    requires b > 0
    ensures q * b % b == 0 && q * b / b == q
  {
    QuotientUnique(q * b, b, q);
    assert q * b == q * b / b * b + q * b % b;
  }

  lemma MultipleOf(i: nat, a: nat, b: nat)
    requires b > 0 && a % b == 0
    ensures i * a % b == 0
  {
    var q := a / b;
    assert a == q * b;
    assert i * a == (i * q) * b;
    MulMod(i * q, b);
  }

  lemma Factor(x: nat, b: nat)
    requires b > 0 && x % b == 0
    ensures x == x / b * b
  {
  }

  lemma SumMultiple(x: nat, y: nat, b: nat)
    requires b > 0 && x % b == 0 && y % b == 0
    ensures (x + y) % b == 0
    ensures x >= y ==> (x - y) % b == 0
  {
    Factor(x, b);
    Factor(y, b);
    Factored(x / b, y / b, b);
  }

  lemma Factored(p: nat, q: nat, b: nat)
    requires b > 0
    ensures (p * b + q * b) % b == 0
    ensures p * b >= q * b ==> (p * b - q * b) % b == 0
  {
    Distrib(p, 0 - q, b);
    MulMod(p + q, b);
    Distrib(p, q, b);
    if p >= q {
      MulMod(p - q, b);
    } else {
      Products(p + 1, q, b);
      Distrib(p, -1, b);
    }
  }

  lemma DivCeilIs(a: nat, b: nat)
    requires b > 0
    ensures a <= DivCeil(a, b) * b < a + b
  {
    assert a == a / b * b + a % b;
  }

  lemma DivCeilSmall(a: nat, b: nat)
    requires b > 0
    ensures DivCeil(a, b) <= a
  {
    DivCeilIs(a, b);
    if DivCeil(a, b) > a {
      Products(a + 1, DivCeil(a, b), b);
      assert (a + 1) * b == a * b + b;
      Products(1, b, a);
    }
  }
}
