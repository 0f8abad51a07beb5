/** Powers of two and the bitwise conjunction of unsigned words. */
module Arithmetic {

  function Pow2(k: nat): (p: nat)
    ensures p > 0
  {
    if k == 0 then 1 else 2 * Pow2(k - 1)
  }

  /** The `&` of two unsigned words, bit by bit. */
  function BitAnd(a: nat, b: nat): nat
    decreases a
  {
    if a == 0 || b == 0 then 0
    else (if a % 2 == 1 && b % 2 == 1 then 1 else 0) + 2 * BitAnd(a / 2, b / 2)
  }

  lemma {:induction false} DoublingModulus(h: nat, m: nat)
    requires m > 0
    ensures h % (2 * m) == h % 2 + 2 * ((h / 2) % m)
  {
    var q, r := h / 2 / m, h / 2 % m;
    assert h / 2 == m * q + r;
    assert h == (2 * m) * q + (h % 2 + 2 * r) by {
      assert h == 2 * (h / 2) + h % 2;
      assert 2 * (m * q) == (2 * m) * q;
    }
    QuotientIsUnique(h, 2 * m, q, h % 2 + 2 * r);
  }

  lemma QuotientIsUnique(h: nat, m: nat, q: nat, r: nat)
    requires m > 0 && h == m * q + r && r < m
    ensures h / m == q && h % m == r
  {
    var d := q - h / m;
    MultiplesOf(m, q, h / m);
    if d >= 1 {
      AtLeast(m, d);
    } else if d <= -1 {
      AtLeast(m, -d);
    }
  }

  lemma MultiplesOf(m: int, a: int, b: int)
    ensures m * a - m * b == m * (a - b) == -(m * (b - a))
  {
  }

  lemma AtLeast(m: nat, d: nat)
    requires d >= 1
    ensures m * d >= m
  {
  }

  /** Masking with a power of two less one is the remainder. */
  lemma {:induction false} MaskIsModulus(h: nat, k: nat)
    ensures BitAnd(h, Pow2(k) - 1) == h % Pow2(k)
    decreases k
  {
    if k == 0 {
      assert BitAnd(h, 0) == 0;
    } else {
      MaskIsModulus(h / 2, k - 1);
      MaskOneMoreBit(h, Pow2(k - 1));
    }
  }

  lemma MaskOneMoreBit(h: nat, p: nat)
    requires p > 0 && BitAnd(h / 2, p - 1) == (h / 2) % p
    ensures BitAnd(h, 2 * p - 1) == h % (2 * p)
  {
    DoublingModulus(h, p);
    AndHalves(h, 2 * p - 1, p - 1);
  }

  lemma {:induction false} AndAtMost(a: nat, b: nat)
    ensures BitAnd(a, b) <= b
    decreases a
  {
    if a > 0 {
      AndAtMost(a / 2, b / 2);
    }
  }

  /** One unfolding of BitAnd, for an odd right operand. */
  lemma AndHalves(h: nat, m: nat, half: nat)
    requires m == 2 * half + 1
    ensures BitAnd(h, m) == h % 2 + 2 * BitAnd(h / 2, half)
  {
    assert m % 2 == 1 && m / 2 == half;
  }

  lemma {:induction false} Pow2Grows(j: nat, k: nat)
    requires j <= k
    ensures Pow2(j) <= Pow2(k)
    decreases k
  {
    if j < k {
      Pow2Grows(j, k - 1);
    }
  }

  /** One more mask bit splits a bucket in two. */
  lemma {:induction false} MaskSplits(h: nat, k: nat)
    ensures var b, c := BitAnd(h, Pow2(k) - 1), BitAnd(h, Pow2(k + 1) - 1);
      c == b || c == b + Pow2(k)
    decreases k
  {
    AndHalves(h, Pow2(k + 1) - 1, Pow2(k) - 1);
    if k == 0 {
      assert BitAnd(h, 0) == 0 && BitAnd(h / 2, 0) == 0;
    } else {
      AndHalves(h, Pow2(k) - 1, Pow2(k - 1) - 1);
      MaskSplits(h / 2, k - 1);
    }
  }
}
