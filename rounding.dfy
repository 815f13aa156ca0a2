/** Integer forms of the rounding the analytics use: `Math.round(p / q)` and
    `toFixed(2)` applied to exact non-negative rationals. */
module Rounding {

  /** The nearest natural to num/den, halves rounded up (what `Math.round`
      does to a non-negative quotient). */
  function RoundHalfUp(num: nat, den: nat): (q: nat)
    requires den > 0
    ensures 2 * den * q <= 2 * num + den < 2 * den * (q + 1)
  {
    var x := 2 * num + den;
    var d := 2 * den;
    DivBounds(x, d);
    x / d
  }

  lemma DivBounds(x: nat, d: nat)
    requires d > 0
    ensures d * (x / d) <= x < d * (x / d + 1)
  {
    assert x == d * (x / d) + x % d;
  }

  /** The rounding is exact on multiples: an integral quotient is returned unchanged. */
  lemma {:induction false} RoundExact(k: nat, den: nat)
    requires den > 0
    ensures RoundHalfUp(k * den, den) == k
  {
    var q := RoundHalfUp(k * den, den);
    assert 2 * den * q <= 2 * den * k + den;
    assert 2 * den * k + den < 2 * den * (q + 1);
    if q > k {
      MulMono(2 * den, k + 1, q);
      assert false;
    } else if q < k {
      MulMono(2 * den, q + 1, k);
      assert false;
    }
  }

  /** Rounding is monotone in the numerator. */
  lemma {:induction false} RoundMono(a: nat, b: nat, den: nat)
    requires den > 0 && a <= b
    ensures RoundHalfUp(a, den) <= RoundHalfUp(b, den)
  {
    var qa, qb := RoundHalfUp(a, den), RoundHalfUp(b, den);
    if qa > qb {
      MulMono(2 * den, qb + 1, qa);
      assert false;
    }
  }

  lemma MulMono(c: nat, x: nat, y: nat)
    requires x <= y
    ensures c * x <= c * y
  {
  }

  /** A rounded quotient stays within any bounds the exact quotient has. */
  lemma RoundWithin(num: nat, den: nat, lo: nat, hi: nat)
    requires den > 0
    requires den * lo <= num <= den * hi
    ensures lo <= RoundHalfUp(num, den) <= hi
  {
    var q := RoundHalfUp(num, den);
    var d := 2 * den;
    assert d * q <= 2 * num + den < d * (q + 1);
    assert d * (hi + 1) == 2 * (den * hi) + d;
    LessFromProduct(d, q, hi + 1);
    assert d * lo == 2 * (den * lo);
    LessFromProduct(d, lo, q + 1);
  }

  lemma LessFromProduct(c: nat, x: nat, y: nat)
    requires c * x < c * y
    ensures x < y
  {
    if x >= y {
      MulMono(c, y, x);
      assert false;
    }
  }
}
