/** Facts about integer and real division that the index arithmetic of the scripts relies on. */
module Arith {

  lemma MulLeft(a: nat, b: nat, c: nat)
    requires a <= b
    ensures a * c <= b * c
  {
  }

  /** Euclidean division recovers quotient and remainder of q * n + r. */
  lemma DivModOf(n: nat, q: nat, r: nat)
    requires r < n
    ensures (q * n + r) / n == q && (q * n + r) % n == r
  {
    var a := q * n + r;
    var q', r' := a / n, a % n;
    assert a == q' * n + r';
    if q' > q {
      MulLeft(q + 1, q', n);
    } else if q' < q {
      MulLeft(q' + 1, q, n);
    }
  }

  /** A number below m * n has quotient below m. */
  lemma DivBelow(i: nat, n: nat, m: nat)
    requires 0 < n && i < m * n
    ensures i / n < m && i % n < n
  {
    assert i == (i / n) * n + i % n;
    if i / n >= m {
      MulLeft(m, i / n, n);
    }
  }

  /** A lattice coordinate over the side length is a fraction in [0, 1]. */
  lemma RatioInUnit(a: nat, b: nat)
    requires 0 < b && a <= b
    ensures 0.0 <= a as real / b as real <= 1.0
  {
    var r := a as real / b as real;
    assert r * b as real == a as real;
  }
}
