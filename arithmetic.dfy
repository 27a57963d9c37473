/** Facts about multiplication and Euclidean division on naturals that the shape proofs share. */
module Arithmetic {

  lemma MulMonotone(a: int, b: int, e: nat)
    requires a <= b
    ensures a * e <= b * e
  {
  }

  lemma MulRegroup(a: nat, b: nat, c: nat, d: nat)
    ensures (a * b) * (c * d) == (a * c) * (b * d)
  {
  }

  lemma MulCancel(a: nat, b: nat, e: nat)
    requires e > 0 && a * e == b * e
    ensures a == b
  {
    if a < b {
      MulMonotone(a + 1, b, e);
    } else if a > b {
      MulMonotone(b + 1, a, e);
    }
  }

  /** Euclidean division is determined by its quotient and remainder. */
  lemma DivModUnique(n: nat, t: nat, q: nat, r: nat)
    requires t > 0 && r < t && n == q * t + r
    ensures n / t == q && n % t == r
  {
    var q', r' := n / t, n % t;
    if q' < q {
      MulMonotone(q' + 1, q, t);
    } else if q' > q {
      MulMonotone(q + 1, q', t);
    }
  }

  lemma MulDivCancel(b: nat, t: nat)
    requires t > 0
    ensures (b * t) / t == b && (b * t) % t == 0
  {
    DivModUnique(b * t, t, b, 0);
  }

  /** A quotient by d of a number below m * d is below m. */
  lemma DivBelow(j: nat, d: nat, m: nat)
    requires d > 0 && j < m * d
    ensures j / d < m
  {
    var q := j / d;
    assert q * d <= j;
    if q >= m {
      MulMonotone(m, q, d);
    }
  }
}
