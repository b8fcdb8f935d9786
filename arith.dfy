/** Small facts about natural-number multiplication and floor division that
    the solver does not find on its own. */
module Arith {

  /** q = n / d is the floor quotient: q * d <= n < (q + 1) * d. */
  lemma FloorDivBounds(n: nat, d: nat)
    requires d > 0
    ensures (n / d) * d <= n < (n / d + 1) * d
  {
    assert n == (n / d) * d + n % d;
  }

  /** Division with remainder is unique: n = d * q + r with 0 <= r < d fixes
      both the quotient and the remainder. */
  lemma DivModUnique(n: nat, d: nat, q: nat, r: nat)
    requires d > 0 && r < d && n == d * q + r
    ensures n % d == r && n / d == q
  {
    var q0, r0 := n / d, n % d;
    assert n == d * q0 + r0;
    if q0 > q {
      assert d * q0 >= d * (q + 1) by { MulMono(d, q + 1, q0); }
    } else if q0 < q {
      assert d * q >= d * (q0 + 1) by { MulMono(d, q0 + 1, q); }
    }
  }

  lemma MulMono(d: nat, a: nat, b: nat)
    requires a <= b
    ensures d * a <= d * b
  {}

  lemma MulStrictMono(a: nat, b: nat, w: nat)
    requires a < b && w > 0
    ensures a * w < b * w
  {}

  lemma MulPositive(a: nat, b: nat)
    requires a > 0 && b > 0
    ensures a * b > 0
  {}

  lemma MulDistributes(a: int, b: int, c: int)
    ensures (a + b) * c == a * c + b * c
  {}

  lemma MulCommutes3(a: int, b: int, c: int)
    ensures a * b * c == a * c * b
  {}

  /** An index below m * n falls in one of the m groups of width n. */
  lemma DivBelow(h: nat, n: nat, m: nat)
    requires h < m * n
    ensures n > 0 && h / n < m
  {
    if n > 0 {
      FloorDivBounds(h, n);
      if h / n >= m {
        MulMono(n, m, h / n);
      }
    }
  }

  /** Skipping one whole group moves the quotient by one and keeps the remainder. */
  lemma ShiftDiv(j: nat, n: nat)
    requires n > 0
    ensures (j + n) / n == j / n + 1 && (j + n) % n == j % n
  {
    var q, r := j / n, j % n;
    assert j == n * q + r;
    assert j + n == n * (q + 1) + r;
    DivModUnique(j + n, n, q + 1, r);
  }

  /** The first element of group g is g * n, and (g * n) / n == g. */
  lemma GroupStart(g: nat, n: nat, m: nat)
    requires g < m && n > 0
    ensures g * n < m * n && (g * n) / n == g
  {
    MulStrictMono(g, m, n);
    DivModUnique(g * n, n, g, 0);
  }

  /** m * q is a multiple of m, for a negative q too. */
  lemma MulModZero(m: nat, q: int)
    requires m > 0
    ensures (m * q) % m == 0
  {
    var k := m * q;
    var d := q - k / m;
    assert k == m * (k / m) + k % m;
    assert m * d == k % m by { MulSubInt(m, q, k / m); }
    if d >= 1 {
      MulGrowsInt(m, d);
    } else if d <= -1 {
      MulMonoInt(m, d, -1);
    }
  }

  lemma MulSubInt(m: int, a: int, b: int)
    ensures m * (a - b) == m * a - m * b
  {}

  lemma MulGrowsInt(m: nat, a: int)
    requires a >= 1
    ensures m * a >= m
  {}

  /** Multiples of m are m apart: a multiple k above r - m, for a multiple
      r, is at least r. */
  lemma MultiplesApart(m: nat, r: int, k: int)
    requires m > 0 && r % m == 0 && k % m == 0 && k > r - m
    ensures k >= r
  {
    var a, q := k / m, r / m;
    assert k == m * a + k % m && r == m * q + r % m;
    if a < q {
      assert m * a <= m * (q - 1) by { MulMonoInt(m, a, q - 1); }
    } else {
      assert m * q <= m * a by { MulMonoInt(m, q, a); }
    }
  }

  lemma MulMonoInt(m: nat, a: int, b: int)
    requires a <= b
    ensures m * a <= m * b
  {}

}
