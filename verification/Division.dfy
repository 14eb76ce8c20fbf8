/** Quotient and remainder by a symbolic divisor, as the other modules need them. */
module Division {

  /** Multiples of a divisor lie at least the divisor apart. */
  lemma OneApart(d: nat, a: int, b: int)
    requires a < b
    ensures d * a + d <= d * b
  {
    assert d * (a + 1) <= d * b && d * (a + 1) == d * a + d;
  }

  lemma QuotientBound(d: nat, q: int, r: int, q': int, r': int)
    requires d * q + r == d * q' + r'
    requires r < d && 0 <= r'
    ensures q' <= q
  {
    if q < q' {
      OneApart(d, q, q');
    }
  }

  /** Quotient and remainder are unique. */
  lemma Unique(x: nat, d: nat, q: int, r: nat)
    requires x == d * q + r && r < d
    ensures x / d == q && x % d == r
  {
    QuotientBound(d, q, r, x / d, x % d);
    QuotientBound(d, x / d, x % d, q, r);
  }

  lemma Monotone(x: nat, y: nat, d: nat)
    requires d > 0 && x <= y
    ensures x / d <= y / d
  {
    if y / d < x / d {
      OneApart(d, y / d, x / d);
    }
  }
}
