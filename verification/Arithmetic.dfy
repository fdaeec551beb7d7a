/** Quotients and remainders are determined by the division they solve. */
module Arithmetic {

  lemma TimesMonotone(d: nat, a: int, b: int)
    requires a <= b
    ensures d * a <= d * b
  {
  }

  lemma DivisionIsUnique(n: int, d: nat, q: int, r: int)
    requires d > 0 && n == d * q + r && 0 <= r < d
    ensures n / d == q
  {
    var q', r' := n / d, n % d;
    assert n == d * q' + r' && 0 <= r' < d;
    assert d * (q + 1) == d * q + d && d * (q' + 1) == d * q' + d;
    if q < q' {
      TimesMonotone(d, q + 1, q');
    } else if q' < q {
      TimesMonotone(d, q' + 1, q);
    }
  }

  lemma RemainderIs(n: int, d: nat, q: int, r: int)
    requires d > 0 && n == d * q + r && 0 <= r < d
    ensures n % d == r
  {
    DivisionIsUnique(n, d, q, r);
    assert n == d * (n / d) + n % d;
  }
}
