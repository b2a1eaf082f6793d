/** The little nonlinear arithmetic the codecs need. */
module Arithmetic {

  lemma MulGrows(a: nat, q: nat, d: nat)
    requires a > q
    ensures a * d >= q * d + d
  {
    assert a * d == (a - q) * d + q * d;
    assert (a - q) * d == (a - q - 1) * d + d;
  }

  lemma QuotientUnique(d: nat, a: nat, b: nat, q: nat, r: nat)
    requires a * d + b == q * d + r && b < d && r < d
    ensures a == q && b == r
  {
    if a > q {
      MulGrows(a, q, d);
    } else if q > a {
      MulGrows(q, a, d);
    }
  }

  lemma ModOf(x: nat, d: nat, q: nat, r: nat)
    requires d > 0 && x == q * d + r && r < d
    ensures x / d == q && x % d == r
  {
    var a, b := x / d, x % d;
    assert x == a * d + b;
    QuotientUnique(d, a, b, q, r);
  }

  /** Division with remainder, for a number below a product. */
  lemma Divide(x: nat, d: nat, p: nat) returns (q: nat, r: nat)
    requires x < p * d
    ensures q < p && r < d && x == q * d + r
  {
    assert d == 0 ==> p * d == 0;
    q, r := x / d, x % d;
    if q > p {
      MulGrows(q, p, d);
    }
  }
}
