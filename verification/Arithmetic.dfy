/** Facts about products and quotients of unknowns, kept apart from everything else the verifier has to think about. */
module Arithmetic {

  lemma MulMono(a: int, b: int, c: nat)
    requires a <= b
    ensures a * c <= b * c
  {
  }

  /** Division with remainder is unique; the quotient rounds down. */
  lemma Quotient(a: int, q: int, r: nat, b: nat)
    requires r < b && a == q * b + r
    ensures a / b == q && a % b == r
  {
    var d := a / b;
    if d > q { MulMono(q + 1, d, b); } else if d < q { MulMono(d + 1, q, b); }
  }

  lemma Multiple(a: nat, b: nat)
    requires b > 0
    ensures a * b % b == 0 && a * b / b == a
  {
    Quotient(a * b, a, 0, b);
  }

  lemma Divides(a: nat, b: nat, c: nat)
    requires b > 0 && c > 0 && a % b == 0 && b % c == 0
    ensures a % c == 0
  {
    var q, k := a / b, b / c;
    assert q * (k * c) == (q * k) * c;
    Quotient(a, q * k, 0, c);
  }
}
