/** The few facts about products and quotients that the proofs use. */
module Arith {

  lemma MulLe(a: nat, b: nat, c: nat)
    requires a <= b
    ensures a * c <= b * c
    decreases b - a
  {
  }

  lemma MulCancel(a: nat, b: nat, d: nat)
    requires a * d < b * d
    ensures a < b
  {
  }

  lemma DivFacts(x: nat, d: nat)
    requires d > 0
    ensures x / d >= 0
    ensures x / d * d <= x < x / d * d + d
  {
  }

  lemma Quotient(x: nat, d: nat, q: nat, r: nat)
    requires d > 0 && r < d && x == q * d + r
    ensures x % d == r && x / d == q
  {
    DivFacts(x, d);
    var q' := x / d;
    assert (q' + 1) * d == q' * d + d;
    assert (q + 1) * d == q * d + d;
    MulCancel(q, q' + 1, d);
    MulCancel(q', q + 1, d);
    assert x == x / d * d + x % d;
  }

  lemma Product(x: real, y: real)
    requires x >= 0.0 && y >= 0.0
    ensures x * y >= 0.0
  {
  }

  lemma Spread(a: real, x: real, y: real)
    ensures a * (x + y) == a * x + a * y
  {
  }

  function Min(a: nat, b: nat): nat {
    if a < b then a else b
  }
}
