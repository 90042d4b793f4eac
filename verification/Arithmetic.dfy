/** Facts about products that the solver does not see inside larger proofs. */
module Arithmetic {

  lemma ProductMonotone(a: int, b: int, c: nat)
    ensures a <= b ==> a * c <= b * c
  {
  }

  lemma QuotientBetween(a: nat, d: int, lo: nat, hi: nat)
    requires d > 0 && lo * d <= a < (hi + 1) * d
    ensures lo <= a / d <= hi
  {
    var q := a / d;
    assert a == q * d + a % d;
    ProductMonotone(hi + 1, q, d);
    ProductMonotone(q + 1, lo, d);
    assert (q + 1) * d == q * d + d;
  }

  lemma DivisionSplits(a: int, d: int)
    requires d > 0
    ensures var q := a / d; q * d <= a < q * d + d
  {
  }

  lemma OneMoreTimes(q: int, d: int)
    ensures (q + 1) * d == q * d + d
  {
  }

  /** A quotient is the one number of whole divisors that fit. */
  lemma QuotientIff(a: int, d: int, q: int)
    requires d > 0
    ensures q == a / d <==> q * d <= a < q * d + d
  {
    var x := a / d;
    DivisionSplits(a, d);
    OneMoreTimes(q, d);
    OneMoreTimes(x, d);
    ProductMonotone(q + 1, x, d);
    ProductMonotone(x + 1, q, d);
  }
}
