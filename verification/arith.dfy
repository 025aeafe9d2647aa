/** Facts about Euclidean division on naturals used by the digit and bit proofs. */
module Arith {
  lemma MulAtLeast(k: nat, a: nat)
    requires a >= 1
    ensures k * a >= k
  {
  }

  /** Quotient and remainder are determined by `x == k * q + r` with `r < k`. */
  lemma DivModUnique(x: nat, k: nat, q: nat, r: nat)
    requires 0 < k && r < k && x == k * q + r
    ensures x / k == q && x % k == r
  {
    var q', r' := x / k, x % k;
    assert x == k * q' + r' && r' < k;
    if q' > q {
      MulAtLeast(k, q' - q);
    } else if q' < q {
      MulAtLeast(k, q - q');
    }
  }

  lemma MulDistrib(b: nat, p: nat, q: nat, r: nat)
    ensures b * (p * q + r) == (b * p) * q + b * r
  {
  }

  lemma RemBound(b: nat, p: nat, r2: nat, r: nat)
    requires r2 < p && r < b
    ensures b * r2 + r < b * p
  {
    MulAtLeast(b, p - r2);
    assert b * (p - r2) == b * p - b * r2;
  }

  /** Peeling off the lowest base-`b` digit commutes with reducing modulo (or dividing by) `b * p`. */
  lemma DivModByTimes(x: nat, b: nat, p: nat)
    requires b >= 1 && p >= 1
    ensures x % (b * p) == x % b + b * ((x / b) % p)
    ensures x / (b * p) == (x / b) / p
  {
    var q, r := x / b, x % b;
    var q2, r2 := q / p, q % p;
    MulDistrib(b, p, q2, r2);
    RemBound(b, p, r2, r);
    DivModUnique(x, b * p, q2, b * r2 + r);
  }
}
