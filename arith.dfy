/** Facts about floor division and multiplication by a non-negative factor,
    shared by the progress, duration and colour computations. */
module Arith {

  lemma {:induction false} MulMono(x: nat, y: nat, b: nat)
    requires x <= y
    ensures x * b <= y * b
    decreases y - x
  {
    if x < y {
      MulMono(x, y - 1, b);
      assert y * b == (y - 1) * b + b;
    }
  }

  /** Quotient and remainder are determined by the division equation. */
  lemma DivModUnique(a: nat, b: nat, q: nat, r: nat)
    requires b > 0 && r < b && a == q * b + r
    ensures a / b == q && a % b == r
  {
    var q0 := a / b;
    var r0 := a % b;
    assert a == q0 * b + r0;
    if q0 < q {
      MulMono(q0 + 1, q, b);
    } else if q < q0 {
      MulMono(q + 1, q0, b);
    }
  }

  /** For a positive divisor, the floor quotient is below k exactly when the dividend is below k times the divisor. */
  lemma DivBelow(a: nat, b: nat, k: nat)
    requires b > 0
    ensures a / b < k <==> a < k * b
  {
    var q := a / b;
    assert a == q * b + a % b;
    if q < k {
      MulMono(q + 1, k, b);
      assert (q + 1) * b == q * b + b;
    } else {
      MulMono(k, q, b);
    }
  }

  /** Dividing by b and then by c is dividing by b * c, and the remainder of
      the second division is the remainder by b * c, divided by b. */
  lemma DivDiv(a: nat, b: nat, c: nat)
    requires b > 0 && c > 0
    ensures a / b / c == a / (b * c)
    ensures a / b % c == a % (b * c) / b
  {
    var q := a / b;
    var r := a % b;
    var q2 := q / c;
    var r2 := q % c;
    NestedDivision(a, b, c, q, r, q2, r2);
    DivModUnique(a, b * c, q2, r2 * b + r);
    DivModUnique(r2 * b + r, b, r2, r);
  }

  lemma NestedDivision(a: nat, b: nat, c: nat, q: nat, r: nat, q2: nat, r2: nat)
    requires b > 0 && c > 0 && r < b && r2 < c
    requires a == q * b + r && q == q2 * c + r2
    ensures a == q2 * (b * c) + (r2 * b + r) && r2 * b + r < b * c
  {
    assert q * b == q2 * c * b + r2 * b;
    MulMono(r2, c - 1, b);
    assert (c - 1) * b == c * b - b;
  }
}
