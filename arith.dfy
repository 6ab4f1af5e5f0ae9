/** Facts about integer multiplication, division and remainder that the
    solver does not find alone. */
module Arith {

  /** `a / b` for a positive divisor, written out by recursion on a, so
      that a proof sees the quotient only through `DivIsQuotient`. */
  function Div(a: int, b: int): int
    requires b > 0
    decreases if a < 0 then 1 else 0, if a < 0 then -a else a
  {
    if a < 0 then Div(a + b, b) - 1
    else if a < b then 0
    else Div(a - b, b) + 1
  }

  lemma {:induction false} DivIsQuotient(a: int, b: int)
    requires b > 0
    ensures Div(a, b) == a / b
    decreases if a < 0 then 1 else 0, if a < 0 then -a else a
  {
    if a < 0 {
      DivIsQuotient(a + b, b);
      DivUnique(a, b, (a + b) / b - 1, (a + b) % b);
    } else if a < b {
      DivUnique(a, b, 0, a);
    } else {
      DivIsQuotient(a - b, b);
      DivUnique(a, b, (a - b) / b + 1, (a - b) % b);
    }
  }

  lemma MulMonotone(a: int, b: int, c: int)
    requires a <= b && c >= 0
    ensures a * c <= b * c
  {
    assert b * c == a * c + (b - a) * c;
  }

  lemma MulCancelLess(a: int, b: int, s: int)
    requires s > 0 && a * s < b * s
    ensures a < b
  {
  }

  /** Quotient and remainder are the only ones that fit. */
  lemma DivUnique(n: int, d: int, q: int, r: int)
    requires d > 0 && 0 <= r < d && n == q * d + r
    ensures n / d == q && n % d == r
  {
    var q', r' := n / d, n % d;
    assert n == q' * d + r';
    if q' < q {
      MulMonotone(q' + 1, q, d);
    } else if q < q' {
      MulMonotone(q + 1, q', d);
    }
  }

  lemma DivShift(a: nat, d: nat)
    requires d >= 1
    ensures (a + d) / d == a / d + 1
  {
    DivUnique(a + d, d, a / d + 1, a % d);
  }

  lemma DivMonotone(a: nat, b: nat, d: nat)
    requires a <= b && d >= 1
    ensures a / d <= b / d
  {
    if a / d > b / d {
      MulMonotone(b / d + 1, a / d, d);
    }
  }

  lemma DivExact(u: nat, d: nat)
    requires d >= 1
    ensures (u * d) / d == u
  {
    DivUnique(u * d, d, u, 0);
  }

  /** One more, modulo d. */
  lemma ModSucc(a: nat, d: nat)
    requires d >= 1
    ensures (a + 1) % d == (if a % d + 1 == d then 0 else a % d + 1)
  {
    if a % d + 1 == d {
      DivUnique(a + 1, d, a / d + 1, 0);
    } else {
      DivUnique(a + 1, d, a / d, a % d + 1);
    }
  }

  /** A value below the modulus is its own remainder. */
  lemma ModSmall(a: nat, d: nat)
    requires a < d
    ensures a % d == a
  {
    DivUnique(a, d, 0, a);
  }
}
