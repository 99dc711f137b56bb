/**
 * The few pieces of Go's runtime semantics the generator relies on:
 * integer division and remainder on `int` (both truncate toward zero),
 * and `rand.Intn`, whose result is modelled as a draw reduced into range.
 */
module GoRuntime {

  /** Go's `a / b` on `int` for a positive divisor: the quotient is truncated toward zero. */
  function TruncDiv(a: int, b: int): (q: int)
    requires b > 0
    ensures a >= 0 ==> 0 <= q * b <= a < (q + 1) * b
    ensures a < 0 ==> (q - 1) * b < a <= q * b <= 0
  {
    if a >= 0 then
      NonNegativeQuotient(a, b);
      a / b
    else
      NegativeQuotient(a, b);
      -((-a) / b)
  }

  lemma NonNegativeQuotient(a: int, b: int)
    requires a >= 0 && b > 0
    ensures 0 <= (a / b) * b <= a < (a / b + 1) * b
  {
    QuotientBounds(a, b, a / b, a % b);
  }

  lemma NegativeQuotient(a: int, b: int)
    requires a < 0 && b > 0
    ensures (-((-a) / b) - 1) * b < a <= -((-a) / b) * b <= 0
  {
    var q := (-a) / b;
    QuotientBounds(-a, b, q, (-a) % b);
    Negate(q, b);
  }

  /** A non-negative dividend lies between the multiples of `b` either side of its quotient. */
  lemma QuotientBounds(x: int, b: int, q: int, r: int)
    requires x >= 0 && b > 0 && x == q * b + r && 0 <= r < b
    ensures 0 <= q * b <= x < (q + 1) * b
  {
    assert (q + 1) * b == q * b + b;
    if q < 0 {
      MulMonotone(q, -1, b);
      assert false;
    }
    MulMonotone(0, q, b);
  }

  lemma MulMonotone(x: int, y: int, b: int)
    requires x <= y && b > 0
    ensures x * b <= y * b
  {
    assert y * b - x * b == (y - x) * b;
  }

  /** Truncating division keeps the order of its dividends. */
  lemma TruncDivMonotone(a1: int, a2: int, b: int)
    requires a1 <= a2 && b > 0
    ensures TruncDiv(a1, b) <= TruncDiv(a2, b)
  {
    var q1, q2 := TruncDiv(a1, b), TruncDiv(a2, b);
    if q1 > q2 {
      if a1 >= 0 {
        MulMonotone(q2 + 1, q1, b);
      } else if a2 < 0 {
        MulMonotone(q2, q1 - 1, b);
      }
    }
  }

  lemma Negate(m: int, b: int)
    ensures (-m) * b == -(m * b) && (-m - 1) * b == -((m + 1) * b)
  {
  }

  /** Go's `a % b` on `int` for a positive divisor: the remainder takes the sign of `a`. */
  function TruncRem(a: int, b: int): (r: int)
    requires b > 0
    ensures a == TruncDiv(a, b) * b + r
    ensures a >= 0 ==> 0 <= r < b
    ensures a < 0 ==> -b < r <= 0
  {
    a - TruncDiv(a, b) * b
  }

  /**
   * `rand.Intn(n)`: a pseudo-random value in [0, n). The generator's random
   * source is not modelled; an arbitrary natural `draw` stands for it, and every
   * value in range is the result of some draw (see IntnReachesEveryValue).
   */
  function Intn(draw: nat, n: nat): (r: nat)
    requires n > 0
    ensures r < n
  {
    draw % n
  }

  lemma IntnReachesEveryValue(n: nat, v: nat)
    requires v < n
    ensures Intn(v, n) == v
  {
  }
}
