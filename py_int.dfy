/** Python's integer division `//` and remainder `%`, which round toward
    negative infinity. Dafny's own `/` and `%` are Euclidean: they agree with
    Python's only when the divisor is positive, so the negative-divisor case
    is written out. */
module PyInt {

  /** `a // b`: the largest q with q * b <= a when b > 0, and the largest
      q with q * b >= a when b < 0. Python raises ZeroDivisionError for b == 0. */
  function FloorDiv(a: int, b: int): (q: int)
    requires b != 0
    ensures b > 0 ==> q * b <= a < q * b + b
    ensures b < 0 ==> q * b + b < a <= q * b
  {
    if b > 0 then a / b else (-a) / (-b)
  }

  /** `a % b` for a positive divisor: the remainder left by FloorDiv. */
  function FloorMod(a: int, b: int): (r: int)
    requires b > 0
    ensures 0 <= r < b
    ensures a == FloorDiv(a, b) * b + r
  {
    a % b
  }

  /** Multiplying both sides of a <= b by a non-negative factor keeps the order. */
  lemma MulMonotone(a: int, b: int, k: int)
    requires a <= b && 0 <= k
    ensures a * k <= b * k
  {
    assert b * k - a * k == (b - a) * k;
  }

  /** A quotient and remainder pair is unique. */
  lemma DivModUnique(q1: int, r1: int, q2: int, r2: int, b: int)
    requires b > 0
    requires 0 <= r1 < b && 0 <= r2 < b
    requires q1 * b + r1 == q2 * b + r2
    ensures q1 == q2 && r1 == r2
  {
    if q1 < q2 {
      assert (q1 + 1) * b == q1 * b + b;
      MulMonotone(q1 + 1, q2, b);
    } else if q2 < q1 {
      assert (q2 + 1) * b == q2 * b + b;
      MulMonotone(q2 + 1, q1, b);
    }
  }
}
