/** Python's numeric operations on floats, written out over Dafny's
    unbounded reals: `int()` truncation, float `%` and `//` with a positive
    divisor, and the `max(lo, min(hi, v))` clamp. */
module Numeric {

  /** `math.tau` as the double literal Python prints for it. */
  const TAU: real := 6.283185307179586

  predicate IsInteger(r: real)
  {
    r.Floor as real == r
  }

  /** Python `int(r)` on a float: truncation toward zero. */
  function Trunc(r: real): (t: int)
    ensures 0.0 <= r ==> t as real <= r < t as real + 1.0
    ensures r < 0.0 ==> t as real - 1.0 < r <= t as real
  {
    if r >= 0.0 then r.Floor else -((-r).Floor)
  }

  lemma TruncMonotone(a: real, b: real)
    requires a <= b
    ensures Trunc(a) <= Trunc(b)
  {
  }

  /** Two reals less than one apart truncate to integers at most one apart. */
  lemma TruncNear(a: real, b: real)
    requires a <= b < a + 1.0
    ensures Trunc(a) <= Trunc(b) <= Trunc(a) + 1
  {
    TruncMonotone(a, b);
  }

  /** Python float `a % m` for `m > 0`: the result lies in `[0, m)` and
      differs from `a` by a whole multiple of `m`. */
  function FloorMod(a: real, m: real): (r: real)
    requires m > 0.0
    ensures 0.0 <= r < m
    ensures IsInteger((a - r) / m)
  {
    var n := (a / m).Floor as real;
    FloorTimes(a, m);
    MulDivCancel(n, m);
    assert a - (a - n * m) == n * m;
    a - n * m
  }

  /** The floor of `a / m` times `m` is the largest multiple of `m` not
      above `a`. */
  lemma FloorTimes(a: real, m: real)
    requires m > 0.0
    ensures var n := (a / m).Floor as real; n * m <= a < n * m + m
  {
    var q := a / m;
    var n := q.Floor as real;
    assert q * m == a;
    assert n <= q < n + 1.0;
    MulMonotone(n, q, m);
    assert n * m <= a;
    MulMonotone(q, n + 1.0, m);
    assert a < (n + 1.0) * m == n * m + m;
  }

  lemma MulDivCancel(n: real, m: real)
    requires m != 0.0
    ensures (n * m) / m == n
  {
  }

  lemma MulMonotone(x: real, y: real, m: real)
    requires x <= y && m > 0.0
    ensures x * m <= y * m
    ensures x < y ==> x * m < y * m
  {
  }

  lemma MulMonotoneNonNeg(a: real, b: real, k: real)
    requires a <= b && k >= 0.0
    ensures a * k <= b * k
  {
    assert b * k - a * k == (b - a) * k;
  }

  /** Dividing a positive numerator by a larger positive denominator gives
      a smaller quotient. */
  lemma DivDecreasing(s: real, a: real, b: real)
    requires s > 0.0 && 0.0 < a < b
    ensures 0.0 < s / b < s / a
  {
    var qa := s / a;
    var qb := s / b;
    assert qa * a == s && qb * b == s;
    if qb <= 0.0 {
      MulMonotoneNonNeg(qb, 0.0, b);
      assert false;
    }
    if qa <= qb {
      MulMonotone(a, b, qb);
      MulMonotoneNonNeg(qa, qb, a);
      assert false;
    }
  }

  /** Python `a % 1` on a float: the fractional part, in `[0, 1)`. */
  function Frac(a: real): (r: real)
    ensures 0.0 <= r < 1.0
    ensures IsInteger(a - r)
  {
    FloorMod(a, 1.0)
  }

  /** Python float `a // m` for `m > 0`: the whole number of times `m` fits. */
  function FloorDiv(a: real, m: real): (q: real)
    requires m > 0.0
    ensures IsInteger(q)
    ensures q * m <= a < q * m + m
  {
    FloorTimes(a, m);
    (a / m).Floor as real
  }

  /** `max(lo, min(hi, v))`. */
  function Clamp(v: int, lo: int, hi: int): (r: int)
    requires lo <= hi
    ensures lo <= r <= hi
    ensures lo <= v <= hi ==> r == v
    ensures v < lo ==> r == lo
    ensures hi < v ==> r == hi
  {
    var m := if hi < v then hi else v;
    if m < lo then lo else m
  }
}
