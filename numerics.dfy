/** Python numeric helpers used by the vision code: the builtin `min`/`max`
    on two numbers, `int()` applied to a float, and an optional value for
    computations that raise inside a `try` block. */
module Numerics {

  datatype Option<T> = None | Some(value: T)

  function Min(a: real, b: real): (r: real)
    ensures r <= a && r <= b
    ensures r == a || r == b
  {
    if b < a then b else a
  }

  function Max(a: real, b: real): (r: real)
    ensures a <= r && b <= r
    ensures r == a || r == b
  {
    if b > a then b else a
  }

  /** `i` is `x` rounded toward zero: it lies between 0 and `x`, less
      than 1 away from `x`. */
  predicate TowardZero(x: real, i: int) {
    && (0.0 <= x ==> 0 <= i && i as real <= x < i as real + 1.0)
    && (x < 0.0 ==> i <= 0 && i as real - 1.0 < x <= i as real)
  }

  /** Python's `int(x)` on a float: truncation toward zero. */
  function Trunc(x: real): (i: int)
    ensures TowardZero(x, i)
  {
    if x >= 0.0 then x.Floor else -((-x).Floor)
  }

  /** Python 2 `a / b` on integers: division rounding toward minus infinity.
      Dafny's `/` agrees with it when the divisor is positive. */
  function FloorDiv(a: int, b: int): (q: int)
    requires b != 0
    ensures b > 0 ==> q * b <= a < q * b + b
    ensures b < 0 ==> q * b + b < a <= q * b
  {
    if b > 0 then a / b else (-a) / (-b)
  }

  /** Multiplying by a non-negative factor keeps the order. */
  lemma MulMonotone(a: int, b: int, n: int)
    requires a <= b && 0 <= n
    ensures a * n <= b * n
  {
  }

  /** Bounds on a dividend bound the floor quotient by a positive divisor,
      and the quotient is non-negative exactly when the dividend is. */
  lemma FloorDivBetween(a: int, b: int, lo: int, hi: int)
    requires b > 0
    ensures FloorDiv(a, b) >= 0 <==> a >= 0
    ensures lo * b <= a ==> lo <= FloorDiv(a, b)
    ensures a < (hi + 1) * b ==> FloorDiv(a, b) <= hi
  {
    var q := FloorDiv(a, b);
    if q < 0 {
      MulMonotone(q + 1, 0, b);
    } else {
      MulMonotone(0, q, b);
    }
    if lo * b <= a && q < lo {
      MulMonotone(q + 1, lo, b);
    }
    if a < (hi + 1) * b && q > hi {
      MulMonotone(hi + 1, q, b);
    }
  }

  /** A common positive factor cancels out of a floor quotient. */
  lemma FloorDivCancel(a: int, n: int, b: int)
    requires n > 0 && b > 0
    ensures b * n > 0
    ensures FloorDiv(b * a, b * n) == FloorDiv(a, n)
  {
    MulMonotone(1, n, b);
    var q := FloorDiv(a, n);
    MulMonotone(q * n, a, b);
    MulMonotone(a + 1, q * n + n, b);
    assert q * n * b == q * (b * n);
    assert (q * n + n) * b == (q + 1) * (b * n);
    assert (a + 1) * b == b * a + b;
    FloorDivBetween(b * a, b * n, q, q);
  }

  /** `int()` is monotone: a larger float never truncates to a smaller integer. */
  lemma TruncMonotone(x: real, y: real)
    requires x <= y
    ensures Trunc(x) <= Trunc(y)
  {
  }

  /** Truncating the larger of a float and an integer keeps the larger
      of the truncated float and the integer. */
  lemma TruncMaxInt(x: real, n: int)
    ensures Trunc(Max(x, n as real)) == if Trunc(x) >= n then Trunc(x) else n
  {
    if x >= n as real {
      TruncMonotone(n as real, x);
    } else {
      TruncMonotone(x, n as real);
    }
  }

  /** The same for the smaller of the two. */
  lemma TruncMinInt(x: real, n: int)
    ensures Trunc(Min(x, n as real)) == if Trunc(x) <= n then Trunc(x) else n
  {
    if x <= n as real {
      TruncMonotone(x, n as real);
    } else {
      TruncMonotone(n as real, x);
    }
  }
}
