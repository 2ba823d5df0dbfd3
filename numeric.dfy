/**
 * Integer views of the source's arithmetic: Python's int() on a quotient,
 * JavaScript's Math.round on a quotient, and the running sums used by the
 * hit-rate computations.
 */
module Numeric {

  function Min(a: int, b: int): int { if a <= b then a else b }

  function Max(a: int, b: int): int { if a >= b then a else b }

  /** Python's int() applied to the rational a/b: truncation toward zero. */
  function PyTrunc(a: int, b: int): (r: int)
    requires b > 0
    ensures 0 <= a ==> 0 <= r * b <= a < (r + 1) * b
    ensures a < 0 ==> (r - 1) * b < a <= r * b <= 0
  {
    if a >= 0 then DivBounds(a, b); a / b
    else DivBounds(-a, b); -((-a) / b)
  }

  /** Floor division of a non-negative numerator brackets it between
      consecutive multiples of the divisor. */
  lemma DivBounds(a: nat, b: int)
    requires b > 0
    ensures 0 <= (a / b) * b <= a < (a / b) * b + b
  {
    var q, m := a / b, a % b;
    assert a == q * b + m;
  }

  /** JavaScript's Math.round applied to the rational a/b: the nearest
      integer, a half rounded toward positive infinity. */
  function JsRound(a: int, b: int): (r: int)
    requires b > 0
    ensures 2 * r * b - b <= 2 * a < 2 * r * b + b
  {
    var q := (2 * a + b) / (2 * b);
    assert 2 * a + b == q * (2 * b) + (2 * a + b) % (2 * b);
    q
  }

  /** Scaling a non-negative duration by a factor in [0, 1] and truncating
      never goes below zero nor above the duration. */
  lemma PyTruncScaleWithin(x: int, num: int, den: int)
    requires 0 <= x && 0 <= num <= den && den > 0
    ensures 0 <= PyTrunc(x * num, den) <= x
  {
    var r := PyTrunc(x * num, den);
    assert 0 <= x * num <= x * den by {
      assert x * (den - num) >= 0;
    }
    assert r * den <= x * den;
    MulMonotone(r, x, den);
  }

  /** The same for Math.round. */
  lemma JsRoundScaleWithin(x: int, num: int, den: int)
    requires 0 <= x && 0 <= num <= den && den > 0
    ensures 0 <= JsRound(x * num, den) <= x
  {
    ScaledWithin(x, num, den);
    JsRoundNonNegative(x * num, den);
    JsRoundAtMost(x * num, den, x);
  }

  /** x * num lies in [0, x * den] for a factor num / den in [0, 1]. */
  lemma ScaledWithin(x: int, num: int, den: int)
    requires 0 <= x && 0 <= num <= den
    ensures 0 <= x * num <= x * den
  {
    assert x * (den - num) >= 0;
  }

  lemma JsRoundNonNegative(a: int, b: int)
    requires 0 <= a && b > 0
    ensures JsRound(a, b) >= 0
  {
    var r := JsRound(a, b);
    assert (-1) * b < (2 * r + 1) * b;
    MulLess(-1, 2 * r + 1, b);
  }

  lemma JsRoundAtMost(a: int, b: int, x: int)
    requires b > 0 && a <= x * b
    ensures JsRound(a, b) <= x
  {
    var r := JsRound(a, b);
    assert (2 * r - 1) * b <= 2 * a;
    assert 2 * a < (2 * x + 1) * b;
    MulLess(2 * r - 1, 2 * x + 1, b);
  }

  /** Division by a positive factor keeps strict order of products. */
  lemma MulLess(a: int, b: int, c: int)
    requires c > 0 && a * c < b * c
    ensures a < b
  {
  }

  /** Division by a positive factor keeps the order of products. */
  lemma MulMonotone(a: int, b: int, c: int)
    requires c > 0 && a * c <= b * c
    ensures a <= b
  {
  }

  /** Sum of a sequence of integers (Python's sum, JavaScript's reduce with +). */
  function Sum(s: seq<int>): int
  {
    if s == [] then 0 else Sum(s[..|s| - 1]) + s[|s| - 1]
  }

  /** Floor division of a negative number by a positive one is negative. */
  lemma FloorDivNegative(n: int, k: int)
    requires k > 0 && n < 0
    ensures n / k < 0
  {
    assert n == k * (n / k) + n % k;
  }
}
