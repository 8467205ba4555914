/**
 * The JavaScript `Math` functions the controller uses, on exact numbers.
 * Doubles are modelled as `real`: rounding errors of IEEE-754 are not modelled.
 */
module Numbers {

  /** `Math.round`: the nearest integer, halves rounded upwards (towards +infinity). */
  function Round(x: real): (r: int)
    ensures r as real - 0.5 <= x < r as real + 0.5
  {
    (x + 0.5).Floor
  }

  /** `Math.min` on two numbers. */
  function MinReal(a: real, b: real): (r: real)
    ensures r <= a && r <= b && (r == a || r == b)
  {
    if a <= b then a else b
  }

  /** `Math.min` on integers. */
  function Min(a: int, b: int): (r: int)
    ensures r <= a && r <= b && (r == a || r == b)
  {
    if a <= b then a else b
  }

  /** `Math.max` on integers. */
  function Max(a: int, b: int): (r: int)
    ensures r >= a && r >= b && (r == a || r == b)
  {
    if a >= b then a else b
  }

  /** Scaling a non-negative value by a non-negative factor: below it for factors up to 1, above it from 1 on. */
  lemma ScaleBounds(c: real, b: real)
    requires c >= 0.0 && b >= 0.0
    ensures c * b >= 0.0
    ensures b <= 1.0 ==> c * b <= c
    ensures b >= 1.0 ==> c * b >= c
  {
    assert c * b - c == c * (b - 1.0);
  }

  /** Rounding an integer gives that integer back. */
  lemma RoundInteger(n: int)
    ensures Round(n as real) == n
  {
  }

  /** Rounding keeps a value that lies in [lo, hi] for integers lo <= hi inside [lo, hi]. */
  lemma RoundWithin(x: real, lo: int, hi: int)
    requires lo as real <= x <= hi as real
    ensures lo <= Round(x) <= hi
  {
  }
}
