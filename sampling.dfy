// Shared vocabulary of the two generators: random draws made explicit, the
// uniform transform both tools apply to them, and square real matrices.

module Sampling {

  /** A stream of random draws, indexed by the position at which each is taken. */
  type Draws = nat -> real

  /** A dense real matrix, row by row. */
  type Matrix = seq<seq<real>>

  /** Every draw lies in [0, 1), as `random.random()` and numpy's `random_sample` promise. */
  ghost predicate UnitDraws(d: Draws)
  {
    forall k: nat :: 0.0 <= d(k) < 1.0
  }

  /** `uniform(a, b)` for a unit draw `u`: the value `a + (b - a) * u` (Python's and numpy's formula). */
  function Uniform(a: real, b: real, u: real): (x: real)
    ensures u == 0.0 ==> x == a
    ensures u == 1.0 ==> x == b
    ensures a == b ==> x == a
  {
    a + (b - a) * u
  }

  /** `x` lies between `a` and `b`, whichever of the two is smaller. */
  predicate Between(a: real, b: real, x: real)
  {
    if a <= b then a <= x <= b else b <= x <= a
  }

  /** A uniform value drawn from a unit draw lies between the two bounds, even when they are given in reverse order. */
  lemma UniformBetween(a: real, b: real, u: real)
    requires 0.0 <= u <= 1.0
    ensures Between(a, b, Uniform(a, b, u))
  {
    var s := if a <= b then b - a else a - b;
    ProductNonNegative(s, u);
    ProductNonNegative(s, 1.0 - u);
    assert s * u + s * (1.0 - u) == s;
  }

  lemma ProductNonNegative(x: real, y: real)
    requires x >= 0.0 && y >= 0.0
    ensures x * y >= 0.0
  {
  }

  /** `m` has `n` rows of `n` entries each. */
  predicate Square(m: Matrix, n: nat)
  {
    |m| == n && forall i :: 0 <= i < n ==> |m[i]| == n
  }
}
