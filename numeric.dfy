/**
 * The small part of JavaScript's `Math` object and value model that the
 * exercise-analysis pipeline relies on: an optional value (`null` /
 * `undefined`), absolute value, `Math.min` / `Math.max`, `Math.round` and
 * `Math.floor`, and the two transcendental functions `Math.sqrt` and
 * `Math.acos`.
 *
 * `Math.sqrt` and `Math.acos` are not defined here: they are supplied by the
 * caller as a `MathLib`, a pair of functions that obey the laws the rest of the
 * model needs (square roots of non-negative numbers are non-negative, and the
 * square root of zero is zero; the inverse cosine of a number in [-1, 1] lies in [0, PI]).
 * Nothing is claimed about floating-point rounding.
 */
module Numeric {

  datatype Option<T> = None | Some(value: T)

  /** `Math.PI` as the double-precision literal JavaScript uses. */
  const PI: real := 3.141592653589793

  datatype Numerics = Numerics(sqrt: real -> real, acos: real -> real)
  {
    /** The laws the model assumes of `Math.sqrt` and `Math.acos`. */
    ghost predicate Lawful()
    {
      && sqrt(0.0) == 0.0
      && (forall x: real :: 0.0 <= x ==> 0.0 <= sqrt(x))
      && (forall c: real :: -1.0 <= c <= 1.0 ==> 0.0 <= acos(c) <= PI)
    }
  }

  /** Any pair of functions obeying the laws stands for the host's `Math`. */
  type MathLib = n: Numerics | n.Lawful() witness Numerics(x => x, c => 0.0)

  function Abs(x: real): (r: real)
    ensures 0.0 <= r && (r == x || r == -x)
  {
    if x < 0.0 then -x else x
  }

  /** `Math.min(a, b)` */
  function Min(a: real, b: real): (r: real)
    ensures r <= a && r <= b && (r == a || r == b)
  {
    if a <= b then a else b
  }

  /** `Math.max(a, b)` */
  function Max(a: real, b: real): (r: real)
    ensures a <= r && b <= r && (r == a || r == b)
  {
    if a <= b then b else a
  }

  /** The midpoint of two coordinates, `(a + b) / 2`. */
  function Mean(a: real, b: real): (r: real)
    ensures Min(a, b) <= r <= Max(a, b)
  {
    (a + b) / 2.0
  }

  /** `Math.round`: the nearest integer, halves rounded towards +infinity. */
  function Round(x: real): (r: int)
    ensures r as real <= x + 0.5 < r as real + 1.0
  {
    (x + 0.5).Floor
  }

  /** `Math.floor(a / b)` on integer milliseconds with a positive divisor. */
  function FloorDiv(a: int, b: int): (q: int)
    requires 0 < b
    ensures q * b <= a < (q + 1) * b
  {
    a / b
  }

  /** `Math.max(0, Math.min(100, score))`, the clamp every form score ends with. */
  function ClampScore(score: real): (r: real)
    ensures 0.0 <= r <= 100.0
    ensures 0.0 <= score <= 100.0 ==> r == score
  {
    Max(0.0, Min(100.0, score))
  }

  /** `reduce((a, b) => a + b, 0)`: the values added from the left. */
  function Sum(s: seq<real>): (r: real)
    ensures s == [] ==> r == 0.0
    ensures |s| == 1 ==> r == s[0]
    decreases |s|
  {
    if s == [] then 0.0 else Sum(s[..|s| - 1]) + s[|s| - 1]
  }

  /** A sum of values that each lie in [lo, hi] lies between |s| times lo and |s| times hi. */
  lemma {:induction false} SumBounds(s: seq<real>, lo: real, hi: real)
    requires forall i :: 0 <= i < |s| ==> lo <= s[i] <= hi
    ensures |s| as real * lo <= Sum(s) <= |s| as real * hi
    decreases |s|
  {
    if s != [] {
      var init := s[..|s| - 1];
      assert forall i :: 0 <= i < |init| ==> init[i] == s[i];
      SumBounds(init, lo, hi);
      assert Sum(s) == Sum(init) + s[|s| - 1];
      assert |s| as real == |init| as real + 1.0;
      MulSucc(|init| as real, lo);
      MulSucc(|init| as real, hi);
    }
  }

  /** One more copy of `x`. */
  lemma MulSucc(n: real, x: real)
    ensures (n + 1.0) * x == n * x + x
  {
  }

  /** Summing two lists one after the other is summing their concatenation. */
  lemma {:induction false} SumConcat(a: seq<real>, b: seq<real>)
    ensures Sum(a + b) == Sum(a) + Sum(b)
    decreases |b|
  {
    if b == [] {
      assert a + b == a;
    } else {
      var init := b[..|b| - 1];
      assert (a + b)[..|a + b| - 1] == a + init;
      assert (a + b)[|a + b| - 1] == b[|b| - 1];
      SumConcat(a, init);
    }
  }

  /** A total of `n` values in [lo, hi] has a mean in [lo, hi]. */
  lemma MeanBounds(total: real, n: real, lo: real, hi: real)
    requires 0.0 < n && n * lo <= total <= n * hi
    ensures lo <= total / n <= hi
  {
    assert total / n * n == total;
  }

  /** A quotient by a positive divisor is at most 1 when the dividend is at most the divisor. */
  lemma QuotientAtMostOne(x: real, n: real)
    requires 0.0 < n && x <= n
    ensures x / n <= 1.0
  {
    assert x / n * n == x;
  }

  /** Rounding a whole number gives that number. */
  lemma RoundWhole(k: int)
    ensures Round(k as real) == k
  {
  }

  /** A rounded value of something between two integers stays between them. */
  lemma RoundBetween(x: real, lo: int, hi: int)
    requires lo as real <= x <= hi as real
    ensures lo <= Round(x) <= hi
  {
  }
}
