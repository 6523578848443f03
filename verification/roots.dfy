/** Integer and rounded square roots, exact on reals: the one irrational step of
    the relative-speed uncertainty reduced to integer arithmetic. */
module Roots {

  /** The integer square root: the largest `r` with `r * r <= k`. */
  function ISqrt(k: nat): (r: nat)
    ensures r * r <= k < (r + 1) * (r + 1)
  {
    RootBetween(k, 0, k + 1)
  }

  /** The integer square root of `k`, found by halving a range `[lo, hi)` known to hold it. */
  function RootBetween(k: nat, lo: nat, hi: nat): (root: nat)
    requires lo < hi
    requires lo * lo <= k < hi * hi
    ensures root * root <= k < (root + 1) * (root + 1)
    decreases hi - lo
  {
    if lo + 1 == hi then lo
    else
      var mid := (lo + hi) / 2;
      var below := mid * mid <= k;
      RootBetween(k, if below then mid else lo, if below then hi else mid)
  }

  /** `n - 1/2 <= sqrt(x) < n + 1/2`, stated in squares (the lower bound only matters from 1 on). */
  predicate RootBracket(n: nat, x: real)
  {
    && (1 <= n ==> (n as real - 0.5) * (n as real - 0.5) <= x)
    && x < (n as real + 0.5) * (n as real + 0.5)
  }

  /** The nearest integer to the square root of a non-negative real; an exact half rounds up. */
  function RoundSqrt(x: real): (n: nat)
    requires 0.0 <= x
    ensures RootBracket(n, x)
  {
    var m := ISqrt((4.0 * x).Floor);
    RoundedRoot(x, m);
    (m + 1) / 2
  }

  /** Halving the integer square root of `4x`, rounded up, rounds the square root of `x`. */
  lemma RoundedRoot(x: real, m: nat)
    requires 0.0 <= x
    requires m * m <= (4.0 * x).Floor < (m + 1) * (m + 1)
    ensures RootBracket((m + 1) / 2, x)
  {
    var n := (m + 1) / 2;
    RootOfFloor(x, m);
    RootOfFloorAbove(x, m);
    assert m == 2 * n - 1 || m == 2 * n;
    HalfRootBounds(x, m as real, n as real);
  }

  /** `ISqrt` of the integer part of `4x` is at most the square root of `4x`... */
  lemma RootOfFloor(x: real, m: nat)
    requires 0.0 <= x
    requires m * m <= (4.0 * x).Floor
    ensures (m as real) * (m as real) <= 4.0 * x
  {
    assert m * m <= (4.0 * x).Floor;
    CastSquare(m);
  }

  /** ... and one more than it is above that square root. */
  lemma RootOfFloorAbove(x: real, m: nat)
    requires 0.0 <= x
    requires (4.0 * x).Floor < (m + 1) * (m + 1)
    ensures 4.0 * x < (m as real + 1.0) * (m as real + 1.0)
  {
    assert (4.0 * x).Floor + 1 <= (m + 1) * (m + 1);
    CastSquare(m + 1);
    assert ((m + 1) * (m + 1)) as real == (m as real + 1.0) * (m as real + 1.0);
  }

  lemma CastSquare(m: int)
    ensures (m * m) as real == (m as real) * (m as real)
  {
  }

  /** From `m <= sqrt(4x) < m + 1` to `n - 1/2 <= sqrt(x) < n + 1/2` for `n` = `(m + 1) / 2`. */
  lemma HalfRootBounds(x: real, mr: real, nr: real)
    requires 0.0 <= mr && 0.0 <= nr
    requires mr * mr <= 4.0 * x < (mr + 1.0) * (mr + 1.0)
    requires mr == 2.0 * nr - 1.0 || mr == 2.0 * nr
    ensures 1.0 <= nr ==> (nr - 0.5) * (nr - 0.5) <= x
    ensures x < (nr + 0.5) * (nr + 0.5)
  {
    if mr == 2.0 * nr - 1.0 {
      assert 4.0 * ((nr - 0.5) * (nr - 0.5)) == mr * mr;
      assert (mr + 1.0) * (mr + 1.0) <= 4.0 * ((nr + 0.5) * (nr + 0.5));
    } else {
      assert 4.0 * ((nr + 0.5) * (nr + 0.5)) == (mr + 1.0) * (mr + 1.0);
      if 1.0 <= nr {
        assert 4.0 * ((nr - 0.5) * (nr - 0.5)) <= mr * mr;
      }
    }
  }

  /** At most one integer rounds the square root of `x`. */
  lemma RootBracketUnique(n: nat, m: nat, x: real)
    requires RootBracket(n, x) && RootBracket(m, x)
    ensures n == m
  {
    if n < m {
      BracketsApart(n, m);
    } else if m < n {
      BracketsApart(m, n);
    }
  }

  /** The bracket of a smaller integer ends where the bracket of a larger one begins, or before. */
  lemma BracketsApart(n: nat, m: nat)
    requires n < m
    ensures (n as real + 0.5) * (n as real + 0.5) <= (m as real - 0.5) * (m as real - 0.5)
  {
    var a := n as real + 0.5;
    var b := m as real - 0.5;
    assert 0.0 < a <= b;
    NonNegativeProduct(b - a, b + a);
    assert b * b - a * a == (b - a) * (b + a);
  }

  lemma NonNegativeProduct(x: real, y: real)
    requires 0.0 <= x && 0.0 <= y
    ensures 0.0 <= x * y
  {
  }
}
