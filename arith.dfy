/** Facts about Euclidean division and remainder by a positive divisor that
    the loop bounds of the kernels rely on (`dims - dims % step` and friends). */
module Arith {

  /** Division and remainder are determined by any quotient/remainder pair. */
  lemma ModUnique(x: int, q: int, r: int, m: int)
    requires m > 0 && 0 <= r < m && x == q * m + r
    ensures x % m == r && x / m == q
  {
    var q', r' := x / m, x % m;
    assert (q' - q) * m == r - r';
    MulSign(q' - q, m);
  }

  /** A non-zero integer multiple of m is at least m in size. */
  lemma MulSign(k: int, m: int)
    requires m > 0
    ensures k >= 1 ==> k * m >= m
    ensures k <= -1 ==> k * m <= -m
  {
    if k >= 1 {
      assert k * m == (k - 1) * m + m;
    } else if k <= -1 {
      assert k * m == (k + 1) * m - m;
    }
  }

  /** Adding a multiple of the modulus does not change the remainder. */
  lemma ModAddMultiple(x: int, k: int, m: int)
    requires m > 0
    ensures (x + k * m) % m == x % m
  {
    var q, r := x / m, x % m;
    assert x + k * m == (q + k) * m + r;
    ModUnique(x + k * m, q + k, r, m);
  }

  /** Reducing one summand first gives the same remainder. */
  lemma ModAddLeft(a: int, b: int, m: int)
    requires m > 0
    ensures (a % m + b) % m == (a + b) % m
  {
    ModAddMultiple(a % m + b, a / m, m);
  }

  /** Two numbers with the same remainder differ by a multiple of the modulus. */
  lemma ModDiff(a: int, b: int, m: int)
    requires m > 0
    ensures (a - b) % m == 0 <==> a % m == b % m
  {
    if a % m == b % m {
      assert a - b == (a / m - b / m) * m;
      ModUnique(a - b, a / m - b / m, 0, m);
    } else {
      var k := (a - b) / m;
      if (a - b) % m == 0 {
        assert a == b + k * m;
        ModAddMultiple(b, k, m);
        assert false;
      }
    }
  }

  /** Rounding down to a multiple of d gives a multiple of d no larger than x. */
  lemma RoundDown(x: nat, d: nat)
    requires d > 0
    ensures 0 <= x - x % d <= x && (x - x % d) % d == 0
  {
    assert x - x % d == (x / d) * d;
    ModUnique(x - x % d, x / d, 0, d);
  }

  /** The bounds of the three phases over `n` elements: dense blocks of `d`
      up to `n - n % d`, registers of `l` up to `n - (n % d) % l`, then the
      tail. */
  lemma PhaseBounds(n: nat, d: nat, l: nat)
    requires d > 0 && l > 0
    ensures 0 <= n - n % d <= n - (n % d) % l <= n
    ensures (n - n % d) % d == 0
    ensures ((n - (n % d) % l) - (n - n % d)) % l == 0
  {
    RoundDown(n, d);
    RoundDown(n % d, l);
    assert (n - (n % d) % l) - (n - n % d) == n % d - (n % d) % l;
  }

  /** A positive multiple of d is at least d, and removing d keeps it a multiple. */
  lemma MultipleStep(x: int, d: int)
    requires d > 0 && x > 0 && x % d == 0
    ensures x >= d && (x - d) % d == 0
  {
    var q := x / d;
    assert x == q * d;
    assert x >= d by { assert q * d >= 1 * d; }
    assert x - d == (q - 1) * d;
    ModUnique(x - d, q - 1, 0, d);
  }

  /** A loop that starts a multiple of d below its bound and is still below
      it can take one more step of d. */
  lemma NextStep(i: int, end: int, d: int)
    requires d > 0 && i < end && (end - i) % d == 0
    ensures i + d <= end && (end - (i + d)) % d == 0
  {
    MultipleStep(end - i, d);
    assert end - (i + d) == end - i - d;
  }

  /** Dividing a natural number by at least one never makes it larger, and by
      at least two at most halves it. */
  lemma DivLeq(x: nat, d: nat)
    requires d >= 1
    ensures 0 <= x / d <= x
    ensures d >= 2 ==> 2 * (x / d) <= x
  {
    var q, r := x / d, x % d;
    assert x == q * d + r && 0 <= r;
    MulMono(q, 1, d);
    if d >= 2 {
      MulMono(q, 2, d);
    }
  }

  /** Multiplying by a natural number keeps the order. */
  /** Multiplication commutes; stated apart so that it can be used on terms
      whose definitions the solver should not unfold. */
  lemma MulComm(a: int, b: int)
    ensures a * b == b * a
  {
  }

  lemma MulMono(q: nat, a: int, b: int)
    requires a <= b
    ensures q * a <= q * b
  {
    assert q * b - q * a == q * (b - a);
  }
}
