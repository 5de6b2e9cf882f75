/** The three reductions the horizontal kernels compute (sum, max, min),
    each a commutative monoid over the values of an integer type, and the
    left fold that every sequential loop computes. The algebra here is what
    lets a kernel regroup the fold into eight or `8 * L` accumulators and
    still return the fold. */
module Monoids {
  import opened IntMath
  import opened ScalarOps

  datatype Monoid = SumM | MaxM | MinM

  /** The register/scalar op that combines two partial results. */
  function OpOf(m: Monoid): BinOp {
    match m
    case SumM => Add
    case MaxM => Max
    case MinM => Min
  }

  /** The start value of the fold: `zero()`, `min()` for max, `max()` for min. */
  function Identity(t: IntType, m: Monoid): (r: int)
    ensures InRange(t, r)
  {
    match m
    case SumM => Zero(t)
    case MaxM => IntMath.Min(t)
    case MinM => IntMath.Max(t)
  }

  /** The op of the monoid on two partial results. */
  function Combine(t: IntType, m: Monoid, a: int, b: int): int {
    match m
    case SumM => IntMath.Add(t, a, b)
    case MaxM => CmpMax(a, b)
    case MinM => CmpMin(a, b)
  }

  /** The register op of a monoid computes its combination lane by lane. */
  lemma CombineIsApply(t: IntType, m: Monoid, a: int, b: int)
    ensures Combine(t, m, a, b) == Apply(t, OpOf(m), a, b)
  {
  }

  /** The left fold from the identity: `acc = op(acc, s[i])` for i in order. */
  function Fold(t: IntType, m: Monoid, s: seq<int>): int {
    if |s| == 0 then Identity(t, m) else Combine(t, m, Fold(t, m, s[..|s| - 1]), s[|s| - 1])
  }

  lemma CombineAssoc(t: IntType, m: Monoid, a: int, b: int, c: int)
    ensures Combine(t, m, Combine(t, m, a, b), c) == Combine(t, m, a, Combine(t, m, b, c))
  {
    if m.SumM? {
      AddAssoc(t, a, b, c);
    }
  }

  lemma CombineComm(t: IntType, m: Monoid, a: int, b: int)
    ensures Combine(t, m, a, b) == Combine(t, m, b, a)
  {
  }

  lemma CombineIdentity(t: IntType, m: Monoid, a: int)
    requires InRange(t, a)
    ensures Combine(t, m, Identity(t, m), a) == a && Combine(t, m, a, Identity(t, m)) == a
  {
  }

  /** `(a . b) . (c . d) == (a . c) . (b . d)`: how two lane-wise partial
      results merge. */
  lemma Swap4(t: IntType, m: Monoid, a: int, b: int, c: int, d: int)
    ensures Combine(t, m, Combine(t, m, a, b), Combine(t, m, c, d))
         == Combine(t, m, Combine(t, m, a, c), Combine(t, m, b, d))
  {
    CombineAssoc(t, m, a, b, Combine(t, m, c, d));
    CombineAssoc(t, m, b, c, d);
    CombineComm(t, m, b, c);
    CombineAssoc(t, m, c, b, d);
    CombineAssoc(t, m, a, c, Combine(t, m, b, d));
  }

  /** Folding values of the type stays in the type. */
  lemma {:induction false} FoldInRange(t: IntType, m: Monoid, s: seq<int>)
    requires AllInRange(t, s)
    ensures InRange(t, Fold(t, m, s))
  {
    if |s| > 0 {
      FoldInRange(t, m, s[..|s| - 1]);
    }
  }

  /** The fold of a concatenation combines the folds of the pieces. */
  lemma {:induction false} FoldAppend(t: IntType, m: Monoid, s: seq<int>, u: seq<int>)
    requires AllInRange(t, s) && AllInRange(t, u)
    ensures Fold(t, m, s + u) == Combine(t, m, Fold(t, m, s), Fold(t, m, u))
  {
    if |u| == 0 {
      assert s + u == s;
      FoldInRange(t, m, s);
      CombineIdentity(t, m, Fold(t, m, s));
    } else {
      var n := |u| - 1;
      assert (s + u)[..|s + u| - 1] == s + u[..n];
      FoldAppend(t, m, s, u[..n]);
      CombineAssoc(t, m, Fold(t, m, s), Fold(t, m, u[..n]), u[n]);
    }
  }

  /** Folding a lane-wise combination of two equal-length sequences is
      combining their folds: the step of every multi-accumulator loop. */
  lemma {:induction false} FoldPointwise(t: IntType, m: Monoid, x: seq<int>, y: seq<int>)
    requires |x| == |y| && AllInRange(t, x) && AllInRange(t, y)
    ensures Fold(t, m, Zip(t, OpOf(m), x, y)) == Combine(t, m, Fold(t, m, x), Fold(t, m, y))
  {
    if |x| == 0 {
      CombineIdentity(t, m, Identity(t, m));
    } else {
      var n := |x| - 1;
      assert Zip(t, OpOf(m), x, y)[..n] == Zip(t, OpOf(m), x[..n], y[..n]);
      FoldPointwise(t, m, x[..n], y[..n]);
      CombineIsApply(t, m, x[n], y[n]);
      Swap4(t, m, Fold(t, m, x[..n]), Fold(t, m, y[..n]), x[n], y[n]);
    }
  }

  /** The fold of values that are all the identity is the identity: a
      zeroed or `filled(min())` accumulator holds no contribution. */
  lemma {:induction false} FoldOfIdentities(t: IntType, m: Monoid, n: nat)
    ensures Fold(t, m, Fill(n, Identity(t, m))) == Identity(t, m)
  {
    if n > 0 {
      assert Fill(n, Identity(t, m))[..n - 1] == Fill(n - 1, Identity(t, m));
      FoldOfIdentities(t, m, n - 1);
      CombineIdentity(t, m, Identity(t, m));
    }
  }

  lemma FoldSingleton(t: IntType, m: Monoid, x: int)
    requires InRange(t, x)
    ensures Fold(t, m, [x]) == x
  {
    assert [x][..0] == [];
    CombineIdentity(t, m, x);
  }

  /** The balanced tree `((a.b).(c.d)).((e.f).(g.h))` that `*_to_register`
      and `rollup_scalar_x8` build. */
  function Tree8(t: IntType, m: Monoid, a: int, b: int, c: int, d: int, e: int, f: int, g: int, h: int): int {
    Combine(t, m,
      Combine(t, m, Combine(t, m, a, b), Combine(t, m, c, d)),
      Combine(t, m, Combine(t, m, e, f), Combine(t, m, g, h)))
  }

  /** The eight-way tree is the sequential fold of its leaves. */
  lemma Tree8IsFold(t: IntType, m: Monoid, a: int, b: int, c: int, d: int, e: int, f: int, g: int, h: int)
    requires InRange(t, a) && InRange(t, b) && InRange(t, c) && InRange(t, d)
    requires InRange(t, e) && InRange(t, f) && InRange(t, g) && InRange(t, h)
    ensures Tree8(t, m, a, b, c, d, e, f, g, h) == Fold(t, m, [a, b, c, d, e, f, g, h])
  {
    var left, right := [a, b, c, d], [e, f, g, h];
    Quad(t, m, a, b, c, d);
    Quad(t, m, e, f, g, h);
    assert left + right == [a, b, c, d, e, f, g, h];
    FoldAppend(t, m, left, right);
  }

  /** The four-way tree `(a.b).(c.d)` is the fold of its leaves. */
  lemma Quad(t: IntType, m: Monoid, a: int, b: int, c: int, d: int)
    requires InRange(t, a) && InRange(t, b) && InRange(t, c) && InRange(t, d)
    ensures AllInRange(t, [a, b, c, d])
    ensures Fold(t, m, [a, b, c, d]) == Combine(t, m, Combine(t, m, a, b), Combine(t, m, c, d))
  {
    Pair(t, m, a, b);
    Pair(t, m, c, d);
    assert [a, b] + [c, d] == [a, b, c, d];
    FoldAppend(t, m, [a, b], [c, d]);
  }

  lemma Pair(t: IntType, m: Monoid, a: int, b: int)
    requires InRange(t, a) && InRange(t, b)
    ensures AllInRange(t, [a, b])
    ensures Fold(t, m, [a, b]) == Combine(t, m, a, b)
  {
    assert [a, b][..1] == [a];
    FoldSingleton(t, m, a);
  }

  // ------------------------------------------ independent characterisations

  /** The plain mathematical sum, without wrap-around. */
  function Sum(s: seq<int>): int {
    if |s| == 0 then 0 else Sum(s[..|s| - 1]) + s[|s| - 1]
  }

  /** A wrapping sum is the true sum truncated to the type: the grouping of
      the additions never matters. */
  lemma {:induction false} FoldSumIsWrappedSum(t: IntType, s: seq<int>)
    ensures Fold(t, SumM, s) == Wrap(t, Sum(s))
  {
    if |s| > 0 {
      FoldSumIsWrappedSum(t, s[..|s| - 1]);
      WrapAddLeft(t, Sum(s[..|s| - 1]), s[|s| - 1]);
    }
  }

  /** Summing values that are each the wrapped form of an exact value is
      wrapping the exact sum: a product or difference may be wrapped per
      element without changing the total. */
  lemma {:induction false} FoldSumOfWrapped(t: IntType, s: seq<int>, e: seq<int>)
    requires |s| == |e| && forall i :: 0 <= i < |s| ==> s[i] == Wrap(t, e[i])
    ensures Fold(t, SumM, s) == Wrap(t, Sum(e))
  {
    if |s| > 0 {
      var n := |s| - 1;
      FoldSumOfWrapped(t, s[..n], e[..n]);
      var total := Sum(e[..n]);
      WrapAddLeft(t, total, Wrap(t, e[n]));
      WrapAddLeft(t, e[n], total);
      assert total + Wrap(t, e[n]) == Wrap(t, e[n]) + total;
    }
  }

  /** The max fold bounds every element from above and the min fold from
      below; on an empty input they are `min()` and `max()`. */
  lemma {:induction false} FoldMaxMinBound(t: IntType, s: seq<int>)
    ensures forall i :: 0 <= i < |s| ==> s[i] <= Fold(t, MaxM, s) && Fold(t, MinM, s) <= s[i]
    ensures |s| == 0 ==> Fold(t, MaxM, s) == IntMath.Min(t) && Fold(t, MinM, s) == IntMath.Max(t)
  {
    if |s| > 0 {
      var n := |s| - 1;
      FoldMaxMinBound(t, s[..n]);
      assert forall i :: 0 <= i < n ==> s[..n][i] == s[i];
    }
  }

  /** A non-empty max or min fold is one of the elements. */
  lemma {:induction false} FoldMaxMinMember(t: IntType, s: seq<int>)
    requires |s| > 0 && AllInRange(t, s)
    ensures Fold(t, MaxM, s) in s && Fold(t, MinM, s) in s
  {
    var n := |s| - 1;
    if n == 0 {
      assert s[..n] == [];
    } else {
      assert AllInRange(t, s[..n]);
      FoldMaxMinMember(t, s[..n]);
      assert forall x :: x in s[..n] ==> x in s;
    }
  }
}
