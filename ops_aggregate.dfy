/** The horizontal sum (`op_sum`), the squared norm (`op_norm`), the squared
    Euclidean distance (`op_euclidean`) and the cosine distance
    (`op_cosine`), each the three-phase reduction of one kernel, and what
    each computes in closed form: the exact mathematical sum, truncated to
    the element type once at the end. */
module AggregateOps {
  import opened Wrappers
  import opened IntMath
  import opened Monoids
  import opened Reductions

  // ------------------------------------------------- closed-form references

  /** The exact products `x[i] * y[i]` over the indices of `x`. */
  function Products(x: seq<int>, y: seq<int>): (r: seq<int>)
    requires |x| <= |y|
    ensures |r| == |x| && forall i :: 0 <= i < |x| ==> r[i] == x[i] * y[i]
  {
    seq(|x|, i requires 0 <= i < |x| => x[i] * y[i])
  }

  /** The exact squared differences `(x[i] - y[i])^2` over the indices of `x`. */
  function SquaredDiffs(x: seq<int>, y: seq<int>): (r: seq<int>)
    requires |x| <= |y|
    ensures |r| == |x| && forall i :: 0 <= i < |x| ==> r[i] == (x[i] - y[i]) * (x[i] - y[i])
  {
    seq(|x|, i requires 0 <= i < |x| => (x[i] - y[i]) * (x[i] - y[i]))
  }

  /** One more `add(acc, mul(x[i], y[i]))` on a running dot product that is
      the wrapped exact sum of the first `i` products gives the wrapped
      exact sum of the first `i + 1`. */
  lemma AccumulateProduct(t: IntType, acc: int, x: seq<int>, y: seq<int>, i: nat)
    requires i < |x| <= |y| && acc == Wrap(t, Sum(Products(x[..i], y)))
    ensures IntMath.Add(t, acc, IntMath.Mul(t, x[i], y[i])) == Wrap(t, Sum(Products(x[..i + 1], y)))
  {
    assert Products(x[..i + 1], y)[..i] == Products(x[..i], y);
    AddWrapped(t, Sum(Products(x[..i], y)), x[i] * y[i]);
  }

  /** Likewise for `add(acc, mul(d, d))` with `d = sub(x[i], y[i])` on a
      running sum of squared differences. */
  lemma AccumulateSquaredDiff(t: IntType, acc: int, x: seq<int>, y: seq<int>, i: nat)
    requires i < |x| <= |y| && acc == Wrap(t, Sum(SquaredDiffs(x[..i], y)))
    ensures var d := IntMath.Sub(t, x[i], y[i]);
      IntMath.Add(t, acc, IntMath.Mul(t, d, d)) == Wrap(t, Sum(SquaredDiffs(x[..i + 1], y)))
  {
    assert SquaredDiffs(x[..i + 1], y)[..i] == SquaredDiffs(x[..i], y);
    SquaredDiffWraps(t, x[i], y[i]);
    AddWrapped(t, Sum(SquaredDiffs(x[..i], y)), (x[i] - y[i]) * (x[i] - y[i]));
  }

  /** The wrapped square of a wrapped difference is the wrapped square of the
      exact difference. */
  lemma SquaredDiffWraps(t: IntType, x: int, y: int)
    ensures IntMath.Mul(t, IntMath.Sub(t, x, y), IntMath.Sub(t, x, y)) == Wrap(t, (x - y) * (x - y))
  {
    var e := x - y;
    WrapMulLeft(t, e, Wrap(t, e));
    WrapMulRight(t, e, e);
  }

  /** The dot-product kernel's fold is the exact dot product, wrapped once. */
  lemma DotIsWrappedSum(t: IntType, a: seq<int>, b: seq<int>)
    requires |a| == |b|
    ensures Reduced(t, DotK, a, b) == Wrap(t, Sum(Products(a, b)))
  {
    FoldSumOfWrapped(t, Terms(t, DotK, a, b), Products(a, b));
  }

  /** The squared-norm kernel's fold is the exact sum of squares, wrapped once. */
  lemma NormIsWrappedSum(t: IntType, a: seq<int>)
    ensures Reduced(t, NormK, a, a) == Wrap(t, Sum(Products(a, a)))
  {
    FoldSumOfWrapped(t, Terms(t, NormK, a, a), Products(a, a));
  }

  /** The Euclidean kernel's fold is the exact sum of squared differences,
      wrapped once. */
  lemma EuclideanIsWrappedSum(t: IntType, a: seq<int>, b: seq<int>)
    requires |a| == |b|
    ensures Reduced(t, EuclidK, a, b) == Wrap(t, Sum(SquaredDiffs(a, b)))
  {
    var ts := Terms(t, EuclidK, a, b);
    forall i | 0 <= i < |a| ensures ts[i] == Wrap(t, SquaredDiffs(a, b)[i]) {
      SquaredDiffWraps(t, a[i], b[i]);
    }
    FoldSumOfWrapped(t, ts, SquaredDiffs(a, b));
  }

  // --------------------------------------------------------------- kernels

  /** `generic_sum_horizontal`: the fold of `M::add` from `M::zero()`, which
      is the exact sum wrapped to the type; zero for an empty input. */
  method SumHorizontal(t: IntType, lanes: nat, dims: nat, a: seq<int>) returns (sum: int)
    requires lanes >= 1 && |a| == dims && AllInRange(t, a)
    ensures sum == Fold(t, SumM, a)
    ensures sum == Wrap(t, Sum(a))
    ensures dims == 0 ==> sum == 0
  {
    sum := Horizontal(t, SumK, lanes, dims, a, a);
    assert Terms(t, SumK, a, a) == a;
    FoldSumIsWrappedSum(t, a);
  }

  /** `generic_squared_norm`: the sum of `a[i] * a[i]`, wrapped. */
  method SquaredNorm(t: IntType, lanes: nat, dims: nat, a: seq<int>) returns (norm: int)
    requires lanes >= 1 && |a| == dims && AllInRange(t, a)
    ensures norm == Wrap(t, Sum(Products(a, a)))
    ensures dims == 0 ==> norm == 0
  {
    norm := Horizontal(t, NormK, lanes, dims, a, a);
    NormIsWrappedSum(t, a);
  }

  /** `generic_euclidean`: the sum of `(a[i] - b[i])^2`, wrapped. */
  method Euclidean(t: IntType, lanes: nat, dims: nat, a: seq<int>, b: seq<int>) returns (dist: int)
    requires lanes >= 1 && |a| == dims && |b| == dims && AllInRange(t, a)
    ensures dist == Wrap(t, Sum(SquaredDiffs(a, b)))
    ensures dims == 0 ==> dist == 0
  {
    dist := Horizontal(t, EuclidK, lanes, dims, a, b);
    EuclideanIsWrappedSum(t, a, b);
  }

  /** The dot product `generic_cosine` calls: the sum of `a[i] * b[i]`,
      wrapped, with the three-phase shape of the norm kernel. */
  method DotProduct(t: IntType, lanes: nat, dims: nat, a: seq<int>, b: seq<int>) returns (dot: int)
    requires lanes >= 1 && |a| == dims && |b| == dims && AllInRange(t, a)
    ensures dot == Wrap(t, Sum(Products(a, b)))
  {
    dot := Horizontal(t, DotK, lanes, dims, a, b);
    DotIsWrappedSum(t, a, b);
  }

  // ---------------------------------------------------------------- cosine

  /** `op_cosine::cosine` over integers: zero when both norms are zero, one
      when exactly one is, otherwise `1 - dot / sqrt(norm_x * norm_y)`.
      `sqrt` is `M::sqrt`, a parameter here; `None` is the panic of an
      integer division by a zero root. */
  function Cosine(t: IntType, sqrt: int -> int, dot: int, normX: int, normY: int): (r: Option<int>)
    ensures normX == 0 && normY == 0 ==> r == Some(0)
    ensures (normX == 0) != (normY == 0) ==> r == Some(1)
    ensures r.None? <==> normX != 0 && normY != 0 && sqrt(IntMath.Mul(t, normX, normY)) == 0
    ensures r.Some? && normX != 0 && normY != 0 ==>
      r.value == IntMath.Sub(t, 1, IntMath.Div(t, dot, sqrt(IntMath.Mul(t, normX, normY))))
  {
    if CmpEq(normX, Zero(t)) && CmpEq(normY, Zero(t)) then Some(Zero(t))
    else if CmpEq(normX, Zero(t)) || CmpEq(normY, Zero(t)) then Some(One(t))
    else
      var root := sqrt(IntMath.Mul(t, normX, normY));
      if root == 0 then None
      else Some(IntMath.Sub(t, One(t), IntMath.Div(t, dot, root)))
  }

  /** `generic_cosine`: both squared norms and the dot product of `a` and
      `b`, then `cosine` of the three; the result is `cosine` of the exact
      sums, each wrapped once. */
  method GenericCosine(t: IntType, lanes: nat, sqrt: int -> int, dims: nat, a: seq<int>, b: seq<int>)
    returns (r: Option<int>)
    requires lanes >= 1 && |a| == dims && |b| == dims && AllInRange(t, a) && AllInRange(t, b)
    ensures r == Cosine(t, sqrt, Wrap(t, Sum(Products(a, b))), Wrap(t, Sum(Products(a, a))), Wrap(t, Sum(Products(b, b))))
  {
    var normA := SquaredNorm(t, lanes, dims, a);
    var normB := SquaredNorm(t, lanes, dims, b);
    var dot := DotProduct(t, lanes, dims, a, b);
    r := Cosine(t, sqrt, dot, normA, normB);
  }
}
