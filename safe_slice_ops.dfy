/** The exported `xconst`/`xany` functions (`safe_arithmetic_ops`,
    `safe_min_max_sum_ops`, `safe_distance_ops`, `safe_norm_ops`): an
    `xconst` function takes its length as the const parameter `DIMS` and
    hands `DIMS` to its kernel; an `xany` function hands the kernel
    `a.len()`. Each checks lengths with `assert_eq!` first, and what it
    checks decides whether the kernel's length requirement holds. */
module SafeSliceOps {
  import opened Wrappers
  import opened IntMath
  import opened ScalarOps
  import opened Monoids
  import Buffer
  import opened Dispatch
  import opened Reductions
  import AggregateOps
  import MaxMinOps
  import Boilerplate
  import SafeTraitOps

  // ------------------------------------------------ vector-by-value ops

  /** `{t}_xconst_{op}_value::<DIMS>` (arithmetic, and `min_value`/`max_value`):
      panics unless `a.len() == DIMS` and the result holds `DIMS` slots;
      then `result[i] = op(a[i], value)`. */
  method XconstValueOp(target: Target, t: IntType, op: BinOp, dims: nat, value: int, a: seq<int>, result: Buffer.WriteOnlyBuffer)
    returns (panicked: bool)
    requires Defined(op, value) && result.Valid()
    modifies result.buf, result`writes
    ensures result.Valid()
    ensures panicked <==> |a| != dims || result.RawBufferLen() != dims
    ensures panicked ==> result.buf[..] == old(result.buf[..]) && result.writes == old(result.writes)
    ensures !panicked ==> result.buf[..] == Zip(t, op, a, Fill(dims, value))
  {
    panicked := SafeTraitOps.ValueOp(target, t, op, dims, value, a, result);
  }

  /** `{t}_xany_{op}_value`: panics unless `a` and the result have the same
      length, whatever it is; then `result[i] = op(a[i], value)`. */
  method XanyValueOp(target: Target, t: IntType, op: BinOp, value: int, a: seq<int>, result: Buffer.WriteOnlyBuffer)
    returns (panicked: bool)
    requires Defined(op, value) && result.Valid()
    modifies result.buf, result`writes
    ensures result.Valid()
    ensures panicked <==> |a| != result.RawBufferLen()
    ensures panicked ==> result.buf[..] == old(result.buf[..]) && result.writes == old(result.writes)
    ensures !panicked ==> result.buf[..] == Zip(t, op, a, Fill(|a|, value))
  {
    if |a| != result.RawBufferLen() {
      return true;
    }
    Boilerplate.ApplyVectorXValue(t, SafeTraitOps.KernelLanes(target, NoFmaArms, t), op, |a|, value, a, result);
    assert old(result.buf[..])[|a|..] == [];
    panicked := false;
  }

  // ----------------------------------------------- vector-by-vector ops

  /** `{t}_xconst_{op}_vector::<DIMS>` and `{t}_xconst_{min,max}_vertical`:
      panics unless `a`, `b` and the result all have length `DIMS`; then
      `result[i] = op(a[i], b[i])`. */
  method XconstVectorOp(target: Target, t: IntType, op: BinOp, dims: nat, a: seq<int>, b: seq<int>, result: Buffer.WriteOnlyBuffer)
    returns (panicked: bool)
    requires AllDefined(op, b) && result.Valid()
    modifies result.buf, result`writes
    ensures result.Valid()
    ensures panicked <==> |a| != dims || |b| != dims || result.RawBufferLen() != dims
    ensures panicked ==> result.buf[..] == old(result.buf[..]) && result.writes == old(result.writes)
    ensures !panicked ==> result.buf[..] == Zip(t, op, a, b)
  {
    panicked := SafeTraitOps.VectorOp(target, t, op, dims, a, b, result);
  }

  /** `{t}_xany_{op}_vector` and `{t}_xany_{min,max}_vertical`: panics
      unless `a.len() == b.len()` and `a.len()` is the result's length. */
  method XanyVectorOp(target: Target, t: IntType, op: BinOp, a: seq<int>, b: seq<int>, result: Buffer.WriteOnlyBuffer)
    returns (panicked: bool)
    requires AllDefined(op, b) && result.Valid()
    modifies result.buf, result`writes
    ensures result.Valid()
    ensures panicked <==> |a| != |b| || |a| != result.RawBufferLen()
    ensures panicked ==> result.buf[..] == old(result.buf[..]) && result.writes == old(result.writes)
    ensures !panicked ==> result.buf[..] == Zip(t, op, a, b)
  {
    if |a| != |b| {
      return true;
    }
    if |a| != result.RawBufferLen() {
      return true;
    }
    Boilerplate.ApplyVectorXVector(t, SafeTraitOps.KernelLanes(target, NoFmaArms, t), op, |a|, a, b, result);
    assert old(result.buf[..])[|a|..] == [];
    panicked := false;
  }

  /** What the tests check of the `xany` arithmetic ops: adding one to `a`
      and subtracting one undo each other, and multiplying or dividing by
      one gives `a` back. */
  lemma {:induction false} UnitValueOps(t: IntType, a: seq<int>)
    requires AllInRange(t, a)
    ensures Zip(t, BinOp.Sub, Zip(t, BinOp.Add, a, Fill(|a|, 1)), Fill(|a|, 1)) == a
    ensures Zip(t, BinOp.Mul, a, Fill(|a|, 1)) == a
    ensures Zip(t, BinOp.Div, a, Fill(|a|, 1)) == a
  {
    var plus := Zip(t, BinOp.Add, a, Fill(|a|, 1));
    forall i | 0 <= i < |a|
      ensures Zip(t, BinOp.Sub, plus, Fill(|a|, 1))[i] == a[i]
      ensures Zip(t, BinOp.Mul, a, Fill(|a|, 1))[i] == a[i]
      ensures Zip(t, BinOp.Div, a, Fill(|a|, 1))[i] == a[i]
    {
      WrapAddLeft(t, a[i] + 1, -1);
      DivWraps(t, a[i], 1);
    }
  }

  /** The documented value examples: adding one to `[1, 2, 3]` gives
      `[2, 3, 4]` and subtracting one gives `[0, 1, 2]`. */
  lemma ValueDocExamples(t: IntType)
    ensures Zip(t, BinOp.Add, [1, 2, 3], Fill(3, 1)) == [2, 3, 4]
    ensures Zip(t, BinOp.Sub, [1, 2, 3], Fill(3, 1)) == [0, 1, 2]
  {
    assert InRange(t, 0) && InRange(t, 4);
    var add := Zip(t, BinOp.Add, [1, 2, 3], Fill(3, 1));
    assert add[0] == 2 && add[1] == 3 && add[2] == 4;
    var sub := Zip(t, BinOp.Sub, [1, 2, 3], Fill(3, 1));
    assert sub[0] == 0 && sub[1] == 1 && sub[2] == 2;
  }

  /** The documented vector examples: adding `[1, 2, 3]` to itself gives
      `[2, 4, 6]`, multiplying gives `[1, 4, 9]`. */
  lemma VectorDocExamples(t: IntType)
    ensures Zip(t, BinOp.Add, [1, 2, 3], [1, 2, 3]) == [2, 4, 6]
    ensures Zip(t, BinOp.Mul, [1, 2, 3], [1, 2, 3]) == [1, 4, 9]
  {
    assert InRange(t, 1) && InRange(t, 9);
    var twice := Zip(t, BinOp.Add, [1, 2, 3], [1, 2, 3]);
    assert twice[0] == 2 && twice[1] == 4 && twice[2] == 6;
    var square := Zip(t, BinOp.Mul, [1, 2, 3], [1, 2, 3]);
    assert square[0] == 1 && square[1] == 4 && square[2] == 9;
  }

  // ---------------------------------------------------- horizontal ops

  /** The register width of a min/max/sum kernel and its no-FMA dispatch. */
  method HorizontalKernel(target: Target, t: IntType, m: Monoid, a: seq<int>) returns (v: int)
    requires AllInRange(t, a)
    ensures v == Fold(t, m, a)
  {
    var lanes := SafeTraitOps.KernelLanes(target, NoFmaArms, t);
    match m {
      case SumM => v := AggregateOps.SumHorizontal(t, lanes, |a|, a);
      case MaxM => v := MaxMinOps.MaxHorizontal(t, lanes, |a|, a);
      case MinM => v := MaxMinOps.MinHorizontal(t, lanes, |a|, a);
    }
  }

  /** `{t}_xconst_{sum,max_horizontal,min_horizontal}::<DIMS>`: panics
      unless `a.len() == DIMS`; otherwise the fold of `add`, `cmp_max` or
      `cmp_min` from `zero()`, `min()` or `max()`. */
  method XconstHorizontal(target: Target, t: IntType, m: Monoid, dims: nat, a: seq<int>) returns (r: Option<int>)
    requires AllInRange(t, a)
    ensures r.None? <==> |a| != dims
    ensures r.Some? ==> r.value == Fold(t, m, a)
  {
    if |a| != dims {
      return None;
    }
    var v := HorizontalKernel(target, t, m, a);
    r := Some(v);
  }

  /** `{t}_xany_{sum,max_horizontal,min_horizontal}`: no check at all; the
      kernel runs over `a.len()` elements. The sum is the exact sum wrapped
      once; the max and min bound every element and are one of them, and
      an empty input gives the identity (`T::MIN` for max, `T::MAX` for min). */
  method XanyHorizontal(target: Target, t: IntType, m: Monoid, a: seq<int>) returns (v: int)
    requires AllInRange(t, a)
    ensures v == Fold(t, m, a)
    ensures m == SumM ==> v == Wrap(t, Monoids.Sum(a))
    ensures m == MaxM ==> forall i :: 0 <= i < |a| ==> a[i] <= v
    ensures m == MinM ==> forall i :: 0 <= i < |a| ==> v <= a[i]
    ensures m != SumM && |a| > 0 ==> v in a
    ensures |a| == 0 ==> v == Identity(t, m)
  {
    v := HorizontalKernel(target, t, m, a);
    FoldSumIsWrappedSum(t, a);
    FoldMaxMinBound(t, a);
    if |a| > 0 {
      FoldMaxMinMember(t, a);
    }
  }

  // ------------------------------------------------------ distance ops

  /** The outcome of a distance function whose guard can let through
      lengths its kernel cannot handle. */
  datatype Outcome = Panicked | OutOfBounds | Value(v: int)

  /** `{t}_xconst_{dot,squared_euclidean}::<DIMS>` as written: the only
      check is `assert_eq!(a.len(), b.len())`, and the kernel is then run
      over `DIMS` elements. Longer-than-`DIMS` inputs silently reduce only
      their first `DIMS` elements; shorter ones are read out of bounds. */
  function XconstDistanceAsWritten(t: IntType, k: Kernel, dims: nat, a: seq<int>, b: seq<int>): (r: Outcome)
    requires k == DotK || k == EuclidK
    ensures r == Panicked <==> |a| != |b|
    ensures r == OutOfBounds <==> |a| == |b| && dims > |a|
    ensures r.Value? ==> dims <= |a| == |b| && r.v == Reduced(t, k, a[..dims], b[..dims])
  {
    if |a| != |b| then Panicked
    else if dims > |a| then OutOfBounds
    else Value(Reduced(t, k, a[..dims], b[..dims]))
  }

  /** Two equal-length slices that are not `DIMS` long pass the guard: with
      `DIMS = 4` and `[1, 2, 3]` the kernel reads a fourth element that is
      not there, and with `DIMS = 2` the dot product of `[1, 2, 3]` with
      itself comes out as 5 instead of 14. */
  lemma XconstDistanceGuardGap()
    ensures XconstDistanceAsWritten(I32, DotK, 4, [1, 2, 3], [1, 2, 3]) == OutOfBounds
    ensures XconstDistanceAsWritten(I32, DotK, 2, [1, 2, 3], [1, 2, 3]) == Value(5)
    ensures Reduced(I32, DotK, [1, 2, 3], [1, 2, 3]) == 14
  {
    var s := [1, 2, 3];
    assert s[..2] == [1, 2];
    AggregateOps.DotIsWrappedSum(I32, [1, 2], [1, 2]);
    AggregateOps.DotIsWrappedSum(I32, s, s);
    var p2 := AggregateOps.Products([1, 2], [1, 2]);
    assert p2 == [1, 4];
    assert Monoids.Sum(p2) == 5 by {
      assert p2[..1] == [1];
      assert Monoids.Sum([1]) == 1 by { assert [1][..0] == []; }
    }
    var p3 := AggregateOps.Products(s, s);
    assert p3 == [1, 4, 9];
    assert Monoids.Sum(p3) == 14 by {
      assert p3[..2] == p2;
      assert p2[..1] == [1];
      assert Monoids.Sum([1]) == 1 by { assert [1][..0] == []; }
    }
    assert InRange(I32, 5) && InRange(I32, 14);
  }

  /** The `xconst` distance guard as intended, like every other `xconst`
      function: both slices must be `DIMS` long. */
  predicate XconstDistanceLengthsOk(dims: nat, a: seq<int>, b: seq<int>) {
    |a| == dims && |b| == dims
  }

  /** The intended guard only lets through inputs on which the kernel
      neither reads out of bounds nor truncates: the as-written outcome
      is then the full reduction. */
  lemma XconstDistanceGuardFixed(t: IntType, k: Kernel, dims: nat, a: seq<int>, b: seq<int>)
    requires k == DotK || k == EuclidK
    requires XconstDistanceLengthsOk(dims, a, b)
    ensures XconstDistanceAsWritten(t, k, dims, a, b) == Value(Reduced(t, k, a, b))
  {
    assert a[..dims] == a && b[..dims] == b;
  }

  /** `{t}_xconst_dot::<DIMS>` with the intended guard: panics unless both
      slices are `DIMS` long; otherwise the exact dot product wrapped once. */
  method XconstDot(target: Target, t: IntType, dims: nat, a: seq<int>, b: seq<int>) returns (r: Option<int>)
    requires AllInRange(t, a)
    ensures r.None? <==> !XconstDistanceLengthsOk(dims, a, b)
    ensures r.Some? ==> r.value == Wrap(t, Monoids.Sum(AggregateOps.Products(a, b)))
  {
    r := SafeTraitOps.Dot(target, t, dims, a, b);
  }

  /** `{t}_xconst_squared_euclidean::<DIMS>` with the intended guard. */
  method XconstSquaredEuclidean(target: Target, t: IntType, dims: nat, a: seq<int>, b: seq<int>) returns (r: Option<int>)
    requires AllInRange(t, a)
    ensures r.None? <==> !XconstDistanceLengthsOk(dims, a, b)
    ensures r.Some? ==> r.value == Wrap(t, Monoids.Sum(AggregateOps.SquaredDiffs(a, b)))
  {
    r := SafeTraitOps.SquaredEuclidean(target, t, dims, a, b);
  }

  /** `{t}_xconst_cosine::<DIMS>` with the intended guard; `None` also
      stands for the integer division by a zero root. */
  method XconstCosine(target: Target, t: IntType, sqrt: int -> int, dims: nat, a: seq<int>, b: seq<int>) returns (r: Option<int>)
    requires AllInRange(t, a) && AllInRange(t, b)
    ensures !XconstDistanceLengthsOk(dims, a, b) ==> r.None?
    ensures XconstDistanceLengthsOk(dims, a, b) ==> r == AggregateOps.Cosine(t, sqrt,
      Wrap(t, Monoids.Sum(AggregateOps.Products(a, b))), Wrap(t, Monoids.Sum(AggregateOps.Products(a, a))),
      Wrap(t, Monoids.Sum(AggregateOps.Products(b, b))))
  {
    r := SafeTraitOps.Cosine(target, t, sqrt, dims, a, b);
  }

  /** `{t}_xany_dot`: panics unless `a.len() == b.len()`; otherwise the
      dot product over `a.len()` elements. */
  method XanyDot(target: Target, t: IntType, a: seq<int>, b: seq<int>) returns (r: Option<int>)
    requires AllInRange(t, a)
    ensures r.None? <==> |a| != |b|
    ensures r.Some? ==> r.value == Wrap(t, Monoids.Sum(AggregateOps.Products(a, b)))
  {
    r := SafeTraitOps.Dot(target, t, |a|, a, b);
  }

  /** `{t}_xany_squared_euclidean`: panics unless `a.len() == b.len()`. */
  method XanySquaredEuclidean(target: Target, t: IntType, a: seq<int>, b: seq<int>) returns (r: Option<int>)
    requires AllInRange(t, a)
    ensures r.None? <==> |a| != |b|
    ensures r.Some? ==> r.value == Wrap(t, Monoids.Sum(AggregateOps.SquaredDiffs(a, b)))
  {
    r := SafeTraitOps.SquaredEuclidean(target, t, |a|, a, b);
  }

  /** `{t}_xany_cosine`: panics unless `a.len() == b.len()`. */
  method XanyCosine(target: Target, t: IntType, sqrt: int -> int, a: seq<int>, b: seq<int>) returns (r: Option<int>)
    requires AllInRange(t, a) && AllInRange(t, b)
    ensures |a| != |b| ==> r.None?
    ensures |a| == |b| ==> r == AggregateOps.Cosine(t, sqrt,
      Wrap(t, Monoids.Sum(AggregateOps.Products(a, b))), Wrap(t, Monoids.Sum(AggregateOps.Products(a, a))),
      Wrap(t, Monoids.Sum(AggregateOps.Products(b, b))))
  {
    r := SafeTraitOps.Cosine(target, t, sqrt, |a|, a, b);
  }

  /** The tests' expectations: `[1, 2, 3, 4, 5]` dotted with itself is 55,
      as `simple_dot` computes, and its squared Euclidean distance to
      itself is 0, as `simple_euclidean` computes. */
  lemma DistanceTestValues(t: IntType)
    ensures Wrap(t, Monoids.Sum(AggregateOps.Products([1, 2, 3, 4, 5], [1, 2, 3, 4, 5]))) == 55
    ensures Wrap(t, Monoids.Sum(AggregateOps.SquaredDiffs([1, 2, 3, 4, 5], [1, 2, 3, 4, 5]))) == 0
  {
    var s := [1, 2, 3, 4, 5];
    var p := AggregateOps.Products(s, s);
    assert p == [1, 4, 9, 16, 25];
    assert p[..4] == [1, 4, 9, 16] && p[..4][..3] == [1, 4, 9];
    assert [1, 4, 9][..2] == [1, 4] && [1, 4][..1] == [1] && [1][..0] == [];
    var d := AggregateOps.SquaredDiffs(s, s);
    SumZeros(d);
    assert InRange(t, 55) && InRange(t, 0);
  }

  /** A sequence of zeros sums to zero. */
  lemma {:induction false} SumZeros(s: seq<int>)
    requires forall i :: 0 <= i < |s| ==> s[i] == 0
    ensures Monoids.Sum(s) == 0
  {
    if |s| > 0 {
      SumZeros(s[..|s| - 1]);
    }
  }

  // ---------------------------------------------------------- norm ops

  /** The arms of `squared_norm`: `export_safe_fma_norm_op!` for `f32` and
      `f64`, `export_safe_nofma_norm_op!` for the integers. */
  function NormArms(p: Buffer.Primitive): (arms: Arms)
    ensures arms.avx2fma <==> p == Buffer.F32 || p == Buffer.F64
  {
    SafeTraitOps.DistanceArms(p)
  }

  /** `{t}_xconst_squared_norm::<DIMS>`: panics unless `a.len() == DIMS`;
      otherwise the sum of squares wrapped once. */
  method XconstSquaredNorm(target: Target, t: IntType, dims: nat, a: seq<int>) returns (r: Option<int>)
    requires AllInRange(t, a)
    ensures r.None? <==> |a| != dims
    ensures r.Some? ==> r.value == Wrap(t, Monoids.Sum(AggregateOps.Products(a, a)))
  {
    if |a| != dims {
      return None;
    }
    var norm := AggregateOps.SquaredNorm(t, SafeTraitOps.KernelLanes(target, NormArms(SafeTraitOps.PrimitiveOf(t)), t), dims, a);
    r := Some(norm);
  }

  /** `{t}_xany_squared_norm`: no check; the sum of squares over
      `a.len()` elements, zero for an empty slice. */
  method XanySquaredNorm(target: Target, t: IntType, a: seq<int>) returns (norm: int)
    requires AllInRange(t, a)
    ensures norm == Wrap(t, Monoids.Sum(AggregateOps.Products(a, a)))
    ensures |a| == 0 ==> norm == 0
  {
    norm := AggregateOps.SquaredNorm(t, SafeTraitOps.KernelLanes(target, NormArms(SafeTraitOps.PrimitiveOf(t)), t), |a|, a);
  }
}
