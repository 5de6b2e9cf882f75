/** The scalar fallback reductions (`generic_fallback_max`, `_min`, `_sum`,
    `_dot_product`, `_euclidean`, `_cosine`): eight accumulators unrolled by
    hand, with the `len % 8` leftover elements handled before or after the
    eight-wide loop. Whatever the grouping, each returns the sequential fold
    of its terms: the eight accumulators always fold to the fold of the
    elements consumed so far, and the final roll-up tree is that fold. */
module FallbackReductions {
  import opened Wrappers
  import opened IntMath
  import opened Monoids
  import opened Reductions
  import opened FallbackAlgebra
  import AggregateOps
  import DangerUtils
  import Arith

  // ------------------------------------------------------ eight-wide passes

  /** One pass of the eight-wide loop of the max kernel: `acc_k = cmp_max(acc_k, arr[i + k - 1])`. */
  method MaxBlock(t: IntType, arr: seq<int>, i: nat, a1: int, a2: int, a3: int, a4: int, a5: int, a6: int, a7: int, a8: int)
    returns (acc1: int, acc2: int, acc3: int, acc4: int, acc5: int, acc6: int, acc7: int, acc8: int)
    requires AllInRange(t, arr) && i + 8 <= |arr|
    requires LanesFold(t, MaxM, [a1, a2, a3, a4, a5, a6, a7, a8], arr[0..i])
    ensures LanesFold(t, MaxM, [acc1, acc2, acc3, acc4, acc5, acc6, acc7, acc8], arr[0..i + 8])
  {
    LanesStep(t, MaxM, arr, 0, i, a1, a2, a3, a4, a5, a6, a7, a8);
    acc1 := CmpMax(a1, arr[i]);
    acc2 := CmpMax(a2, arr[i + 1]);
    acc3 := CmpMax(a3, arr[i + 2]);
    acc4 := CmpMax(a4, arr[i + 3]);
    acc5 := CmpMax(a5, arr[i + 4]);
    acc6 := CmpMax(a6, arr[i + 5]);
    acc7 := CmpMax(a7, arr[i + 6]);
    acc8 := CmpMax(a8, arr[i + 7]);
  }

  /** One pass of the eight-wide loop of the min kernel: `acc_k = cmp_min(acc_k, arr[i + k - 1])`. */
  method MinBlock(t: IntType, arr: seq<int>, i: nat, a1: int, a2: int, a3: int, a4: int, a5: int, a6: int, a7: int, a8: int)
    returns (acc1: int, acc2: int, acc3: int, acc4: int, acc5: int, acc6: int, acc7: int, acc8: int)
    requires AllInRange(t, arr) && i + 8 <= |arr|
    requires LanesFold(t, MinM, [a1, a2, a3, a4, a5, a6, a7, a8], arr[0..i])
    ensures LanesFold(t, MinM, [acc1, acc2, acc3, acc4, acc5, acc6, acc7, acc8], arr[0..i + 8])
  {
    LanesStep(t, MinM, arr, 0, i, a1, a2, a3, a4, a5, a6, a7, a8);
    acc1 := CmpMin(a1, arr[i]);
    acc2 := CmpMin(a2, arr[i + 1]);
    acc3 := CmpMin(a3, arr[i + 2]);
    acc4 := CmpMin(a4, arr[i + 3]);
    acc5 := CmpMin(a5, arr[i + 4]);
    acc6 := CmpMin(a6, arr[i + 5]);
    acc7 := CmpMin(a7, arr[i + 6]);
    acc8 := CmpMin(a8, arr[i + 7]);
  }

  /** One pass of the eight-wide loop of `sum`: `acc_k = add(acc_k, arr[i + k - 1])`. */
  method SumBlock(t: IntType, arr: seq<int>, i: nat, a1: int, a2: int, a3: int, a4: int, a5: int, a6: int, a7: int, a8: int)
    returns (acc1: int, acc2: int, acc3: int, acc4: int, acc5: int, acc6: int, acc7: int, acc8: int)
    requires AllInRange(t, arr) && i + 8 <= |arr|
    requires LanesFold(t, SumM, [a1, a2, a3, a4, a5, a6, a7, a8], arr[0..i])
    ensures LanesFold(t, SumM, [acc1, acc2, acc3, acc4, acc5, acc6, acc7, acc8], arr[0..i + 8])
  {
    LanesStep(t, SumM, arr, 0, i, a1, a2, a3, a4, a5, a6, a7, a8);
    acc1 := IntMath.Add(t, a1, arr[i]);
    acc2 := IntMath.Add(t, a2, arr[i + 1]);
    acc3 := IntMath.Add(t, a3, arr[i + 2]);
    acc4 := IntMath.Add(t, a4, arr[i + 3]);
    acc5 := IntMath.Add(t, a5, arr[i + 4]);
    acc6 := IntMath.Add(t, a6, arr[i + 5]);
    acc7 := IntMath.Add(t, a7, arr[i + 6]);
    acc8 := IntMath.Add(t, a8, arr[i + 7]);
  }

  /** One pass of the eight-wide loop of `fallback_dot`: `acc_k = add(acc_k, mul(x[j], y[j]))` for `j = i + k - 1`. */
  method DotBlock(t: IntType, x: seq<int>, y: seq<int>, i: nat, a1: int, a2: int, a3: int, a4: int, a5: int, a6: int, a7: int, a8: int)
    returns (acc1: int, acc2: int, acc3: int, acc4: int, acc5: int, acc6: int, acc7: int, acc8: int)
    requires |x| == |y| && AllInRange(t, x) && i + 8 <= |x|
    requires LanesFold(t, SumM, [a1, a2, a3, a4, a5, a6, a7, a8], Terms(t, DotK, x, y)[0..i])
    ensures LanesFold(t, SumM, [acc1, acc2, acc3, acc4, acc5, acc6, acc7, acc8], Terms(t, DotK, x, y)[0..i + 8])
  {
    TermsInRange(t, DotK, x, y);
    LanesStep(t, SumM, Terms(t, DotK, x, y), 0, i, a1, a2, a3, a4, a5, a6, a7, a8);
    acc1 := IntMath.Add(t, a1, IntMath.Mul(t, x[i], y[i]));
    acc2 := IntMath.Add(t, a2, IntMath.Mul(t, x[i + 1], y[i + 1]));
    acc3 := IntMath.Add(t, a3, IntMath.Mul(t, x[i + 2], y[i + 2]));
    acc4 := IntMath.Add(t, a4, IntMath.Mul(t, x[i + 3], y[i + 3]));
    acc5 := IntMath.Add(t, a5, IntMath.Mul(t, x[i + 4], y[i + 4]));
    acc6 := IntMath.Add(t, a6, IntMath.Mul(t, x[i + 5], y[i + 5]));
    acc7 := IntMath.Add(t, a7, IntMath.Mul(t, x[i + 6], y[i + 6]));
    acc8 := IntMath.Add(t, a8, IntMath.Mul(t, x[i + 7], y[i + 7]));
  }

  /** One pass of the eight-wide loop of `fallback_euclidean`: with `diff = sub(x[j], y[j])`, `acc_k = add(acc_k, mul(diff, diff))` for `j = i + k - 1`. */
  method EuclidBlock(t: IntType, x: seq<int>, y: seq<int>, lo: nat, i: nat, a1: int, a2: int, a3: int, a4: int, a5: int, a6: int, a7: int, a8: int)
    returns (acc1: int, acc2: int, acc3: int, acc4: int, acc5: int, acc6: int, acc7: int, acc8: int)
    requires |x| == |y| && AllInRange(t, x) && lo <= i && i + 8 <= |x|
    requires LanesFold(t, SumM, [a1, a2, a3, a4, a5, a6, a7, a8], Terms(t, EuclidK, x, y)[lo..i])
    ensures LanesFold(t, SumM, [acc1, acc2, acc3, acc4, acc5, acc6, acc7, acc8], Terms(t, EuclidK, x, y)[lo..i + 8])
  {
    TermsInRange(t, EuclidK, x, y);
    LanesStep(t, SumM, Terms(t, EuclidK, x, y), lo, i, a1, a2, a3, a4, a5, a6, a7, a8);
    var diff1 := IntMath.Sub(t, x[i], y[i]);
    acc1 := IntMath.Add(t, a1, IntMath.Mul(t, diff1, diff1));
    var diff2 := IntMath.Sub(t, x[i + 1], y[i + 1]);
    acc2 := IntMath.Add(t, a2, IntMath.Mul(t, diff2, diff2));
    var diff3 := IntMath.Sub(t, x[i + 2], y[i + 2]);
    acc3 := IntMath.Add(t, a3, IntMath.Mul(t, diff3, diff3));
    var diff4 := IntMath.Sub(t, x[i + 3], y[i + 3]);
    acc4 := IntMath.Add(t, a4, IntMath.Mul(t, diff4, diff4));
    var diff5 := IntMath.Sub(t, x[i + 4], y[i + 4]);
    acc5 := IntMath.Add(t, a5, IntMath.Mul(t, diff5, diff5));
    var diff6 := IntMath.Sub(t, x[i + 5], y[i + 5]);
    acc6 := IntMath.Add(t, a6, IntMath.Mul(t, diff6, diff6));
    var diff7 := IntMath.Sub(t, x[i + 6], y[i + 6]);
    acc7 := IntMath.Add(t, a7, IntMath.Mul(t, diff7, diff7));
    var diff8 := IntMath.Sub(t, x[i + 7], y[i + 7]);
    acc8 := IntMath.Add(t, a8, IntMath.Mul(t, diff8, diff8));
  }

  // ---------------------------------------------------------------- max / min

  /** `generic_xany_fallback_nofma_max_horizontal`: the `len % 8` leading
      elements go into the first accumulator, the rest eight at a time into
      all eight, which the `cmp_max` tree merges. The result is the fold of
      `cmp_max` from `min()`: it bounds every element, is one of them, and is
      `min()` for an empty input. */
  method MaxHorizontal(t: IntType, arr: seq<int>) returns (max: int)
    requires AllInRange(t, arr)
    ensures max == Fold(t, MaxM, arr)
    ensures forall i :: 0 <= i < |arr| ==> arr[i] <= max
    ensures |arr| > 0 ==> max in arr
    ensures |arr| == 0 ==> max == IntMath.Min(t)
  {
    var len := |arr|;
    var offsetFrom := len % 8;
    var acc1, acc2, acc3, acc4 := IntMath.Min(t), IntMath.Min(t), IntMath.Min(t), IntMath.Min(t);
    var acc5, acc6, acc7, acc8 := IntMath.Min(t), IntMath.Min(t), IntMath.Min(t), IntMath.Min(t);

    var i := 0;
    while i < offsetFrom
      invariant 0 <= i <= offsetFrom
      invariant acc1 == Fold(t, MaxM, arr[..i])
    {
      FoldPrefixStep(t, MaxM, arr, i);
      acc1 := CmpMax(acc1, arr[i]);
      i := i + 1;
    }

    assert AllInRange(t, arr[..i]);
    FoldInRange(t, MaxM, arr[..i]);
    LanesSeed(t, MaxM, acc1);
    assert arr[0..i] == arr[..i];
    Arith.RoundDown(len, 8);
    while i < len
      invariant offsetFrom <= i <= len && (len - i) % 8 == 0
      invariant LanesFold(t, MaxM, [acc1, acc2, acc3, acc4, acc5, acc6, acc7, acc8], arr[0..i])
    {
      Arith.NextStep(i, len, 8);
      acc1, acc2, acc3, acc4, acc5, acc6, acc7, acc8 := MaxBlock(t, arr, i, acc1, acc2, acc3, acc4, acc5, acc6, acc7, acc8);
      i := i + 8;
    }

    LanesRollup(t, MaxM, acc1, acc2, acc3, acc4, acc5, acc6, acc7, acc8);
    acc1 := CmpMax(acc1, acc2);
    acc3 := CmpMax(acc3, acc4);
    acc5 := CmpMax(acc5, acc6);
    acc7 := CmpMax(acc7, acc8);
    acc1 := CmpMax(acc1, acc3);
    acc5 := CmpMax(acc5, acc7);
    max := CmpMax(acc1, acc5);

    assert arr[0..len] == arr;
    FoldMaxMinBound(t, arr);
    if len > 0 {
      FoldMaxMinMember(t, arr);
    }
  }

  /** `f32_xany_fallback_nofma_min_horizontal` (generic despite its name):
      the same shape with `cmp_min` from `max()`. */
  method MinHorizontal(t: IntType, arr: seq<int>) returns (min: int)
    requires AllInRange(t, arr)
    ensures min == Fold(t, MinM, arr)
    ensures forall i :: 0 <= i < |arr| ==> min <= arr[i]
    ensures |arr| > 0 ==> min in arr
    ensures |arr| == 0 ==> min == IntMath.Max(t)
  {
    var len := |arr|;
    var offsetFrom := len % 8;
    var acc1, acc2, acc3, acc4 := IntMath.Max(t), IntMath.Max(t), IntMath.Max(t), IntMath.Max(t);
    var acc5, acc6, acc7, acc8 := IntMath.Max(t), IntMath.Max(t), IntMath.Max(t), IntMath.Max(t);

    var i := 0;
    while i < offsetFrom
      invariant 0 <= i <= offsetFrom
      invariant acc1 == Fold(t, MinM, arr[..i])
    {
      FoldPrefixStep(t, MinM, arr, i);
      acc1 := CmpMin(acc1, arr[i]);
      i := i + 1;
    }

    assert AllInRange(t, arr[..i]);
    FoldInRange(t, MinM, arr[..i]);
    LanesSeed(t, MinM, acc1);
    assert arr[0..i] == arr[..i];
    Arith.RoundDown(len, 8);
    while i < len
      invariant offsetFrom <= i <= len && (len - i) % 8 == 0
      invariant LanesFold(t, MinM, [acc1, acc2, acc3, acc4, acc5, acc6, acc7, acc8], arr[0..i])
    {
      Arith.NextStep(i, len, 8);
      acc1, acc2, acc3, acc4, acc5, acc6, acc7, acc8 := MinBlock(t, arr, i, acc1, acc2, acc3, acc4, acc5, acc6, acc7, acc8);
      i := i + 8;
    }

    LanesRollup(t, MinM, acc1, acc2, acc3, acc4, acc5, acc6, acc7, acc8);
    acc1 := CmpMin(acc1, acc2);
    acc3 := CmpMin(acc3, acc4);
    acc5 := CmpMin(acc5, acc6);
    acc7 := CmpMin(acc7, acc8);
    acc1 := CmpMin(acc1, acc3);
    acc5 := CmpMin(acc5, acc7);
    min := CmpMin(acc1, acc5);

    assert arr[0..len] == arr;
    FoldMaxMinBound(t, arr);
    if len > 0 {
      FoldMaxMinMember(t, arr);
    }
  }

  // ---------------------------------------------------------------------- sum

  /** The eight-wide loop of `sum` over `arr[..end]`, from eight zeros. */
  method SumLanes(t: IntType, arr: seq<int>, end: nat)
    returns (acc1: int, acc2: int, acc3: int, acc4: int, acc5: int, acc6: int, acc7: int, acc8: int)
    requires AllInRange(t, arr) && end <= |arr| && end % 8 == 0
    ensures LanesFold(t, SumM, [acc1, acc2, acc3, acc4, acc5, acc6, acc7, acc8], arr[0..end])
  {
    acc1, acc2, acc3, acc4 := Zero(t), Zero(t), Zero(t), Zero(t);
    acc5, acc6, acc7, acc8 := Zero(t), Zero(t), Zero(t), Zero(t);
    LanesSeed(t, SumM, Zero(t));
    assert arr[0..0] == [];
    var i := 0;
    while i < end
      invariant 0 <= i <= end && (end - i) % 8 == 0
      invariant LanesFold(t, SumM, [acc1, acc2, acc3, acc4, acc5, acc6, acc7, acc8], arr[0..i])
    {
      Arith.NextStep(i, end, 8);
      acc1, acc2, acc3, acc4, acc5, acc6, acc7, acc8 := SumBlock(t, arr, i, acc1, acc2, acc3, acc4, acc5, acc6, acc7, acc8);
      i := i + 8;
    }
  }

  /** The leftover loop of `sum`: `extra = add(extra, arr[i])` from zero
      over `arr[start..]`. */
  method SumTail(t: IntType, arr: seq<int>, start: nat) returns (extra: int)
    requires start <= |arr|
    ensures extra == Fold(t, SumM, arr[start..])
  {
    extra := Zero(t);
    var i := start;
    while i < |arr|
      invariant start <= i <= |arr|
      invariant extra == Fold(t, SumM, arr[start..i])
    {
      FoldSliceStep(t, SumM, arr, start, i);
      extra := IntMath.Add(t, extra, arr[i]);
      i := i + 1;
    }
    assert arr[start..i] == arr[start..];
  }

  /** `sum` (behind `generic_xany_fallback_nofma_sum_horizontal`): the first
      `len - len % 8` elements eight at a time, the leftovers into `extra`,
      which is added last. The result is the fold of `add` from zero, that
      is the exact sum wrapped once; zero for an empty input. */
  method SumHorizontal(t: IntType, arr: seq<int>) returns (sum: int)
    requires AllInRange(t, arr)
    ensures sum == Fold(t, SumM, arr)
    ensures sum == Wrap(t, Sum(arr))
    ensures |arr| == 0 ==> sum == 0
  {
    var len := |arr|;
    var offsetFrom := len % 8;
    Arith.RoundDown(len, 8);
    var acc1, acc2, acc3, acc4, acc5, acc6, acc7, acc8 := SumLanes(t, arr, len - offsetFrom);
    var extra := SumTail(t, arr, len - offsetFrom);

    SumLanesRollup(t, arr[0..len - offsetFrom], acc1, acc2, acc3, acc4, acc5, acc6, acc7, acc8);
    acc1 := IntMath.Add(t, acc1, acc2);
    acc3 := IntMath.Add(t, acc3, acc4);
    acc5 := IntMath.Add(t, acc5, acc6);
    acc7 := IntMath.Add(t, acc7, acc8);
    acc1 := IntMath.Add(t, acc1, acc3);
    acc5 := IntMath.Add(t, acc5, acc7);
    sum := IntMath.Add(t, IntMath.Add(t, acc1, acc5), extra);

    assert arr[0..len - offsetFrom] == arr[..len - offsetFrom];
    FoldSplit(t, SumM, arr, len - offsetFrom);
    FoldSumIsWrappedSum(t, arr);
  }

  // --------------------------------------------------------------------- dot

  /** The leading loop of `fallback_dot`: `acc1 = add(acc1, mul(x[i], y[i]))`
      from zero for `i < n`. */
  method DotPrefix(t: IntType, x: seq<int>, y: seq<int>, n: nat) returns (acc1: int)
    requires |x| == |y| && n <= |x|
    ensures acc1 == Fold(t, SumM, Terms(t, DotK, x, y)[..n])
  {
    ghost var ts := Terms(t, DotK, x, y);
    acc1 := Zero(t);
    var i := 0;
    while i < n
      invariant 0 <= i <= n
      invariant acc1 == Fold(t, SumM, ts[..i])
    {
      FoldPrefixStep(t, SumM, ts, i);
      acc1 := IntMath.Add(t, acc1, IntMath.Mul(t, x[i], y[i]));
      i := i + 1;
    }
  }

  /** The eight-wide loop of `fallback_dot` over `start..|x|`, from lanes
      that fold to the fold of the leading products. */
  method DotLanes(t: IntType, x: seq<int>, y: seq<int>, start: nat,
                  a1: int, a2: int, a3: int, a4: int, a5: int, a6: int, a7: int, a8: int)
    returns (acc1: int, acc2: int, acc3: int, acc4: int, acc5: int, acc6: int, acc7: int, acc8: int)
    requires |x| == |y| && AllInRange(t, x) && start <= |x| && (|x| - start) % 8 == 0
    requires LanesFold(t, SumM, [a1, a2, a3, a4, a5, a6, a7, a8], Terms(t, DotK, x, y)[0..start])
    ensures LanesFold(t, SumM, [acc1, acc2, acc3, acc4, acc5, acc6, acc7, acc8], Terms(t, DotK, x, y)[0..|x|])
  {
    acc1, acc2, acc3, acc4, acc5, acc6, acc7, acc8 := a1, a2, a3, a4, a5, a6, a7, a8;
    var i := start;
    while i < |x|
      invariant start <= i <= |x| && (|x| - i) % 8 == 0
      invariant LanesFold(t, SumM, [acc1, acc2, acc3, acc4, acc5, acc6, acc7, acc8], Terms(t, DotK, x, y)[0..i])
    {
      Arith.NextStep(i, |x|, 8);
      acc1, acc2, acc3, acc4, acc5, acc6, acc7, acc8 := DotBlock(t, x, y, i, acc1, acc2, acc3, acc4, acc5, acc6, acc7, acc8);
      i := i + 8;
    }
  }

  /** `fallback_dot` (behind `generic_xany_fallback_nofma_dot`): the first
      `len % 8` products into the first accumulator, the rest eight at a
      time, rolled up by `rollup_scalar_x8`. The result is the fold of the
      wrapped products, which is the exact dot product wrapped once. */
  method Dot(t: IntType, x: seq<int>, y: seq<int>) returns (dot: int)
    requires |x| == |y| && AllInRange(t, x)
    ensures dot == Reduced(t, DotK, x, y)
    ensures dot == Wrap(t, Sum(AggregateOps.Products(x, y)))
  {
    ghost var ts := Terms(t, DotK, x, y);
    var len := |x|;
    var offsetFrom := len % 8;
    Arith.RoundDown(len, 8);
    var acc1 := DotPrefix(t, x, y, offsetFrom);
    var acc2, acc3, acc4, acc5, acc6, acc7, acc8 := Zero(t), Zero(t), Zero(t), Zero(t), Zero(t), Zero(t), Zero(t);
    TermsInRange(t, DotK, x, y);
    assert AllInRange(t, ts[..offsetFrom]);
    FoldInRange(t, SumM, ts[..offsetFrom]);
    LanesSeed(t, SumM, acc1);
    assert ts[0..offsetFrom] == ts[..offsetFrom];
    acc1, acc2, acc3, acc4, acc5, acc6, acc7, acc8 := DotLanes(t, x, y, offsetFrom, acc1, acc2, acc3, acc4, acc5, acc6, acc7, acc8);
    SumLanesRollup(t, ts[0..len], acc1, acc2, acc3, acc4, acc5, acc6, acc7, acc8);
    dot := DangerUtils.RollupScalarX8(t, acc1, acc2, acc3, acc4, acc5, acc6, acc7, acc8);
    assert ts[0..len] == ts;
    AggregateOps.DotIsWrappedSum(t, x, y);
  }

  // --------------------------------------------------------------- euclidean

  /** The leading loop of `fallback_euclidean`: with `diff = sub(x[i], y[i])`,
      `extra = add(extra, mul(diff, diff))` from zero for `i < n`. */
  method EuclidPrefix(t: IntType, x: seq<int>, y: seq<int>, n: nat) returns (extra: int)
    requires |x| == |y| && n <= |x|
    ensures extra == Fold(t, SumM, Terms(t, EuclidK, x, y)[..n])
  {
    ghost var ts := Terms(t, EuclidK, x, y);
    extra := Zero(t);
    var i := 0;
    while i < n
      invariant 0 <= i <= n
      invariant extra == Fold(t, SumM, ts[..i])
    {
      FoldPrefixStep(t, SumM, ts, i);
      var diff := IntMath.Sub(t, x[i], y[i]);
      extra := IntMath.Add(t, extra, IntMath.Mul(t, diff, diff));
      i := i + 1;
    }
  }

  /** The eight-wide loop of `fallback_euclidean` over `start..|x|`, from
      eight zeros. */
  method EuclidLanes(t: IntType, x: seq<int>, y: seq<int>, start: nat)
    returns (acc1: int, acc2: int, acc3: int, acc4: int, acc5: int, acc6: int, acc7: int, acc8: int)
    requires |x| == |y| && AllInRange(t, x) && start <= |x| && (|x| - start) % 8 == 0
    ensures LanesFold(t, SumM, [acc1, acc2, acc3, acc4, acc5, acc6, acc7, acc8], Terms(t, EuclidK, x, y)[start..])
  {
    ghost var ts := Terms(t, EuclidK, x, y);
    acc1, acc2, acc3, acc4 := Zero(t), Zero(t), Zero(t), Zero(t);
    acc5, acc6, acc7, acc8 := Zero(t), Zero(t), Zero(t), Zero(t);
    LanesSeed(t, SumM, Zero(t));
    assert ts[start..start] == [];
    var i := start;
    while i < |x|
      invariant start <= i <= |x| && (|x| - i) % 8 == 0
      invariant LanesFold(t, SumM, [acc1, acc2, acc3, acc4, acc5, acc6, acc7, acc8], ts[start..i])
    {
      Arith.NextStep(i, |x|, 8);
      acc1, acc2, acc3, acc4, acc5, acc6, acc7, acc8 := EuclidBlock(t, x, y, start, i, acc1, acc2, acc3, acc4, acc5, acc6, acc7, acc8);
      i := i + 8;
    }
    assert ts[start..i] == ts[start..];
  }

  /** `fallback_euclidean` (behind its `generic_xany_fallback_nofma_*`
      wrapper): the first `len % 8` squared differences into `extra`, the
      rest eight at a time, and `rollup_scalar_x8(...) + extra`. The result
      is the exact sum of squared differences wrapped once. */
  method Euclidean(t: IntType, x: seq<int>, y: seq<int>) returns (dist: int)
    requires |x| == |y| && AllInRange(t, x)
    ensures dist == Reduced(t, EuclidK, x, y)
    ensures dist == Wrap(t, Sum(AggregateOps.SquaredDiffs(x, y)))
  {
    ghost var ts := Terms(t, EuclidK, x, y);
    TermsInRange(t, EuclidK, x, y);
    var len := |x|;
    var offsetFrom := len % 8;
    Arith.RoundDown(len, 8);
    var extra := EuclidPrefix(t, x, y, offsetFrom);
    var acc1, acc2, acc3, acc4, acc5, acc6, acc7, acc8 := EuclidLanes(t, x, y, offsetFrom);
    SumLanesRollup(t, ts[offsetFrom..], acc1, acc2, acc3, acc4, acc5, acc6, acc7, acc8);
    var res := DangerUtils.RollupScalarX8(t, acc1, acc2, acc3, acc4, acc5, acc6, acc7, acc8);
    dist := IntMath.Add(t, res, extra);
    FoldSplit(t, SumM, ts, offsetFrom);
    AggregateOps.EuclideanIsWrappedSum(t, x, y);
  }

  // ------------------------------------------------------------------ cosine

  /** `generic_xany_fallback_nofma_cosine`: the two norms and the dot
      product through the fallback dot, then `op_cosine`'s `cosine` (the one
      the `danger` module re-exports), so one zero norm gives one. */
  method Cosine(t: IntType, sqrt: int -> int, x: seq<int>, y: seq<int>) returns (r: Option<int>)
    requires |x| == |y| && AllInRange(t, x) && AllInRange(t, y)
    ensures r == AggregateOps.Cosine(t, sqrt, Wrap(t, Sum(AggregateOps.Products(x, y))),
      Wrap(t, Sum(AggregateOps.Products(x, x))), Wrap(t, Sum(AggregateOps.Products(y, y))))
  {
    var normX := Dot(t, x, x);
    var normY := Dot(t, y, y);
    var dotProduct := Dot(t, x, y);
    r := AggregateOps.Cosine(t, sqrt, dotProduct, normX, normY);
  }
}
