/** The public generic functions (`cfavml::dot`, `cfavml::max_vertical`,
    ...): each forwards to the trait method of its element type. The
    horizontal ones take slices and panic when two inputs differ in length;
    the vertical ones take two loader operands (a slice or a broadcast
    value) and a result buffer, and panic when an operand cannot be
    projected onto the result's length. */
module SafeFunctionOps {
  import opened Wrappers
  import opened IntMath
  import opened ScalarOps
  import opened Monoids
  import opened Buffer
  import opened MemLoader
  import opened Dispatch
  import AggregateOps
  import MaxMinOps
  import ArithmeticVerticalOps
  import CmpVerticalOps
  import SafeTraitOps

  // ---------------------------------------------------------- horizontal

  /** `cosine(a, b)`: panics (`None`) when the lengths differ or, for
      integers, when the root it divides by is zero; otherwise zero when
      both norms are zero, one when exactly one is, and
      `1 - dot / sqrt(norm_a * norm_b)` otherwise. */
  method Cosine(target: Target, t: IntType, sqrt: int -> int, a: seq<int>, b: seq<int>) returns (r: Option<int>)
    requires AllInRange(t, a) && AllInRange(t, b)
    ensures |a| != |b| ==> r.None?
    ensures |a| == |b| ==> r == AggregateOps.Cosine(t, sqrt,
      Wrap(t, Monoids.Sum(AggregateOps.Products(a, b))), Wrap(t, Monoids.Sum(AggregateOps.Products(a, a))), Wrap(t, Monoids.Sum(AggregateOps.Products(b, b))))
  {
    r := SafeTraitOps.Cosine(target, t, sqrt, |a|, a, b);
  }

  /** `dot(a, b)`: panics when the lengths differ; otherwise the sum of the
      products, wrapped once. */
  method Dot(target: Target, t: IntType, a: seq<int>, b: seq<int>) returns (r: Option<int>)
    requires AllInRange(t, a)
    ensures r.None? <==> |a| != |b|
    ensures r.Some? ==> r.value == Wrap(t, Monoids.Sum(AggregateOps.Products(a, b)))
  {
    r := SafeTraitOps.Dot(target, t, |a|, a, b);
  }

  /** `squared_euclidean(a, b)`: panics when the lengths differ; otherwise
      the sum of the squared differences, wrapped once. */
  method SquaredEuclidean(target: Target, t: IntType, a: seq<int>, b: seq<int>) returns (r: Option<int>)
    requires AllInRange(t, a)
    ensures r.None? <==> |a| != |b|
    ensures r.Some? ==> r.value == Wrap(t, Monoids.Sum(AggregateOps.SquaredDiffs(a, b)))
  {
    r := SafeTraitOps.SquaredEuclidean(target, t, |a|, a, b);
  }

  /** `squared_norm(a)`: the sum of the squares, wrapped once; it cannot
      panic. */
  method SquaredNorm(target: Target, t: IntType, a: seq<int>) returns (norm: int)
    requires AllInRange(t, a)
    ensures norm == Wrap(t, Monoids.Sum(AggregateOps.Products(a, a)))
  {
    var r := SafeTraitOps.SquaredNorm(target, t, |a|, a);
    norm := r.value;
  }

  /** `sum(a)`: the sum of the elements, wrapped once; zero when empty. */
  method Sum(target: Target, t: IntType, a: seq<int>) returns (total: int)
    requires AllInRange(t, a)
    ensures total == Wrap(t, Monoids.Sum(a))
    ensures |a| == 0 ==> total == 0
  {
    var r := SafeTraitOps.Sum(target, t, |a|, a);
    total := r.value;
  }

  /** `max(a)`: the largest element, and `T::MIN` for an empty input. */
  method Max(target: Target, t: IntType, a: seq<int>) returns (max: int)
    requires AllInRange(t, a)
    ensures forall i :: 0 <= i < |a| ==> a[i] <= max
    ensures |a| > 0 ==> max in a
    ensures |a| == 0 ==> max == IntMath.Min(t)
  {
    var r := SafeTraitOps.Max(target, t, |a|, a);
    max := r.value;
  }

  /** `min(a)`: the smallest element, and `T::MAX` for an empty input. */
  method Min(target: Target, t: IntType, a: seq<int>) returns (min: int)
    requires AllInRange(t, a)
    ensures forall i :: 0 <= i < |a| ==> min <= a[i]
    ensures |a| > 0 ==> min in a
    ensures |a| == 0 ==> min == IntMath.Max(t)
  {
    var r := SafeTraitOps.Min(target, t, |a|, a);
    min := r.value;
  }

  // ------------------------------------------------------------ vertical

  /** The lane count the vertical trait methods dispatch to. */
  function VerticalLanes(target: Target, t: IntType): (lanes: nat)
    ensures lanes >= 1
  {
    SafeTraitOps.KernelLanes(target, NoFmaArms, t)
  }

  /** Both operands of a vertical op project onto the result's length. */
  predicate Fits(a: Operand, b: Operand, n: nat) {
    Projectable(a, n) && Projectable(b, n)
  }

  /** `max_vertical(lhs, rhs, result)`: each slot is the larger of the two
      inputs there. */
  method MaxVertical(target: Target, t: IntType, lhs: Operand, rhs: Operand, result: WriteOnlyBuffer)
    returns (panicked: bool)
    requires result.Valid()
    modifies result.buf, result`writes
    ensures result.Valid()
    ensures panicked <==> !Fits(lhs, rhs, result.RawBufferLen())
    ensures panicked ==> result.buf[..] == old(result.buf[..])
    ensures !panicked ==> var n := result.RawBufferLen(); forall i :: 0 <= i < n ==>
      var x, y := Elements(lhs, n)[i], Elements(rhs, n)[i];
      x <= result.buf[i] && y <= result.buf[i] && (result.buf[i] == x || result.buf[i] == y)
  {
    panicked := MaxMinOps.CmpMaxVertical(t, VerticalLanes(target, t), lhs, rhs, result);
  }

  /** `min_vertical(lhs, rhs, result)`: each slot is the smaller of the two
      inputs there. */
  method MinVertical(target: Target, t: IntType, lhs: Operand, rhs: Operand, result: WriteOnlyBuffer)
    returns (panicked: bool)
    requires result.Valid()
    modifies result.buf, result`writes
    ensures result.Valid()
    ensures panicked <==> !Fits(lhs, rhs, result.RawBufferLen())
    ensures panicked ==> result.buf[..] == old(result.buf[..])
    ensures !panicked ==> var n := result.RawBufferLen(); forall i :: 0 <= i < n ==>
      var x, y := Elements(lhs, n)[i], Elements(rhs, n)[i];
      result.buf[i] <= x && result.buf[i] <= y && (result.buf[i] == x || result.buf[i] == y)
  {
    panicked := MaxMinOps.CmpMinVertical(t, VerticalLanes(target, t), lhs, rhs, result);
  }

  /** `eq_vertical(lhs, rhs, result)`: a 1/0 mask, one exactly where the two
      inputs are equal. */
  method EqVertical(target: Target, t: IntType, lhs: Operand, rhs: Operand, result: WriteOnlyBuffer)
    returns (panicked: bool)
    requires result.Valid()
    modifies result.buf, result`writes
    ensures result.Valid()
    ensures panicked <==> !Fits(lhs, rhs, result.RawBufferLen())
    ensures panicked ==> result.buf[..] == old(result.buf[..])
    ensures !panicked ==> var n := result.RawBufferLen(); forall i :: 0 <= i < n ==>
      result.buf[i] in {0, 1} && (result.buf[i] == 1 <==> Elements(lhs, n)[i] == Elements(rhs, n)[i])
  {
    panicked := CmpVerticalOps.EqVertical(t, VerticalLanes(target, t), lhs, rhs, result);
  }

  /** `neq_vertical(lhs, rhs, result)`: one exactly where the inputs differ. */
  method NeqVertical(target: Target, t: IntType, lhs: Operand, rhs: Operand, result: WriteOnlyBuffer)
    returns (panicked: bool)
    requires result.Valid()
    modifies result.buf, result`writes
    ensures result.Valid()
    ensures panicked <==> !Fits(lhs, rhs, result.RawBufferLen())
    ensures panicked ==> result.buf[..] == old(result.buf[..])
    ensures !panicked ==> var n := result.RawBufferLen(); forall i :: 0 <= i < n ==>
      result.buf[i] in {0, 1} && (result.buf[i] == 1 <==> Elements(lhs, n)[i] != Elements(rhs, n)[i])
  {
    panicked := CmpVerticalOps.NeqVertical(t, VerticalLanes(target, t), lhs, rhs, result);
  }

  /** `lt_vertical(lhs, rhs, result)`: one exactly where `lhs < rhs`. */
  method LtVertical(target: Target, t: IntType, lhs: Operand, rhs: Operand, result: WriteOnlyBuffer)
    returns (panicked: bool)
    requires result.Valid()
    modifies result.buf, result`writes
    ensures result.Valid()
    ensures panicked <==> !Fits(lhs, rhs, result.RawBufferLen())
    ensures panicked ==> result.buf[..] == old(result.buf[..])
    ensures !panicked ==> var n := result.RawBufferLen(); forall i :: 0 <= i < n ==>
      result.buf[i] in {0, 1} && (result.buf[i] == 1 <==> Elements(lhs, n)[i] < Elements(rhs, n)[i])
  {
    panicked := CmpVerticalOps.LtVertical(t, VerticalLanes(target, t), lhs, rhs, result);
  }

  /** `lte_vertical(lhs, rhs, result)`: one exactly where `lhs <= rhs`. */
  method LteVertical(target: Target, t: IntType, lhs: Operand, rhs: Operand, result: WriteOnlyBuffer)
    returns (panicked: bool)
    requires result.Valid()
    modifies result.buf, result`writes
    ensures result.Valid()
    ensures panicked <==> !Fits(lhs, rhs, result.RawBufferLen())
    ensures panicked ==> result.buf[..] == old(result.buf[..])
    ensures !panicked ==> var n := result.RawBufferLen(); forall i :: 0 <= i < n ==>
      result.buf[i] in {0, 1} && (result.buf[i] == 1 <==> Elements(lhs, n)[i] <= Elements(rhs, n)[i])
  {
    panicked := CmpVerticalOps.LteVertical(t, VerticalLanes(target, t), lhs, rhs, result);
  }

  /** `gt_vertical(lhs, rhs, result)`: one exactly where `lhs > rhs`. */
  method GtVertical(target: Target, t: IntType, lhs: Operand, rhs: Operand, result: WriteOnlyBuffer)
    returns (panicked: bool)
    requires result.Valid()
    modifies result.buf, result`writes
    ensures result.Valid()
    ensures panicked <==> !Fits(lhs, rhs, result.RawBufferLen())
    ensures panicked ==> result.buf[..] == old(result.buf[..])
    ensures !panicked ==> var n := result.RawBufferLen(); forall i :: 0 <= i < n ==>
      result.buf[i] in {0, 1} && (result.buf[i] == 1 <==> Elements(lhs, n)[i] > Elements(rhs, n)[i])
  {
    panicked := CmpVerticalOps.GtVertical(t, VerticalLanes(target, t), lhs, rhs, result);
  }

  /** `gte_vertical(lhs, rhs, result)`: one exactly where `lhs >= rhs`. */
  method GteVertical(target: Target, t: IntType, lhs: Operand, rhs: Operand, result: WriteOnlyBuffer)
    returns (panicked: bool)
    requires result.Valid()
    modifies result.buf, result`writes
    ensures result.Valid()
    ensures panicked <==> !Fits(lhs, rhs, result.RawBufferLen())
    ensures panicked ==> result.buf[..] == old(result.buf[..])
    ensures !panicked ==> var n := result.RawBufferLen(); forall i :: 0 <= i < n ==>
      result.buf[i] in {0, 1} && (result.buf[i] == 1 <==> Elements(lhs, n)[i] >= Elements(rhs, n)[i])
  {
    panicked := CmpVerticalOps.GteVertical(t, VerticalLanes(target, t), lhs, rhs, result);
  }

  /** `add_vertical(lhs, rhs, result)`: the wrapping sum in every slot. */
  method AddVertical(target: Target, t: IntType, lhs: Operand, rhs: Operand, result: WriteOnlyBuffer)
    returns (panicked: bool)
    requires result.Valid()
    modifies result.buf, result`writes
    ensures result.Valid()
    ensures panicked <==> !Fits(lhs, rhs, result.RawBufferLen())
    ensures panicked ==> result.buf[..] == old(result.buf[..])
    ensures !panicked ==> var n := result.RawBufferLen(); forall i :: 0 <= i < n ==>
      result.buf[i] == Wrap(t, Elements(lhs, n)[i] + Elements(rhs, n)[i])
  {
    panicked := ArithmeticVerticalOps.AddVertical(t, VerticalLanes(target, t), lhs, rhs, result);
  }

  /** `sub_vertical(lhs, rhs, result)`: the wrapping difference `lhs - rhs`. */
  method SubVertical(target: Target, t: IntType, lhs: Operand, rhs: Operand, result: WriteOnlyBuffer)
    returns (panicked: bool)
    requires result.Valid()
    modifies result.buf, result`writes
    ensures result.Valid()
    ensures panicked <==> !Fits(lhs, rhs, result.RawBufferLen())
    ensures panicked ==> result.buf[..] == old(result.buf[..])
    ensures !panicked ==> var n := result.RawBufferLen(); forall i :: 0 <= i < n ==>
      result.buf[i] == Wrap(t, Elements(lhs, n)[i] - Elements(rhs, n)[i])
  {
    panicked := ArithmeticVerticalOps.SubVertical(t, VerticalLanes(target, t), lhs, rhs, result);
  }

  /** `mul_vertical(lhs, rhs, result)`: the wrapping product. */
  method MulVertical(target: Target, t: IntType, lhs: Operand, rhs: Operand, result: WriteOnlyBuffer)
    returns (panicked: bool)
    requires result.Valid()
    modifies result.buf, result`writes
    ensures result.Valid()
    ensures panicked <==> !Fits(lhs, rhs, result.RawBufferLen())
    ensures panicked ==> result.buf[..] == old(result.buf[..])
    ensures !panicked ==> var n := result.RawBufferLen(); forall i :: 0 <= i < n ==>
      result.buf[i] == Wrap(t, Elements(lhs, n)[i] * Elements(rhs, n)[i])
  {
    panicked := ArithmeticVerticalOps.MulVertical(t, VerticalLanes(target, t), lhs, rhs, result);
  }

  /** `div_vertical(lhs, rhs, result)`: the wrapping division `lhs / rhs`,
      truncated toward zero; a zero divisor is the caller's error. */
  method DivVertical(target: Target, t: IntType, lhs: Operand, rhs: Operand, result: WriteOnlyBuffer)
    returns (panicked: bool)
    requires result.Valid()
    requires var n := result.RawBufferLen(); Projectable(rhs, n) ==> forall i :: 0 <= i < n ==> Elements(rhs, n)[i] != 0
    modifies result.buf, result`writes
    ensures result.Valid()
    ensures panicked <==> !Fits(lhs, rhs, result.RawBufferLen())
    ensures panicked ==> result.buf[..] == old(result.buf[..])
    ensures !panicked ==> var n := result.RawBufferLen(); forall i :: 0 <= i < n ==>
      result.buf[i] == IntMath.Div(t, Elements(lhs, n)[i], Elements(rhs, n)[i])
  {
    panicked := ArithmeticVerticalOps.DivVertical(t, VerticalLanes(target, t), lhs, rhs, result);
  }

  // ---------------------------------------------------------- properties

  /** A broadcast value is stretched to the result's length, so two
      broadcast values fill every slot with the one value `op(x, y)`. */
  lemma BroadcastFillsEverySlot(t: IntType, op: BinOp, x: int, y: int, n: nat)
    requires Defined(op, y)
    ensures Fits(Scalar(x), Scalar(y), n)
    ensures Zip(t, op, Elements(Scalar(x), n), Elements(Scalar(y), n)) == Fill(n, Apply(t, op, x, y))
  {
  }

  /** The documented broadcast example: `add_vertical(5, 5)` into a buffer
      of four gives four tens, for every integer type. */
  lemma AddVerticalBroadcastExample(t: IntType)
    ensures Zip(t, BinOp.Add, Elements(Scalar(5), 4), Elements(Scalar(5), 4)) == [10, 10, 10, 10]
  {
    BroadcastFillsEverySlot(t, BinOp.Add, 5, 5, 4);
    assert InRange(t, 10);
  }

  /** Two slices cannot be stretched: they fit a result exactly when both
      have its length; a broadcast value fits any result. */
  lemma SliceFitsOnlyItsOwnLength(a: seq<int>, b: seq<int>, y: int, n: nat)
    ensures Fits(Slice(a), Slice(b), n) <==> |a| == n && |b| == n
    ensures Fits(Slice(a), Scalar(y), n) <==> |a| == n
  {
  }

  /** Comparison results are 1/0 masks in the element type. */
  lemma MasksAreZeroOrOne(t: IntType, op: BinOp, xs: seq<int>, ys: seq<int>)
    requires op in {BinOp.Eq, BinOp.Neq, BinOp.Lt, BinOp.Lte, BinOp.Gt, BinOp.Gte}
    requires |xs| == |ys|
    ensures forall i :: 0 <= i < |xs| ==> Zip(t, op, xs, ys)[i] in {0, 1}
  {
  }

  /** The documented default of `max` and `min` on an empty input:
      `T::MIN` and `T::MAX`, the identities of the two folds. */
  lemma EmptyMaxMin(t: IntType)
    ensures Fold(t, MaxM, []) == IntMath.Min(t)
    ensures Fold(t, MinM, []) == IntMath.Max(t)
  {
  }
}
