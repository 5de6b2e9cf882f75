/** The scalar fallback element-wise kernels that work in place
    (`generic_fallback_vector_x_value` and `generic_fallback_vector_x_vector`):
    `arr[i] = op(arr[i], value)` or `x[i] = op(x[i], y[i])`, eight slots per
    pass over the first `len - len % 8` and then one slot at a time. Each slot
    is rewritten exactly once from its own old value, so the result is the
    element-wise map of the old contents. */
module FallbackElementwise {
  import opened IntMath
  import opened ScalarOps
  import Arith

  /** The ops the value kernels are instantiated with: `M::add`, `M::sub`
      and `M::mul`. */
  predicate ValueOp(op: BinOp) {
    op.Add? || op.Sub? || op.Mul?
  }

  /** The ops the vertical wrappers pass to `f32_op_vertical`. */
  predicate VerticalOp(op: BinOp) {
    op.Add? || op.Sub? || op.Mul? || op.Div?
  }

  // ---------------------------------------------------------- vector x value

  /** One eight-wide pass of `generic_xany_fallback_{mul,add,sub}_impl`: the
      eight slots from `i` read, then written as `op(x_k, value)`. */
  method ValueBlock(t: IntType, op: BinOp, arr: array<int>, value: int, i: nat)
    requires ValueOp(op) && i + 8 <= arr.Length
    modifies arr
    ensures forall j :: i <= j < i + 8 ==> arr[j] == Apply(t, op, old(arr[j]), value)
    ensures forall j :: 0 <= j < arr.Length && !(i <= j < i + 8) ==> arr[j] == old(arr[j])
  {
    var x1, x2, x3, x4 := arr[i], arr[i + 1], arr[i + 2], arr[i + 3];
    var x5, x6, x7, x8 := arr[i + 4], arr[i + 5], arr[i + 6], arr[i + 7];
    arr[i] := Apply(t, op, x1, value);
    arr[i + 1] := Apply(t, op, x2, value);
    arr[i + 2] := Apply(t, op, x3, value);
    arr[i + 3] := Apply(t, op, x4, value);
    arr[i + 4] := Apply(t, op, x5, value);
    arr[i + 5] := Apply(t, op, x6, value);
    arr[i + 6] := Apply(t, op, x7, value);
    arr[i + 7] := Apply(t, op, x8, value);
    forall j | i <= j < i + 8
      ensures arr[j] == Apply(t, op, old(arr[j]), value)
    {
      if j == i {} else if j == i + 1 {} else if j == i + 2 {} else if j == i + 3 {}
      else if j == i + 4 {} else if j == i + 5 {} else if j == i + 6 {} else {}
    }
  }

  /** The eight-wide loop over `0..end`. */
  method ValueBlocks(t: IntType, op: BinOp, arr: array<int>, value: int, end: nat)
    requires ValueOp(op) && end <= arr.Length && end % 8 == 0
    modifies arr
    ensures forall j :: 0 <= j < end ==> arr[j] == Apply(t, op, old(arr[j]), value)
    ensures forall j :: end <= j < arr.Length ==> arr[j] == old(arr[j])
  {
    var i := 0;
    while i < end
      invariant 0 <= i <= end && (end - i) % 8 == 0
      invariant forall j :: 0 <= j < i ==> arr[j] == Apply(t, op, old(arr[j]), value)
      invariant forall j :: i <= j < arr.Length ==> arr[j] == old(arr[j])
    {
      Arith.NextStep(i, end, 8);
      ValueBlock(t, op, arr, value, i);
      i := i + 8;
    }
  }

  /** The one-slot loop over `start..len`: `*x = op(*x, value)`. */
  method ValueTail(t: IntType, op: BinOp, arr: array<int>, value: int, start: nat)
    requires ValueOp(op) && start <= arr.Length
    modifies arr
    ensures forall j :: start <= j < arr.Length ==> arr[j] == Apply(t, op, old(arr[j]), value)
    ensures forall j :: 0 <= j < start ==> arr[j] == old(arr[j])
  {
    var i := start;
    while i < arr.Length
      invariant start <= i <= arr.Length
      invariant forall j :: start <= j < i ==> arr[j] == Apply(t, op, old(arr[j]), value)
      invariant forall j :: 0 <= j < start || i <= j < arr.Length ==> arr[j] == old(arr[j])
    {
      arr[i] := Apply(t, op, arr[i], value);
      i := i + 1;
    }
  }

  /** `generic_xany_fallback_{mul,add,sub}_impl`: the contents become the
      element-wise `op` of the old contents with `value`; the length is
      kept. */
  method ValueImpl(t: IntType, op: BinOp, arr: array<int>, value: int)
    requires ValueOp(op)
    modifies arr
    ensures arr[..] == Zip(t, op, old(arr[..]), Fill(arr.Length, value))
  {
    var len := arr.Length;
    var offsetFrom := len % 8;
    Arith.RoundDown(len, 8);
    ValueBlocks(t, op, arr, value, len - offsetFrom);
    ValueTail(t, op, arr, value, len - offsetFrom);
  }

  /** `generic_xany_fallback_nofma_mul_value`. */
  method MulValue(t: IntType, arr: array<int>, multiplier: int)
    modifies arr
    ensures forall j :: 0 <= j < arr.Length ==> arr[j] == IntMath.Mul(t, old(arr[j]), multiplier)
  {
    ValueImpl(t, BinOp.Mul, arr, multiplier);
  }

  /** `generic_xany_fallback_nofma_add_value`. */
  method AddValue(t: IntType, arr: array<int>, value: int)
    modifies arr
    ensures forall j :: 0 <= j < arr.Length ==> arr[j] == IntMath.Add(t, old(arr[j]), value)
  {
    ValueImpl(t, BinOp.Add, arr, value);
  }

  /** `generic_xany_fallback_nofma_sub_value`. */
  method SubValue(t: IntType, arr: array<int>, value: int)
    modifies arr
    ensures forall j :: 0 <= j < arr.Length ==> arr[j] == IntMath.Sub(t, old(arr[j]), value)
  {
    ValueImpl(t, BinOp.Sub, arr, value);
  }

  /** `generic_xany_fallback_nofma_div_value`: multiplication by
      `div(one, divider)`. `panicked` is the integer division by a zero
      divider, which happens before any slot is written. */
  method DivValue(t: IntType, arr: array<int>, divider: int) returns (panicked: bool)
    modifies arr
    ensures panicked <==> divider == 0
    ensures panicked ==> arr[..] == old(arr[..])
    ensures !panicked ==> arr[..] == Zip(t, BinOp.Mul, old(arr[..]), Fill(arr.Length, IntMath.Div(t, One(t), divider)))
  {
    if divider == 0 {
      return true;
    }
    panicked := false;
    ValueImpl(t, BinOp.Mul, arr, IntMath.Div(t, One(t), divider));
  }

  /** For integers the reciprocal truncates: `div(one, d)` is zero for a
      divider of magnitude above one and one for a divider of one. */
  lemma Reciprocal(t: IntType, divider: int)
    requires divider != 0
    ensures (divider > 1 || divider < -1) ==> IntMath.Div(t, One(t), divider) == 0
    ensures divider == 1 ==> IntMath.Div(t, One(t), divider) == 1
  {
    var nb := if divider < 0 then -divider else divider;
    if nb > 1 {
      assert 1 / nb == 0;
      assert TruncDiv(1, divider) == 0;
    } else if divider == 1 {
      assert TruncDiv(1, divider) == 1;
    }
  }

  /** So dividing by a divider of magnitude above one turns every element
      into zero, and dividing by one leaves every element as it was. */
  lemma DivValueByReciprocal(t: IntType, s: seq<int>, divider: int)
    requires divider != 0 && AllInRange(t, s)
    ensures (divider > 1 || divider < -1) ==> Zip(t, BinOp.Mul, s, Fill(|s|, IntMath.Div(t, One(t), divider))) == Fill(|s|, 0)
    ensures divider == 1 ==> Zip(t, BinOp.Mul, s, Fill(|s|, IntMath.Div(t, One(t), divider))) == s
  {
    var r := IntMath.Div(t, One(t), divider);
    var z := Zip(t, BinOp.Mul, s, Fill(|s|, r));
    Reciprocal(t, divider);
    if divider > 1 || divider < -1 {
      forall j | 0 <= j < |s| ensures z[j] == 0 {
        assert z[j] == IntMath.Mul(t, s[j], 0);
      }
    } else if divider == 1 {
      forall j | 0 <= j < |s| ensures z[j] == s[j] {
        assert z[j] == IntMath.Mul(t, s[j], 1);
      }
    }
  }

  /** Subtracting what was added gives back every element: `sub_value`
      undoes `add_value`. */
  lemma SubValueUndoesAddValue(t: IntType, s: seq<int>, value: int)
    requires AllInRange(t, s)
    ensures Zip(t, BinOp.Sub, Zip(t, BinOp.Add, s, Fill(|s|, value)), Fill(|s|, value)) == s
  {
    var added := Zip(t, BinOp.Add, s, Fill(|s|, value));
    var z := Zip(t, BinOp.Sub, added, Fill(|s|, value));
    forall j | 0 <= j < |s| ensures z[j] == s[j] {
      SubUndoesAdd(t, s[j], value);
    }
  }

  /** `sub(add(a, v), v) == a` in every type. */
  lemma SubUndoesAdd(t: IntType, a: int, v: int)
    requires InRange(t, a)
    ensures IntMath.Sub(t, IntMath.Add(t, a, v), v) == a
  {
    WrapAddLeft(t, a + v, -v);
    assert a + v + -v == a;
  }

  // --------------------------------------------------------- vector x vector

  /** One eight-wide pass of `f32_op_vertical`: eight slots of `x` and of
      `y` read, then `x[j] = op(x_k, y_k)`. */
  method OpBlock(t: IntType, op: BinOp, x: array<int>, y: array<int>, i: nat)
    requires VerticalOp(op) && x != y && x.Length == y.Length && i + 8 <= x.Length
    requires forall j :: 0 <= j < y.Length ==> Defined(op, y[j])
    modifies x
    ensures forall j :: i <= j < i + 8 ==> x[j] == Apply(t, op, old(x[j]), y[j])
    ensures forall j :: 0 <= j < x.Length && !(i <= j < i + 8) ==> x[j] == old(x[j])
  {
    var x1, x2, x3, x4 := x[i], x[i + 1], x[i + 2], x[i + 3];
    var x5, x6, x7, x8 := x[i + 4], x[i + 5], x[i + 6], x[i + 7];
    var y1, y2, y3, y4 := y[i], y[i + 1], y[i + 2], y[i + 3];
    var y5, y6, y7, y8 := y[i + 4], y[i + 5], y[i + 6], y[i + 7];
    x[i] := Apply(t, op, x1, y1);
    x[i + 1] := Apply(t, op, x2, y2);
    x[i + 2] := Apply(t, op, x3, y3);
    x[i + 3] := Apply(t, op, x4, y4);
    x[i + 4] := Apply(t, op, x5, y5);
    x[i + 5] := Apply(t, op, x6, y6);
    x[i + 6] := Apply(t, op, x7, y7);
    x[i + 7] := Apply(t, op, x8, y8);
    forall j | i <= j < i + 8
      ensures x[j] == Apply(t, op, old(x[j]), y[j])
    {
      if j == i {} else if j == i + 1 {} else if j == i + 2 {} else if j == i + 3 {}
      else if j == i + 4 {} else if j == i + 5 {} else if j == i + 6 {} else {}
    }
  }

  /** The eight-wide loop of `f32_op_vertical` over `0..end`. */
  method OpBlocks(t: IntType, op: BinOp, x: array<int>, y: array<int>, end: nat)
    requires VerticalOp(op) && x != y && x.Length == y.Length && end <= x.Length && end % 8 == 0
    requires forall j :: 0 <= j < y.Length ==> Defined(op, y[j])
    modifies x
    ensures forall j :: 0 <= j < end ==> x[j] == Apply(t, op, old(x[j]), y[j])
    ensures forall j :: end <= j < x.Length ==> x[j] == old(x[j])
  {
    var i := 0;
    while i < end
      invariant 0 <= i <= end && (end - i) % 8 == 0
      invariant forall j :: 0 <= j < i ==> x[j] == Apply(t, op, old(x[j]), y[j])
      invariant forall j :: i <= j < x.Length ==> x[j] == old(x[j])
    {
      Arith.NextStep(i, end, 8);
      OpBlock(t, op, x, y, i);
      i := i + 8;
    }
  }

  /** The one-slot loop of `f32_op_vertical` over `start..len`. */
  method OpTail(t: IntType, op: BinOp, x: array<int>, y: array<int>, start: nat)
    requires VerticalOp(op) && x != y && x.Length == y.Length && start <= x.Length
    requires forall j :: 0 <= j < y.Length ==> Defined(op, y[j])
    modifies x
    ensures forall j :: start <= j < x.Length ==> x[j] == Apply(t, op, old(x[j]), y[j])
    ensures forall j :: 0 <= j < start ==> x[j] == old(x[j])
  {
    var i := start;
    while i < x.Length
      invariant start <= i <= x.Length
      invariant forall j :: start <= j < i ==> x[j] == Apply(t, op, old(x[j]), y[j])
      invariant forall j :: 0 <= j < start || i <= j < x.Length ==> x[j] == old(x[j])
    {
      x[i] := Apply(t, op, x[i], y[i]);
      i := i + 1;
    }
  }

  /** `f32_op_vertical` (generic despite its name): `x` becomes the
      element-wise `op` of its old contents with `y`, and `y` is left as it
      was. Both have the same length. */
  method OpVertical(t: IntType, op: BinOp, x: array<int>, y: array<int>)
    requires VerticalOp(op) && x != y && x.Length == y.Length
    requires AllDefined(op, y[..])
    modifies x
    ensures x[..] == Zip(t, op, old(x[..]), y[..])
    ensures y[..] == old(y[..])
  {
    assert forall j :: 0 <= j < y.Length ==> Defined(op, y[j]) by {
      forall j | 0 <= j < y.Length ensures Defined(op, y[j]) { assert y[..][j] == y[j]; }
    }
    var len := x.Length;
    var offsetFrom := len % 8;
    Arith.RoundDown(len, 8);
    OpBlocks(t, op, x, y, len - offsetFrom);
    OpTail(t, op, x, y, len - offsetFrom);
  }

  /** `generic_xany_fallback_nofma_div_vertical`: `f32_op_vertical` with `div`. */
  method DivVertical(t: IntType, x: array<int>, y: array<int>)
    requires x != y && x.Length == y.Length && forall j :: 0 <= j < y.Length ==> y[j] != 0
    modifies x
    ensures forall j :: 0 <= j < x.Length ==> x[j] == IntMath.Div(t, old(x[j]), y[j])
  {
    assert AllDefined(BinOp.Div, y[..]);
    OpVertical(t, BinOp.Div, x, y);
  }

  /** `generic_xany_fallback_nofma_mul_vertical`: with `mul`. */
  method MulVertical(t: IntType, x: array<int>, y: array<int>)
    requires x != y && x.Length == y.Length
    modifies x
    ensures forall j :: 0 <= j < x.Length ==> x[j] == IntMath.Mul(t, old(x[j]), y[j])
  {
    OpVertical(t, BinOp.Mul, x, y);
  }

  /** `generic_xany_fallback_nofma_add_vertical`: with `add`. */
  method AddVertical(t: IntType, x: array<int>, y: array<int>)
    requires x != y && x.Length == y.Length
    modifies x
    ensures forall j :: 0 <= j < x.Length ==> x[j] == IntMath.Add(t, old(x[j]), y[j])
  {
    OpVertical(t, BinOp.Add, x, y);
  }

  /** `generic_xany_fallback_nofma_sub_vertical`: with `sub`, so it
      subtracts whatever its comment's `x[i] + y[i]` says. */
  method SubVertical(t: IntType, x: array<int>, y: array<int>)
    requires x != y && x.Length == y.Length
    modifies x
    ensures forall j :: 0 <= j < x.Length ==> x[j] == IntMath.Sub(t, old(x[j]), y[j])
  {
    OpVertical(t, BinOp.Sub, x, y);
  }

  /** `sub_vertical` with the same `y` undoes `add_vertical`. */
  lemma SubVerticalUndoesAddVertical(t: IntType, xs: seq<int>, ys: seq<int>)
    requires |xs| == |ys| && AllInRange(t, xs)
    ensures Zip(t, BinOp.Sub, Zip(t, BinOp.Add, xs, ys), ys) == xs
  {
    var z := Zip(t, BinOp.Sub, Zip(t, BinOp.Add, xs, ys), ys);
    forall j | 0 <= j < |xs| ensures z[j] == xs[j] {
      SubUndoesAdd(t, xs[j], ys[j]);
    }
  }
}
