/** The scalar operations a kernel is instantiated with (`single_kernel`),
    named once so that registers and dense lanes can apply them lane by lane.
    The arithmetic and min/max ops are the `Math` trait's; the comparison
    masks use `cmp_eq`, the added `cmp_lt`/`cmp_lte`/`cmp_gt`/`cmp_gte` and
    `cast_bool`, so a mask entry is `one()` where the comparison holds and
    `zero()` where it does not. */
module ScalarOps {
  import opened IntMath

  datatype BinOp = Add | Sub | Mul | Div | Max | Min | Eq | Neq | Lt | Lte | Gt | Gte

  /** The comparison ops, whose results are masks. */
  predicate IsMask(op: BinOp) {
    op.Eq? || op.Neq? || op.Lt? || op.Lte? || op.Gt? || op.Gte?
  }

  /** The only operand an op cannot take: a zero divisor (`wrapping_div` panics). */
  predicate Defined(op: BinOp, y: int) {
    op.Div? ==> y != 0
  }

  /** `op(x, y)` with `x` on the left, as every kernel calls its `single_kernel`. */
  function Apply(t: IntType, op: BinOp, x: int, y: int): (r: int)
    requires Defined(op, y)
    ensures InRange(t, x) && InRange(t, y) ==> InRange(t, r)
  {
    match op
    case Add => IntMath.Add(t, x, y)
    case Sub => IntMath.Sub(t, x, y)
    case Mul => IntMath.Mul(t, x, y)
    case Div => IntMath.Div(t, x, y)
    case Max => CmpMax(x, y)
    case Min => CmpMin(x, y)
    case Eq => CastBool(t, CmpEq(x, y))
    case Neq => CastBool(t, !CmpEq(x, y))
    case Lt => CastBool(t, x < y)
    case Lte => CastBool(t, x <= y)
    case Gt => CastBool(t, x > y)
    case Gte => CastBool(t, x >= y)
  }

  /** Every operand of `ys` can be used as the right-hand side of `op`. */
  predicate AllDefined(op: BinOp, ys: seq<int>) {
    op.Div? ==> forall i :: 0 <= i < |ys| ==> ys[i] != 0
  }

  /** A register-wide or buffer-wide op: `op` applied lane by lane. */
  function Zip(t: IntType, op: BinOp, xs: seq<int>, ys: seq<int>): (r: seq<int>)
    requires |xs| == |ys| && AllDefined(op, ys)
    ensures |r| == |xs|
    ensures forall i :: 0 <= i < |xs| ==> r[i] == Apply(t, op, xs[i], ys[i])
    ensures AllInRange(t, xs) && AllInRange(t, ys) ==> AllInRange(t, r)
  {
    seq(|xs|, i requires 0 <= i < |xs| => Apply(t, op, xs[i], ys[i]))
  }

  /** `n` copies of one value: a broadcast scalar, `filled(v)` on a register. */
  function Fill(n: nat, v: int): (r: seq<int>)
    ensures |r| == n && forall i :: 0 <= i < n ==> r[i] == v
  {
    seq(n, _ => v)
  }

  /** Comparison masks hold only `one()` or `zero()`; each holds exactly
      when the comparison does, with the left operand first. */
  lemma MaskSpec(t: IntType, op: BinOp, x: int, y: int)
    requires IsMask(op)
    ensures Apply(t, op, x, y) == 0 || Apply(t, op, x, y) == 1
    ensures op.Eq? ==> (Apply(t, op, x, y) == 1 <==> x == y)
    ensures op.Lt? ==> (Apply(t, op, x, y) == 1 <==> x < y)
    ensures op.Lte? ==> (Apply(t, op, x, y) == 1 <==> x <= y)
    ensures op.Gt? ==> (Apply(t, op, x, y) == 1 <==> x > y)
    ensures op.Gte? ==> (Apply(t, op, x, y) == 1 <==> x >= y)
  {
  }

  /** `neq`, `gte` and `gt` are the complements of `eq`, `lt` and `lte`. */
  lemma MaskComplements(t: IntType, x: int, y: int)
    ensures Apply(t, Neq, x, y) == 1 - Apply(t, Eq, x, y)
    ensures Apply(t, Gte, x, y) == 1 - Apply(t, Lt, x, y)
    ensures Apply(t, Gt, x, y) == 1 - Apply(t, Lte, x, y)
  {
  }

  /** Zipping commutes with concatenation: an op over a buffer is the op over
      each of its pieces. */
  lemma ZipConcat(t: IntType, op: BinOp, x1: seq<int>, x2: seq<int>, y1: seq<int>, y2: seq<int>)
    requires |x1| == |y1| && |x2| == |y2| && AllDefined(op, y1) && AllDefined(op, y2)
    ensures AllDefined(op, y1 + y2)
    ensures Zip(t, op, x1 + x2, y1 + y2) == Zip(t, op, x1, y1) + Zip(t, op, x2, y2)
  {
    assert AllDefined(op, y1 + y2) by {
      forall i | 0 <= i < |y1 + y2| ensures Defined(op, (y1 + y2)[i]) {
        if i >= |y1| { assert (y1 + y2)[i] == y2[i - |y1|]; }
      }
    }
  }

  /** Zipping commutes with slicing. */
  lemma ZipSlice(t: IntType, op: BinOp, xs: seq<int>, ys: seq<int>, i: nat, j: nat)
    requires |xs| == |ys| && AllDefined(op, ys) && i <= j <= |xs|
    ensures AllDefined(op, ys[i..j])
    ensures Zip(t, op, xs, ys)[i..j] == Zip(t, op, xs[i..j], ys[i..j])
  {
  }
}
