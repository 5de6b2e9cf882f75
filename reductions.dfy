/** The horizontal three-phase kernels of `op_sum`, `op_max`, `op_min`,
    `op_norm`, `op_euclidean` and the dot product `op_cosine` calls: a dense
    accumulator of `8 * L` lanes, reduced by `*_to_register` to one
    register, reduced by `*_to_value` to a scalar, which the tail finishes.
    Each kernel adds one term per index (`a[i]`, `a[i]^2`,
    `(a[i] - b[i])^2` or `a[i] * b[i]`) into one of the three monoids;
    whatever the grouping of the phases, the result is the sequential fold
    of the terms. */
module Reductions {
  import opened IntMath
  import opened ScalarOps
  import opened Monoids
  import opened SimdApi
  import Arith

  datatype Kernel = SumK | MaxK | MinK | NormK | EuclidK | DotK

  /** The monoid a kernel accumulates in. */
  function MonoidOf(k: Kernel): Monoid {
    match k
    case MaxK => MaxM
    case MinK => MinM
    case _ => SumM
  }

  /** The term index `i` contributes, from `x = a[i]` and `y = b[i]`. */
  function Term(t: IntType, k: Kernel, x: int, y: int): int {
    match k
    case SumK | MaxK | MinK => x
    case NormK => IntMath.Mul(t, x, x)
    case EuclidK => IntMath.Mul(t, IntMath.Sub(t, x, y), IntMath.Sub(t, x, y))
    case DotK => IntMath.Mul(t, x, y)
  }

  function Terms(t: IntType, k: Kernel, a: seq<int>, b: seq<int>): (r: seq<int>)
    requires |a| == |b|
    ensures |r| == |a| && forall i :: 0 <= i < |a| ==> r[i] == Term(t, k, a[i], b[i])
  {
    seq(|a|, i requires 0 <= i < |a| => Term(t, k, a[i], b[i]))
  }

  /** What every horizontal kernel returns: the fold of its terms. */
  function Reduced(t: IntType, k: Kernel, a: seq<int>, b: seq<int>): int
    requires |a| == |b|
  {
    Fold(t, MonoidOf(k), Terms(t, k, a, b))
  }

  /** The seed of the dense accumulator: `zeroed_dense()` for the sums,
      `filled_dense(M::min())` for max and `filled_dense(M::max())` for min. */
  function Seed(t: IntType, k: Kernel, lanes: nat): (r: DenseLane<Register>)
    ensures Uniform(r, lanes)
    ensures Flatten(r) == Fill(ElementsPerDense(lanes), Identity(t, MonoidOf(k)))
  {
    FilledDenseFlatten(lanes, Identity(t, MonoidOf(k)));
    match k
    case MaxK => FilledDense(lanes, IntMath.Min(t))
    case MinK => FilledDense(lanes, IntMath.Max(t))
    case _ => ZeroedDense(t, lanes)
  }

  /** The dense step: `add_dense(sum, l1)`, `max_dense(max, l1)`,
      `min_dense(min, l1)`, `fmadd_dense(l1, l1, total)`, or
      `fmadd_dense(diff, diff, total)` with `diff = sub_dense(l1, l2)`. */
  function DenseStep(t: IntType, k: Kernel, acc: DenseLane<Register>, l1: DenseLane<Register>, l2: DenseLane<Register>): DenseLane<Register>
    requires SameShape(acc, l1) && SameShape(acc, l2)
  {
    match k
    case SumK => DenseOp(t, Add, acc, l1)
    case MaxK => DenseOp(t, Max, acc, l1)
    case MinK => DenseOp(t, Min, acc, l1)
    case NormK => FmAddDense(t, l1, l1, acc)
    case EuclidK =>
      var diff := DenseOp(t, Sub, l1, l2);
      FmAddDense(t, diff, diff, acc)
    case DotK => FmAddDense(t, l1, l2, acc)
  }

  /** The register step, the same ops on one register. */
  function RegStep(t: IntType, k: Kernel, acc: Register, l1: Register, l2: Register): (r: Register)
    requires |acc| == |l1| == |l2|
    ensures |r| == |acc|
  {
    match k
    case SumK => Zip(t, Add, acc, l1)
    case MaxK => Zip(t, Max, acc, l1)
    case MinK => Zip(t, Min, acc, l1)
    case NormK => FmAdd(t, l1, l1, acc)
    case EuclidK =>
      var diff := Zip(t, Sub, l1, l2);
      FmAdd(t, diff, diff, acc)
    case DotK => FmAdd(t, l1, l2, acc)
  }

  /** The scalar step of the tail: `M::add(sum, a)`, `M::cmp_max(max, a)`,
      `M::cmp_min(min, a)`, `M::add(total, M::mul(a, a))`, or
      `M::add(total, M::mul(diff, diff))` with `diff = M::sub(a, b)`. */
  function ScalarStep(t: IntType, k: Kernel, acc: int, x: int, y: int): int {
    match k
    case SumK => IntMath.Add(t, acc, x)
    case MaxK => CmpMax(acc, x)
    case MinK => CmpMin(acc, x)
    case NormK => IntMath.Add(t, acc, IntMath.Mul(t, x, x))
    case EuclidK =>
      var diff := IntMath.Sub(t, x, y);
      IntMath.Add(t, acc, IntMath.Mul(t, diff, diff))
    case DotK => IntMath.Add(t, acc, IntMath.Mul(t, x, y))
  }

  /** `sum_to_register`, `max_to_register` or `min_to_register`. */
  function ToReg(t: IntType, k: Kernel, acc: DenseLane<Register>): Register
    requires Uniform(acc, |acc.a|)
  {
    ToRegister(t, MonoidOf(k), acc)
  }

  // ------------------------------------------------------------ step lemmas

  /** Every term of in-range operands is in range. */
  lemma TermsInRange(t: IntType, k: Kernel, a: seq<int>, b: seq<int>)
    requires |a| == |b| && AllInRange(t, a)
    ensures AllInRange(t, Terms(t, k, a, b))
  {
  }

  /** The scalar step combines the accumulator with the next term. */
  lemma ScalarStepFold(t: IntType, k: Kernel, acc: int, x: int, y: int)
    ensures ScalarStep(t, k, acc, x, y) == Combine(t, MonoidOf(k), acc, Term(t, k, x, y))
  {
  }

  /** The register step combines the accumulator's fold with the fold of
      the terms of its two registers, and stays in range. */
  lemma RegStepFold(t: IntType, k: Kernel, acc: Register, l1: Register, l2: Register)
    requires |acc| == |l1| == |l2| && AllInRange(t, acc) && AllInRange(t, l1)
    ensures AllInRange(t, RegStep(t, k, acc, l1, l2))
    ensures Fold(t, MonoidOf(k), RegStep(t, k, acc, l1, l2))
         == Combine(t, MonoidOf(k), Fold(t, MonoidOf(k), acc), Fold(t, MonoidOf(k), Terms(t, k, l1, l2)))
  {
    var m, ts := MonoidOf(k), Terms(t, k, l1, l2);
    TermsInRange(t, k, l1, l2);
    match k
    case SumK | MaxK | MinK =>
      assert ts == l1;
      FoldPointwise(t, m, acc, l1);
    case NormK =>
      assert Zip(t, Mul, l1, l1) == ts;
      FoldPointwise(t, m, ts, acc);
      CombineComm(t, m, Fold(t, m, ts), Fold(t, m, acc));
    case EuclidK =>
      var diff := Zip(t, Sub, l1, l2);
      assert Zip(t, Mul, diff, diff) == ts;
      FoldPointwise(t, m, ts, acc);
      CombineComm(t, m, Fold(t, m, ts), Fold(t, m, acc));
    case DotK =>
      assert Zip(t, Mul, l1, l2) == ts;
      FoldPointwise(t, m, ts, acc);
      CombineComm(t, m, Fold(t, m, ts), Fold(t, m, acc));
  }

  /** The dense step is the register step over the flattened lanes. */
  lemma DenseStepFlatten(t: IntType, k: Kernel, lanes: nat, acc: DenseLane<Register>, l1: DenseLane<Register>, l2: DenseLane<Register>)
    requires Uniform(acc, lanes) && Uniform(l1, lanes) && Uniform(l2, lanes)
    ensures Uniform(DenseStep(t, k, acc, l1, l2), lanes)
    ensures Flatten(DenseStep(t, k, acc, l1, l2)) == RegStep(t, k, Flatten(acc), Flatten(l1), Flatten(l2))
  {
    FlattenLength(acc, lanes);
    FlattenLength(l1, lanes);
    FlattenLength(l2, lanes);
    if k.NormK? || k.EuclidK? || k.DotK? {
      FmAddStepFlatten(t, k, lanes, acc, l1, l2);
    } else {
      var op := OpOf(MonoidOf(k));
      assert DenseStep(t, k, acc, l1, l2) == DenseOp(t, op, acc, l1);
      assert RegStep(t, k, Flatten(acc), Flatten(l1), Flatten(l2)) == Zip(t, op, Flatten(acc), Flatten(l1));
      DenseOpFlatten(t, op, acc, l1);
    }
  }

  /** The dense step of the three `fmadd` kernels, over the flattened lanes. */
  lemma FmAddStepFlatten(t: IntType, k: Kernel, lanes: nat, acc: DenseLane<Register>, l1: DenseLane<Register>, l2: DenseLane<Register>)
    requires k.NormK? || k.EuclidK? || k.DotK?
    requires Uniform(acc, lanes) && Uniform(l1, lanes) && Uniform(l2, lanes)
    ensures Uniform(DenseStep(t, k, acc, l1, l2), lanes)
    ensures |Flatten(acc)| == |Flatten(l1)| == |Flatten(l2)|
    ensures Flatten(DenseStep(t, k, acc, l1, l2)) == RegStep(t, k, Flatten(acc), Flatten(l1), Flatten(l2))
  {
    FlattenLength(acc, lanes);
    FlattenLength(l1, lanes);
    FlattenLength(l2, lanes);
    if k.NormK? {
      FmAddDenseFlatten(t, l1, l1, acc);
    } else if k.DotK? {
      FmAddDenseFlatten(t, l1, l2, acc);
    } else {
      var diff := DenseOp(t, Sub, l1, l2);
      DenseOpFlatten(t, Sub, l1, l2);
      FmAddDenseFlatten(t, diff, diff, acc);
    }
  }

  /** Folding the terms up to `i` and then the window `[i, j)` is folding
      the terms up to `j`. */
  lemma FoldExtend(t: IntType, k: Kernel, a: seq<int>, b: seq<int>, i: nat, j: nat)
    requires |a| == |b| && AllInRange(t, a) && i <= j <= |a|
    ensures Fold(t, MonoidOf(k), Terms(t, k, a, b)[..j])
         == Combine(t, MonoidOf(k), Fold(t, MonoidOf(k), Terms(t, k, a, b)[..i]),
                                    Fold(t, MonoidOf(k), Terms(t, k, a[i..j], b[i..j])))
  {
    var ts := Terms(t, k, a, b);
    TermsInRange(t, k, a, b);
    assert ts[..j] == ts[..i] + Terms(t, k, a[i..j], b[i..j]);
    FoldAppend(t, MonoidOf(k), ts[..i], Terms(t, k, a[i..j], b[i..j]));
  }

  // ----------------------------------------------------------------- phases

  method DenseApply(t: IntType, k: Kernel, lanes: nat, a: seq<int>, b: seq<int>, i: nat, j: nat, acc: DenseLane<Register>)
    returns (acc': DenseLane<Register>)
    requires |a| == |b| && j == i + ElementsPerDense(lanes) && j <= |a|
    requires Uniform(acc, lanes)
    ensures Uniform(acc', lanes)
    ensures Flatten(acc') == RegStep(t, k, Flatten(acc), a[i..j], b[i..j])
  {
    var l1, l2 := LoadDense(a, i, lanes), LoadDense(b, i, lanes);
    LoadDenseFlatten(a, i, j, lanes);
    LoadDenseFlatten(b, i, j, lanes);
    DenseStepFlatten(t, k, lanes, acc, l1, l2);
    acc' := DenseStep(t, k, acc, l1, l2);
  }

  method DenseAccumulate(t: IntType, k: Kernel, lanes: nat, a: seq<int>, b: seq<int>, i: nat, j: nat, acc: DenseLane<Register>)
    returns (acc': DenseLane<Register>)
    requires |a| == |b| && AllInRange(t, a) && j == i + ElementsPerDense(lanes) && j <= |a|
    requires Uniform(acc, lanes) && AllInRange(t, Flatten(acc))
    requires Fold(t, MonoidOf(k), Flatten(acc)) == Fold(t, MonoidOf(k), Terms(t, k, a, b)[..i])
    ensures Uniform(acc', lanes) && AllInRange(t, Flatten(acc'))
    ensures Fold(t, MonoidOf(k), Flatten(acc')) == Fold(t, MonoidOf(k), Terms(t, k, a, b)[..j])
  {
    acc' := DenseApply(t, k, lanes, a, b, i, j, acc);
    WindowStep(t, k, a, b, i, j, Flatten(acc), Flatten(acc'));
  }

  lemma WindowStep(t: IntType, k: Kernel, a: seq<int>, b: seq<int>, i: nat, j: nat, acc: seq<int>, acc': seq<int>)
    requires |a| == |b| && AllInRange(t, a) && i <= j <= |a| && |acc| == j - i && AllInRange(t, acc)
    requires acc' == RegStep(t, k, acc, a[i..j], b[i..j])
    requires Fold(t, MonoidOf(k), acc) == Fold(t, MonoidOf(k), Terms(t, k, a, b)[..i])
    ensures AllInRange(t, acc')
    ensures Fold(t, MonoidOf(k), acc') == Fold(t, MonoidOf(k), Terms(t, k, a, b)[..j])
  {
    RegStepFold(t, k, acc, a[i..j], b[i..j]);
    FoldExtend(t, k, a, b, i, j);
  }

  /** The register step at `i`: `l1 = R::load(a.add(i))` and the step on it
      keep the accumulator's fold equal to the fold of the terms before `j`. */
  method RegAccumulate(t: IntType, k: Kernel, lanes: nat, a: seq<int>, b: seq<int>, i: nat, j: nat, acc: Register)
    returns (acc': Register)
    requires |a| == |b| && AllInRange(t, a) && j == i + lanes && j <= |a|
    requires |acc| == lanes && AllInRange(t, acc)
    requires Fold(t, MonoidOf(k), acc) == Fold(t, MonoidOf(k), Terms(t, k, a, b)[..i])
    ensures |acc'| == lanes && AllInRange(t, acc')
    ensures Fold(t, MonoidOf(k), acc') == Fold(t, MonoidOf(k), Terms(t, k, a, b)[..j])
  {
    var l1, l2 := Load(a, i, lanes), Load(b, i, lanes);
    assert l1 == a[i..j] && l2 == b[i..j];
    acc' := RegStep(t, k, acc, l1, l2);
    WindowStep(t, k, a, b, i, j, acc, acc');
  }

  /** The seeded dense accumulator holds no contribution: it folds to the
      fold of no terms. */
  method SeedAccumulator(t: IntType, k: Kernel, lanes: nat, a: seq<int>, b: seq<int>) returns (acc: DenseLane<Register>)
    requires |a| == |b|
    ensures Uniform(acc, lanes) && AllInRange(t, Flatten(acc))
    ensures Fold(t, MonoidOf(k), Flatten(acc)) == Fold(t, MonoidOf(k), Terms(t, k, a, b)[..0])
  {
    acc := Seed(t, k, lanes);
    FoldOfIdentities(t, MonoidOf(k), ElementsPerDense(lanes));
    assert Terms(t, k, a, b)[..0] == [];
  }

  /** `*_to_register`: the dense accumulator collapsed to one register with
      the same fold. */
  method Collapse(t: IntType, k: Kernel, lanes: nat, acc: DenseLane<Register>) returns (reg: Register)
    requires Uniform(acc, lanes) && AllInRange(t, Flatten(acc))
    ensures |reg| == lanes && AllInRange(t, reg)
    ensures Fold(t, MonoidOf(k), reg) == Fold(t, MonoidOf(k), Flatten(acc))
  {
    ToRegisterFold(t, MonoidOf(k), acc);
    reg := ToReg(t, k, acc);
  }

  /** The dense phase, `while i < dims - offset_from` in steps of `8 * L`:
      the accumulator folds to the fold of the terms in `[0, end)`. */
  method DensePhase(t: IntType, k: Kernel, lanes: nat, a: seq<int>, b: seq<int>, end: nat)
    returns (acc: DenseLane<Register>)
    requires lanes >= 1 && |a| == |b| && AllInRange(t, a) && end <= |a| && end % ElementsPerDense(lanes) == 0
    ensures Uniform(acc, lanes) && AllInRange(t, Flatten(acc))
    ensures Fold(t, MonoidOf(k), Flatten(acc)) == Fold(t, MonoidOf(k), Terms(t, k, a, b)[..end])
  {
    var D := ElementsPerDense(lanes);
    acc := SeedAccumulator(t, k, lanes, a, b);
    var i := 0;
    while i < end
      invariant i <= end && (end - i) % D == 0
      invariant Uniform(acc, lanes) && AllInRange(t, Flatten(acc))
      invariant Fold(t, MonoidOf(k), Flatten(acc)) == Fold(t, MonoidOf(k), Terms(t, k, a, b)[..i])
    {
      Arith.NextStep(i, end, D);
      var next := i + D;
      acc := DenseAccumulate(t, k, lanes, a, b, i, next, acc);
      i := next;
    }
  }

  /** The register phase from `start` to `end` in steps of `L`. */
  method RegPhase(t: IntType, k: Kernel, lanes: nat, a: seq<int>, b: seq<int>, start: nat, end: nat, acc0: Register)
    returns (acc: Register)
    requires lanes >= 1 && |a| == |b| && AllInRange(t, a) && start <= end <= |a| && (end - start) % lanes == 0
    requires |acc0| == lanes && AllInRange(t, acc0)
    requires Fold(t, MonoidOf(k), acc0) == Fold(t, MonoidOf(k), Terms(t, k, a, b)[..start])
    ensures |acc| == lanes && AllInRange(t, acc)
    ensures Fold(t, MonoidOf(k), acc) == Fold(t, MonoidOf(k), Terms(t, k, a, b)[..end])
  {
    acc := acc0;
    var i := start;
    while i < end
      invariant start <= i <= end && (end - i) % lanes == 0
      invariant |acc| == lanes && AllInRange(t, acc)
      invariant Fold(t, MonoidOf(k), acc) == Fold(t, MonoidOf(k), Terms(t, k, a, b)[..i])
    {
      Arith.NextStep(i, end, lanes);
      var next := i + lanes;
      acc := RegAccumulate(t, k, lanes, a, b, i, next, acc);
      i := next;
    }
  }

  /** The scalar tail from `start` to the end of the input. */
  method TailPhase(t: IntType, k: Kernel, a: seq<int>, b: seq<int>, start: nat, acc0: int) returns (acc: int)
    requires |a| == |b| && start <= |a|
    requires acc0 == Fold(t, MonoidOf(k), Terms(t, k, a, b)[..start])
    ensures acc == Fold(t, MonoidOf(k), Terms(t, k, a, b))
  {
    ghost var ts := Terms(t, k, a, b);
    acc := acc0;
    var i := start;
    while i < |a|
      invariant start <= i <= |a|
      invariant acc == Fold(t, MonoidOf(k), ts[..i])
    {
      assert ts[..i + 1][..i] == ts[..i];
      ScalarStepFold(t, k, acc, a[i], b[i]);
      acc := ScalarStep(t, k, acc, a[i], b[i]);
      i := i + 1;
    }
    assert ts[..i] == ts;
  }

  /** A horizontal kernel over `dims` elements: the result is the fold of
      the terms whatever the register width. Single-operand kernels pass
      their operand as `b` too; their steps never look at it. */
  method Horizontal(t: IntType, k: Kernel, lanes: nat, dims: nat, a: seq<int>, b: seq<int>) returns (v: int)
    requires lanes >= 1 && |a| == dims && |b| == dims && AllInRange(t, a)
    ensures v == Reduced(t, k, a, b)
  {
    var offsetFrom := dims % ElementsPerDense(lanes);
    Arith.PhaseBounds(dims, ElementsPerDense(lanes), lanes);
    var dense := DensePhase(t, k, lanes, a, b, dims - offsetFrom);
    var reg := Collapse(t, k, lanes, dense);
    var i := dims - offsetFrom;
    offsetFrom := offsetFrom % lanes;
    reg := RegPhase(t, k, lanes, a, b, i, dims - offsetFrom, reg);
    var acc := ToValue(t, MonoidOf(k), reg);
    v := TailPhase(t, k, a, b, dims - offsetFrom, acc);
  }
}
