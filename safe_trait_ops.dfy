/** The safe trait layer (`ArithmeticOps`, `CmpOps`, `DistanceOps` and
    `AggOps`): each method checks its slice lengths against `dims` with
    `assert_eq!`, which panics before anything is written, and then
    `dispatch!`es to the generic kernel of the backend the target selects.
    Every backend runs the same generic kernel with its own register width,
    so the result does not depend on the backend chosen. */
module SafeTraitOps {
  import opened Wrappers
  import opened IntMath
  import opened ScalarOps
  import opened Monoids
  import opened Buffer
  import opened Dispatch
  import AggregateOps
  import MaxMinOps
  import Boilerplate

  /** The element type of each integer instantiation of the macros. */
  function PrimitiveOf(t: IntType): (p: Primitive)
    ensures p != F32 && p != F64
  {
    match t
    case I8 => Primitive.I8
    case I16 => Primitive.I16
    case I32 => Primitive.I32
    case I64 => Primitive.I64
    case U8 => Primitive.U8
    case U16 => Primitive.U16
    case U32 => Primitive.U32
    case U64 => Primitive.U64
  }

  /** The arms `DistanceOps` names: `float_distance_ops!` adds the AVX2 +
      FMA arm, `scalar_distance_ops!` does not. */
  function DistanceArms(p: Primitive): (arms: Arms)
    ensures arms.avx512 && arms.avx2 && arms.neon
    ensures arms.avx2fma <==> p == F32 || p == F64
  {
    if p == F32 || p == F64 then AllArms else NoFmaArms
  }

  /** No integer instantiation of a distance op ever runs an FMA kernel. */
  lemma IntegerDistanceNeverFma(target: Target, t: IntType)
    ensures Select(target, DistanceArms(PrimitiveOf(t))) != Avx2Fma
  {
    NoFmaArmsFallThrough(target);
  }

  /** The register width the selected backend runs with. */
  function KernelLanes(target: Target, arms: Arms, t: IntType): (lanes: nat)
    ensures lanes >= 1
    ensures Select(target, arms) == Fallback ==> lanes == 1
  {
    LanesOf(Select(target, arms), t)
  }

  // ------------------------------------------------------- ArithmeticOps

  /** The value methods of `ArithmeticOps` and `CmpOps`:
      `assert_eq!(a.len(), dims)` and `assert_eq!(result.len(), dims)`,
      then `result[i] = op(a[i], value)` through the dispatched kernel,
      which writes each slot once. */
  method ValueOp(target: Target, t: IntType, op: BinOp, dims: nat, value: int, a: seq<int>, result: WriteOnlyBuffer)
    returns (panicked: bool)
    requires Defined(op, value) && result.Valid()
    modifies result.buf, result`writes
    ensures result.Valid()
    ensures panicked <==> |a| != dims || result.RawBufferLen() != dims
    ensures panicked ==> result.buf[..] == old(result.buf[..]) && result.writes == old(result.writes)
    ensures !panicked ==> result.buf[..] == Zip(t, op, a, Fill(dims, value))
    ensures !panicked ==> result.writes == Bump(old(result.writes), 0, dims)
  {
    if |a| != dims {
      return true;
    }
    if result.RawBufferLen() != dims {
      return true;
    }
    Boilerplate.ApplyVectorXValue(t, KernelLanes(target, NoFmaArms, t), op, dims, value, a, result);
    assert old(result.buf[..])[dims..] == [];
    panicked := false;
  }

  /** The vector methods of `ArithmeticOps` and `CmpOps`: `a`, `b` and
      `result` must all have length `dims`, then `result[i] = op(a[i], b[i])`. */
  method VectorOp(target: Target, t: IntType, op: BinOp, dims: nat, a: seq<int>, b: seq<int>, result: WriteOnlyBuffer)
    returns (panicked: bool)
    requires AllDefined(op, b) && result.Valid()
    modifies result.buf, result`writes
    ensures result.Valid()
    ensures panicked <==> |a| != dims || |b| != dims || result.RawBufferLen() != dims
    ensures panicked ==> result.buf[..] == old(result.buf[..]) && result.writes == old(result.writes)
    ensures !panicked ==> result.buf[..] == Zip(t, op, a, b)
    ensures !panicked ==> result.writes == Bump(old(result.writes), 0, dims)
  {
    if |a| != dims {
      return true;
    }
    if |b| != dims {
      return true;
    }
    if result.RawBufferLen() != dims {
      return true;
    }
    Boilerplate.ApplyVectorXVector(t, KernelLanes(target, NoFmaArms, t), op, dims, a, b, result);
    assert old(result.buf[..])[dims..] == [];
    panicked := false;
  }

  /** `add_value`: `result[i] = a[i] + value`, wrapping. */
  method AddValue(target: Target, t: IntType, dims: nat, value: int, a: seq<int>, result: WriteOnlyBuffer)
    returns (panicked: bool)
    requires result.Valid()
    modifies result.buf, result`writes
    ensures panicked <==> |a| != dims || result.RawBufferLen() != dims
    ensures panicked ==> result.buf[..] == old(result.buf[..])
    ensures !panicked ==> forall i :: 0 <= i < dims ==> result.buf[i] == IntMath.Add(t, a[i], value)
  {
    panicked := ValueOp(target, t, BinOp.Add, dims, value, a, result);
  }

  /** `sub_value`: `result[i] = a[i] - value`, the vector on the left. */
  method SubValue(target: Target, t: IntType, dims: nat, value: int, a: seq<int>, result: WriteOnlyBuffer)
    returns (panicked: bool)
    requires result.Valid()
    modifies result.buf, result`writes
    ensures panicked <==> |a| != dims || result.RawBufferLen() != dims
    ensures panicked ==> result.buf[..] == old(result.buf[..])
    ensures !panicked ==> forall i :: 0 <= i < dims ==> result.buf[i] == IntMath.Sub(t, a[i], value)
  {
    panicked := ValueOp(target, t, BinOp.Sub, dims, value, a, result);
  }

  /** `mul_value`: `result[i] = a[i] * value`, wrapping. */
  method MulValue(target: Target, t: IntType, dims: nat, value: int, a: seq<int>, result: WriteOnlyBuffer)
    returns (panicked: bool)
    requires result.Valid()
    modifies result.buf, result`writes
    ensures panicked <==> |a| != dims || result.RawBufferLen() != dims
    ensures panicked ==> result.buf[..] == old(result.buf[..])
    ensures !panicked ==> forall i :: 0 <= i < dims ==> result.buf[i] == IntMath.Mul(t, a[i], value)
  {
    panicked := ValueOp(target, t, BinOp.Mul, dims, value, a, result);
  }

  /** `div_value`: `result[i] = a[i] / value`, the vector on the left. */
  method DivValue(target: Target, t: IntType, dims: nat, value: int, a: seq<int>, result: WriteOnlyBuffer)
    returns (panicked: bool)
    requires value != 0 && result.Valid()
    modifies result.buf, result`writes
    ensures panicked <==> |a| != dims || result.RawBufferLen() != dims
    ensures panicked ==> result.buf[..] == old(result.buf[..])
    ensures !panicked ==> forall i :: 0 <= i < dims ==> result.buf[i] == IntMath.Div(t, a[i], value)
  {
    panicked := ValueOp(target, t, BinOp.Div, dims, value, a, result);
  }

  /** `add_vector`: `result[i] = a[i] + b[i]`, wrapping. */
  method AddVector(target: Target, t: IntType, dims: nat, a: seq<int>, b: seq<int>, result: WriteOnlyBuffer)
    returns (panicked: bool)
    requires result.Valid()
    modifies result.buf, result`writes
    ensures panicked <==> |a| != dims || |b| != dims || result.RawBufferLen() != dims
    ensures panicked ==> result.buf[..] == old(result.buf[..])
    ensures !panicked ==> forall i :: 0 <= i < dims ==> result.buf[i] == IntMath.Add(t, a[i], b[i])
  {
    panicked := VectorOp(target, t, BinOp.Add, dims, a, b, result);
  }

  /** `sub_vector`: `result[i] = a[i] - b[i]`. */
  method SubVector(target: Target, t: IntType, dims: nat, a: seq<int>, b: seq<int>, result: WriteOnlyBuffer)
    returns (panicked: bool)
    requires result.Valid()
    modifies result.buf, result`writes
    ensures panicked <==> |a| != dims || |b| != dims || result.RawBufferLen() != dims
    ensures panicked ==> result.buf[..] == old(result.buf[..])
    ensures !panicked ==> forall i :: 0 <= i < dims ==> result.buf[i] == IntMath.Sub(t, a[i], b[i])
  {
    panicked := VectorOp(target, t, BinOp.Sub, dims, a, b, result);
  }

  /** `mul_vector`: `result[i] = a[i] * b[i]`, wrapping. */
  method MulVector(target: Target, t: IntType, dims: nat, a: seq<int>, b: seq<int>, result: WriteOnlyBuffer)
    returns (panicked: bool)
    requires result.Valid()
    modifies result.buf, result`writes
    ensures panicked <==> |a| != dims || |b| != dims || result.RawBufferLen() != dims
    ensures panicked ==> result.buf[..] == old(result.buf[..])
    ensures !panicked ==> forall i :: 0 <= i < dims ==> result.buf[i] == IntMath.Mul(t, a[i], b[i])
  {
    panicked := VectorOp(target, t, BinOp.Mul, dims, a, b, result);
  }

  /** `div_vector`: `result[i] = a[i] / b[i]`. */
  method DivVector(target: Target, t: IntType, dims: nat, a: seq<int>, b: seq<int>, result: WriteOnlyBuffer)
    returns (panicked: bool)
    requires (forall i :: 0 <= i < |b| ==> b[i] != 0) && result.Valid()
    modifies result.buf, result`writes
    ensures panicked <==> |a| != dims || |b| != dims || result.RawBufferLen() != dims
    ensures panicked ==> result.buf[..] == old(result.buf[..])
    ensures !panicked ==> forall i :: 0 <= i < dims ==> result.buf[i] == IntMath.Div(t, a[i], b[i])
  {
    panicked := VectorOp(target, t, BinOp.Div, dims, a, b, result);
  }

  // -------------------------------------------------------------- CmpOps

  /** `CmpOps::max`: panics unless `a.len() == dims`; otherwise the
      horizontal max, which bounds every element, is one of them, and is
      `T::MIN` for an empty vector. */
  method Max(target: Target, t: IntType, dims: nat, a: seq<int>) returns (r: Option<int>)
    requires AllInRange(t, a)
    ensures r.None? <==> |a| != dims
    ensures r.Some? ==> r.value == Fold(t, MaxM, a)
    ensures r.Some? ==> forall i :: 0 <= i < |a| ==> a[i] <= r.value
    ensures r.Some? && dims > 0 ==> r.value in a
    ensures r.Some? && dims == 0 ==> r.value == IntMath.Min(t)
  {
    if |a| != dims {
      return None;
    }
    var max := MaxMinOps.MaxHorizontal(t, KernelLanes(target, NoFmaArms, t), dims, a);
    r := Some(max);
  }

  /** `CmpOps::min`: as `max` with the order reversed; `T::MAX` when empty. */
  method Min(target: Target, t: IntType, dims: nat, a: seq<int>) returns (r: Option<int>)
    requires AllInRange(t, a)
    ensures r.None? <==> |a| != dims
    ensures r.Some? ==> r.value == Fold(t, MinM, a)
    ensures r.Some? ==> forall i :: 0 <= i < |a| ==> r.value <= a[i]
    ensures r.Some? && dims > 0 ==> r.value in a
    ensures r.Some? && dims == 0 ==> r.value == IntMath.Max(t)
  {
    if |a| != dims {
      return None;
    }
    var min := MaxMinOps.MinHorizontal(t, KernelLanes(target, NoFmaArms, t), dims, a);
    r := Some(min);
  }

  /** `max_value`: `result[i] = max(value, a[i])`. */
  method MaxValue(target: Target, t: IntType, dims: nat, value: int, a: seq<int>, result: WriteOnlyBuffer)
    returns (panicked: bool)
    requires result.Valid()
    modifies result.buf, result`writes
    ensures panicked <==> |a| != dims || result.RawBufferLen() != dims
    ensures panicked ==> result.buf[..] == old(result.buf[..])
    ensures !panicked ==> forall i :: 0 <= i < dims ==>
      result.buf[i] >= a[i] && result.buf[i] >= value && (result.buf[i] == a[i] || result.buf[i] == value)
  {
    panicked := ValueOp(target, t, BinOp.Max, dims, value, a, result);
  }

  /** `max_vector`: `result[i] = max(a[i], b[i])`. */
  method MaxVector(target: Target, t: IntType, dims: nat, a: seq<int>, b: seq<int>, result: WriteOnlyBuffer)
    returns (panicked: bool)
    requires result.Valid()
    modifies result.buf, result`writes
    ensures panicked <==> |a| != dims || |b| != dims || result.RawBufferLen() != dims
    ensures panicked ==> result.buf[..] == old(result.buf[..])
    ensures !panicked ==> forall i :: 0 <= i < dims ==>
      result.buf[i] >= a[i] && result.buf[i] >= b[i] && (result.buf[i] == a[i] || result.buf[i] == b[i])
  {
    panicked := VectorOp(target, t, BinOp.Max, dims, a, b, result);
  }

  /** `min_value`: `result[i] = min(value, a[i])`. */
  method MinValue(target: Target, t: IntType, dims: nat, value: int, a: seq<int>, result: WriteOnlyBuffer)
    returns (panicked: bool)
    requires result.Valid()
    modifies result.buf, result`writes
    ensures panicked <==> |a| != dims || result.RawBufferLen() != dims
    ensures panicked ==> result.buf[..] == old(result.buf[..])
    ensures !panicked ==> forall i :: 0 <= i < dims ==>
      result.buf[i] <= a[i] && result.buf[i] <= value && (result.buf[i] == a[i] || result.buf[i] == value)
  {
    panicked := ValueOp(target, t, BinOp.Min, dims, value, a, result);
  }

  /** `min_vector`: `result[i] = min(a[i], b[i])`. */
  method MinVector(target: Target, t: IntType, dims: nat, a: seq<int>, b: seq<int>, result: WriteOnlyBuffer)
    returns (panicked: bool)
    requires result.Valid()
    modifies result.buf, result`writes
    ensures panicked <==> |a| != dims || |b| != dims || result.RawBufferLen() != dims
    ensures panicked ==> result.buf[..] == old(result.buf[..])
    ensures !panicked ==> forall i :: 0 <= i < dims ==>
      result.buf[i] <= a[i] && result.buf[i] <= b[i] && (result.buf[i] == a[i] || result.buf[i] == b[i])
  {
    panicked := VectorOp(target, t, BinOp.Min, dims, a, b, result);
  }

  // --------------------------------------------------------- DistanceOps

  /** `DistanceOps::dot`: panics unless `a` and `b` both have length
      `dims`; otherwise the exact dot product wrapped once. */
  method Dot(target: Target, t: IntType, dims: nat, a: seq<int>, b: seq<int>) returns (r: Option<int>)
    requires AllInRange(t, a)
    ensures r.None? <==> |a| != dims || |b| != dims
    ensures r.Some? ==> r.value == Wrap(t, Monoids.Sum(AggregateOps.Products(a, b)))
  {
    if |a| != dims || |b| != dims {
      return None;
    }
    var dot := AggregateOps.DotProduct(t, KernelLanes(target, DistanceArms(PrimitiveOf(t)), t), dims, a, b);
    r := Some(dot);
  }

  /** `DistanceOps::squared_euclidean`: panics unless both lengths are
      `dims`; otherwise the sum of `(a[i] - b[i])^2` wrapped once. */
  method SquaredEuclidean(target: Target, t: IntType, dims: nat, a: seq<int>, b: seq<int>) returns (r: Option<int>)
    requires AllInRange(t, a)
    ensures r.None? <==> |a| != dims || |b| != dims
    ensures r.Some? ==> r.value == Wrap(t, Monoids.Sum(AggregateOps.SquaredDiffs(a, b)))
  {
    if |a| != dims || |b| != dims {
      return None;
    }
    var dist := AggregateOps.Euclidean(t, KernelLanes(target, DistanceArms(PrimitiveOf(t)), t), dims, a, b);
    r := Some(dist);
  }

  /** `DistanceOps::squared_norm`: panics unless `a.len() == dims`;
      otherwise the sum of squares wrapped once. */
  method SquaredNorm(target: Target, t: IntType, dims: nat, a: seq<int>) returns (r: Option<int>)
    requires AllInRange(t, a)
    ensures r.None? <==> |a| != dims
    ensures r.Some? ==> r.value == Wrap(t, Monoids.Sum(AggregateOps.Products(a, a)))
  {
    if |a| != dims {
      return None;
    }
    var norm := AggregateOps.SquaredNorm(t, KernelLanes(target, DistanceArms(PrimitiveOf(t)), t), dims, a);
    r := Some(norm);
  }

  /** `DistanceOps::cosine`: panics unless both lengths are `dims`, and
      also, for integers, when the root it divides by is zero; otherwise
      the documented cosine of the wrapped dot product and norms. */
  method Cosine(target: Target, t: IntType, sqrt: int -> int, dims: nat, a: seq<int>, b: seq<int>) returns (r: Option<int>)
    requires AllInRange(t, a) && AllInRange(t, b)
    ensures |a| != dims || |b| != dims ==> r.None?
    ensures |a| == dims && |b| == dims ==> r == AggregateOps.Cosine(t, sqrt,
      Wrap(t, Monoids.Sum(AggregateOps.Products(a, b))), Wrap(t, Monoids.Sum(AggregateOps.Products(a, a))), Wrap(t, Monoids.Sum(AggregateOps.Products(b, b))))
  {
    if |a| != dims || |b| != dims {
      return None;
    }
    r := AggregateOps.GenericCosine(t, KernelLanes(target, DistanceArms(PrimitiveOf(t)), t), sqrt, dims, a, b);
  }

  // -------------------------------------------------------------- AggOps

  /** `AggOps::sum`: panics unless `a.len() == dims`; otherwise the sum
      from zero, wrapped once, and zero for an empty vector. Its dispatch
      names no FMA arm. */
  method Sum(target: Target, t: IntType, dims: nat, a: seq<int>) returns (r: Option<int>)
    requires AllInRange(t, a)
    ensures r.None? <==> |a| != dims
    ensures r.Some? ==> r.value == Wrap(t, Monoids.Sum(a)) && r.value == Fold(t, SumM, a)
    ensures r.Some? && dims == 0 ==> r.value == 0
  {
    if |a| != dims {
      return None;
    }
    var sum := AggregateOps.SumHorizontal(t, KernelLanes(target, NoFmaArms, t), dims, a);
    r := Some(sum);
  }
}
