/** `op_max`, `op_min`, `op_cmp_max` and `op_cmp_min`: the horizontal max and
    min of one vector, and the element-wise max and min of two vectors or of
    a vector and a value. The horizontal forms are the max or min fold from
    the opposite bound; the element-wise forms are the generic three-phase
    kernels with `max`/`min` as the op. */
module MaxMinOps {
  import opened IntMath
  import opened ScalarOps
  import opened Monoids
  import opened SimdApi
  import opened Buffer
  import opened MemLoader
  import opened Reductions
  import Boilerplate
  import VerticalKernel

  /** `generic_max_horizontal`: the fold of `cmp_max` from `M::min()`; it
      bounds every element, is one of them, and is `M::min()` when empty. */
  method MaxHorizontal(t: IntType, lanes: nat, dims: nat, a: seq<int>) returns (max: int)
    requires lanes >= 1 && |a| == dims && AllInRange(t, a)
    ensures max == Fold(t, MaxM, a)
    ensures forall i :: 0 <= i < dims ==> a[i] <= max
    ensures dims > 0 ==> max in a
    ensures dims == 0 ==> max == IntMath.Min(t)
  {
    max := Horizontal(t, MaxK, lanes, dims, a, a);
    assert Terms(t, MaxK, a, a) == a;
    FoldMaxMinBound(t, a);
    if dims > 0 {
      FoldMaxMinMember(t, a);
    }
  }

  /** `generic_min_horizontal`: the fold of `cmp_min` from `M::max()`; it
      bounds every element from below, is one of them, and is `M::max()`
      when empty. */
  method MinHorizontal(t: IntType, lanes: nat, dims: nat, a: seq<int>) returns (min: int)
    requires lanes >= 1 && |a| == dims && AllInRange(t, a)
    ensures min == Fold(t, MinM, a)
    ensures forall i :: 0 <= i < dims ==> min <= a[i]
    ensures dims > 0 ==> min in a
    ensures dims == 0 ==> min == IntMath.Max(t)
  {
    min := Horizontal(t, MinK, lanes, dims, a, a);
    assert Terms(t, MinK, a, a) == a;
    FoldMaxMinBound(t, a);
    if dims > 0 {
      FoldMaxMinMember(t, a);
    }
  }

  /** `generic_max_vertical`: `result[i] = cmp_max(a[i], b[i])` below `dims`;
      `result` only needs room for `dims` slots and nothing past them is
      touched. */
  method MaxVertical(t: IntType, lanes: nat, dims: nat, a: seq<int>, b: seq<int>, result: WriteOnlyBuffer)
    requires lanes >= 1 && |a| == dims && |b| == dims
    requires result.Valid() && dims <= result.RawBufferLen()
    modifies result.buf, result`writes
    ensures result.Valid()
    ensures forall i :: 0 <= i < dims ==> result.buf[i] == CmpMax(a[i], b[i])
    ensures result.buf[dims..] == old(result.buf[dims..])
    ensures result.writes == Bump(old(result.writes), 0, dims)
  {
    Boilerplate.ApplyVectorXVector(t, lanes, BinOp.Max, dims, a, b, result);
  }

  /** `generic_min_vertical`: `result[i] = cmp_min(a[i], b[i])` below `dims`. */
  method MinVertical(t: IntType, lanes: nat, dims: nat, a: seq<int>, b: seq<int>, result: WriteOnlyBuffer)
    requires lanes >= 1 && |a| == dims && |b| == dims
    requires result.Valid() && dims <= result.RawBufferLen()
    modifies result.buf, result`writes
    ensures result.Valid()
    ensures forall i :: 0 <= i < dims ==> result.buf[i] == CmpMin(a[i], b[i])
    ensures result.buf[dims..] == old(result.buf[dims..])
    ensures result.writes == Bump(old(result.writes), 0, dims)
  {
    Boilerplate.ApplyVectorXVector(t, lanes, BinOp.Min, dims, a, b, result);
  }

  /** `generic_max_value`: `result[i] = cmp_max(a[i], value)` below `dims`. */
  method MaxVectorXValue(t: IntType, lanes: nat, dims: nat, value: int, a: seq<int>, result: WriteOnlyBuffer)
    requires lanes >= 1 && |a| == dims
    requires result.Valid() && dims <= result.RawBufferLen()
    modifies result.buf, result`writes
    ensures result.Valid()
    ensures forall i :: 0 <= i < dims ==> result.buf[i] == CmpMax(a[i], value)
    ensures result.buf[dims..] == old(result.buf[dims..])
    ensures result.writes == Bump(old(result.writes), 0, dims)
  {
    Boilerplate.ApplyVectorXValue(t, lanes, BinOp.Max, dims, value, a, result);
  }

  /** `generic_min_value`: `result[i] = cmp_min(a[i], value)` below `dims`. */
  method MinVectorXValue(t: IntType, lanes: nat, dims: nat, value: int, a: seq<int>, result: WriteOnlyBuffer)
    requires lanes >= 1 && |a| == dims
    requires result.Valid() && dims <= result.RawBufferLen()
    modifies result.buf, result`writes
    ensures result.Valid()
    ensures forall i :: 0 <= i < dims ==> result.buf[i] == CmpMin(a[i], value)
    ensures result.buf[dims..] == old(result.buf[dims..])
    ensures result.writes == Bump(old(result.writes), 0, dims)
  {
    Boilerplate.ApplyVectorXValue(t, lanes, BinOp.Min, dims, value, a, result);
  }

  /** `generic_cmp_max`: the max fold over what `into_mem_loader` yields,
      its projected length being the slice's length or 1 for a single
      value, which is then its own max; `M::min()` for an empty slice. */
  method GenericCmpMax(t: IntType, lanes: nat, a: Operand) returns (max: int)
    requires lanes >= 1 && AllInRange(t, Elements(a, UnprojectedLen(a)))
    ensures max == Fold(t, MaxM, Elements(a, UnprojectedLen(a)))
    ensures a.Scalar? ==> max == a.value
    ensures a.Slice? && |a.data| == 0 ==> max == IntMath.Min(t)
  {
    var len := UnprojectedLen(a);
    var xs := Elements(a, len);
    max := MaxHorizontal(t, lanes, len, xs);
    if a.Scalar? {
      assert xs == [a.value];
      FoldSingleton(t, MaxM, a.value);
    }
  }

  /** `generic_cmp_min`: the min fold over what `into_mem_loader` yields;
      `M::max()` for an empty slice. */
  method GenericCmpMin(t: IntType, lanes: nat, a: Operand) returns (min: int)
    requires lanes >= 1 && AllInRange(t, Elements(a, UnprojectedLen(a)))
    ensures min == Fold(t, MinM, Elements(a, UnprojectedLen(a)))
    ensures a.Scalar? ==> min == a.value
    ensures a.Slice? && |a.data| == 0 ==> min == IntMath.Max(t)
  {
    var len := UnprojectedLen(a);
    var xs := Elements(a, len);
    min := MinHorizontal(t, lanes, len, xs);
    if a.Scalar? {
      assert xs == [a.value];
      FoldSingleton(t, MinM, a.value);
    }
  }

  /** `generic_cmp_max_vertical`: panics unless both operands project onto
      the result's length, otherwise `result[i] = cmp_max(a[i], b[i])`, a
      single value standing for itself at every index. */
  method CmpMaxVertical(t: IntType, lanes: nat, a: Operand, b: Operand, result: WriteOnlyBuffer)
    returns (panicked: bool)
    requires lanes >= 1 && result.Valid()
    modifies result.buf, result`writes
    ensures result.Valid()
    ensures panicked <==> !(Projectable(a, result.RawBufferLen()) && Projectable(b, result.RawBufferLen()))
    ensures panicked ==> result.buf[..] == old(result.buf[..]) && result.writes == old(result.writes)
    ensures !panicked ==> var n := result.RawBufferLen(); forall i :: 0 <= i < n ==>
      result.buf[i] == CmpMax(Elements(a, n)[i], Elements(b, n)[i])
    ensures !panicked ==> result.writes == Bump(old(result.writes), 0, result.RawBufferLen())
  {
    panicked := VerticalKernel.ApplyVertical(t, lanes, BinOp.Max, a, b, result);
  }

  /** `generic_cmp_min_vertical`: as above with `cmp_min`. */
  method CmpMinVertical(t: IntType, lanes: nat, a: Operand, b: Operand, result: WriteOnlyBuffer)
    returns (panicked: bool)
    requires lanes >= 1 && result.Valid()
    modifies result.buf, result`writes
    ensures result.Valid()
    ensures panicked <==> !(Projectable(a, result.RawBufferLen()) && Projectable(b, result.RawBufferLen()))
    ensures panicked ==> result.buf[..] == old(result.buf[..]) && result.writes == old(result.writes)
    ensures !panicked ==> var n := result.RawBufferLen(); forall i :: 0 <= i < n ==>
      result.buf[i] == CmpMin(Elements(a, n)[i], Elements(b, n)[i])
    ensures !panicked ==> result.writes == Bump(old(result.writes), 0, result.RawBufferLen())
  {
    panicked := VerticalKernel.ApplyVertical(t, lanes, BinOp.Min, a, b, result);
  }
}
