/** `op_vector_x_vector`: element-wise add, subtract, multiply or divide of
    two vectors. Each routine spells out the three-phase loop of
    `apply_vector_x_vector_kernel` with its own op. */
module VectorXVectorOps {
  import opened IntMath
  import opened ScalarOps
  import opened Buffer
  import Boilerplate

  /** `generic_add_vector`: `result[i] = M::add(a[i], b[i])` for every `i <
      dims`; every slot written exactly once. */
  method AddVector(t: IntType, lanes: nat, dims: nat, a: seq<int>, b: seq<int>, result: WriteOnlyBuffer)
    requires lanes >= 1 && |a| == dims && |b| == dims && result.Valid() && result.RawBufferLen() == dims
    modifies result.buf, result`writes
    ensures result.Valid()
    ensures forall i :: 0 <= i < dims ==> result.buf[i] == IntMath.Add(t, a[i], b[i])
    ensures result.writes == Bump(old(result.writes), 0, dims)
  {
    Boilerplate.ApplyVectorXVector(t, lanes, BinOp.Add, dims, a, b, result);
  }

  /** `generic_sub_vector`: `result[i] = M::sub(a[i], b[i])` for every `i <
      dims`; every slot written exactly once. */
  method SubVector(t: IntType, lanes: nat, dims: nat, a: seq<int>, b: seq<int>, result: WriteOnlyBuffer)
    requires lanes >= 1 && |a| == dims && |b| == dims && result.Valid() && result.RawBufferLen() == dims
    modifies result.buf, result`writes
    ensures result.Valid()
    ensures forall i :: 0 <= i < dims ==> result.buf[i] == IntMath.Sub(t, a[i], b[i])
    ensures result.writes == Bump(old(result.writes), 0, dims)
  {
    Boilerplate.ApplyVectorXVector(t, lanes, BinOp.Sub, dims, a, b, result);
  }

  /** `generic_mul_vector`: `result[i] = M::mul(a[i], b[i])` for every `i <
      dims`; every slot written exactly once. */
  method MulVector(t: IntType, lanes: nat, dims: nat, a: seq<int>, b: seq<int>, result: WriteOnlyBuffer)
    requires lanes >= 1 && |a| == dims && |b| == dims && result.Valid() && result.RawBufferLen() == dims
    modifies result.buf, result`writes
    ensures result.Valid()
    ensures forall i :: 0 <= i < dims ==> result.buf[i] == IntMath.Mul(t, a[i], b[i])
    ensures result.writes == Bump(old(result.writes), 0, dims)
  {
    Boilerplate.ApplyVectorXVector(t, lanes, BinOp.Mul, dims, a, b, result);
  }

  /** `generic_div_vector`: `result[i] = M::div(a[i], b[i])` for every `i <
      dims`; a zero `b[i]` makes `wrapping_div` panic; every slot written
      exactly once. */
  method DivVector(t: IntType, lanes: nat, dims: nat, a: seq<int>, b: seq<int>, result: WriteOnlyBuffer)
    requires lanes >= 1 && |a| == dims && |b| == dims && result.Valid() && result.RawBufferLen() == dims && forall i :: 0 <= i < dims ==> b[i] != 0
    modifies result.buf, result`writes
    ensures result.Valid()
    ensures forall i :: 0 <= i < dims ==> result.buf[i] == IntMath.Div(t, a[i], b[i])
    ensures result.writes == Bump(old(result.writes), 0, dims)
  {
    Boilerplate.ApplyVectorXVector(t, lanes, BinOp.Div, dims, a, b, result);
  }
}
