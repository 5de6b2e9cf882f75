/** `op_vector_x_value`: add, subtract, multiply or divide every element of a
    vector by one value. Each routine spells out the three-phase loop of
    `apply_vector_x_value_kernel` with its own op, so each is that kernel
    with the op fixed. */
module VectorXValueOps {
  import opened IntMath
  import opened ScalarOps
  import opened Buffer
  import Boilerplate

  /** `generic_add_value`: `result[i] = M::add(a[i], value)` for every `i <
      dims`, the vector on the left; every slot written exactly once. */
  method AddValue(t: IntType, lanes: nat, dims: nat, value: int, a: seq<int>, result: WriteOnlyBuffer)
    requires lanes >= 1 && |a| == dims && result.Valid() && result.RawBufferLen() == dims
    modifies result.buf, result`writes
    ensures result.Valid()
    ensures forall i :: 0 <= i < dims ==> result.buf[i] == IntMath.Add(t, a[i], value)
    ensures result.writes == Bump(old(result.writes), 0, dims)
  {
    Boilerplate.ApplyVectorXValue(t, lanes, BinOp.Add, dims, value, a, result);
  }

  /** `generic_sub_value`: `result[i] = M::sub(a[i], value)` for every `i <
      dims`, the vector on the left; every slot written exactly once. */
  method SubValue(t: IntType, lanes: nat, dims: nat, value: int, a: seq<int>, result: WriteOnlyBuffer)
    requires lanes >= 1 && |a| == dims && result.Valid() && result.RawBufferLen() == dims
    modifies result.buf, result`writes
    ensures result.Valid()
    ensures forall i :: 0 <= i < dims ==> result.buf[i] == IntMath.Sub(t, a[i], value)
    ensures result.writes == Bump(old(result.writes), 0, dims)
  {
    Boilerplate.ApplyVectorXValue(t, lanes, BinOp.Sub, dims, value, a, result);
  }

  /** `generic_mul_value`: `result[i] = M::mul(a[i], value)` for every `i <
      dims`, the vector on the left; every slot written exactly once. */
  method MulValue(t: IntType, lanes: nat, dims: nat, value: int, a: seq<int>, result: WriteOnlyBuffer)
    requires lanes >= 1 && |a| == dims && result.Valid() && result.RawBufferLen() == dims
    modifies result.buf, result`writes
    ensures result.Valid()
    ensures forall i :: 0 <= i < dims ==> result.buf[i] == IntMath.Mul(t, a[i], value)
    ensures result.writes == Bump(old(result.writes), 0, dims)
  {
    Boilerplate.ApplyVectorXValue(t, lanes, BinOp.Mul, dims, value, a, result);
  }

  /** `generic_div_value`: `result[i] = M::div(a[i], value)` for every `i <
      dims`, the vector on the left, a true division and not a multiplication
      by the reciprocal; a zero `value` makes `wrapping_div` panic; every slot
      written exactly once. */
  method DivValue(t: IntType, lanes: nat, dims: nat, value: int, a: seq<int>, result: WriteOnlyBuffer)
    requires lanes >= 1 && |a| == dims && result.Valid() && result.RawBufferLen() == dims && value != 0
    modifies result.buf, result`writes
    ensures result.Valid()
    ensures forall i :: 0 <= i < dims ==> result.buf[i] == IntMath.Div(t, a[i], value)
    ensures result.writes == Bump(old(result.writes), 0, dims)
  {
    Boilerplate.ApplyVectorXValue(t, lanes, BinOp.Div, dims, value, a, result);
  }
}
