/** `op_cmp_value`: comparison masks of a vector against one value, each
    `apply_vector_x_value_kernel` with the comparison cast to `one()` or
    `zero()` by `cast_bool`, the vector element on the left. */
module CmpValueOps {
  import opened IntMath
  import opened ScalarOps
  import opened Buffer
  import Boilerplate

  /** `generic_cmp_eq_value`: the mask `cast_bool(cmp_eq(x, y))` of `a[i]`
      against `value`: one exactly where `a[i] == value`, zero elsewhere. */
  method EqValue(t: IntType, lanes: nat, dims: nat, value: int, a: seq<int>, result: WriteOnlyBuffer)
    requires lanes >= 1 && |a| == dims && result.Valid() && result.RawBufferLen() == dims
    modifies result.buf, result`writes
    ensures result.Valid()
    ensures forall i :: 0 <= i < dims ==> result.buf[i] == (if a[i] == value then 1 else 0)
    ensures result.writes == Bump(old(result.writes), 0, dims)
  {
    Boilerplate.ApplyVectorXValue(t, lanes, BinOp.Eq, dims, value, a, result);
  }

  /** `generic_cmp_neq_value`: the mask `cast_bool(!cmp_eq(x, y))` of `a[i]`
      against `value`: one exactly where `a[i] != value`, zero elsewhere. */
  method NeqValue(t: IntType, lanes: nat, dims: nat, value: int, a: seq<int>, result: WriteOnlyBuffer)
    requires lanes >= 1 && |a| == dims && result.Valid() && result.RawBufferLen() == dims
    modifies result.buf, result`writes
    ensures result.Valid()
    ensures forall i :: 0 <= i < dims ==> result.buf[i] == (if a[i] != value then 1 else 0)
    ensures result.writes == Bump(old(result.writes), 0, dims)
  {
    Boilerplate.ApplyVectorXValue(t, lanes, BinOp.Neq, dims, value, a, result);
  }

  /** `generic_cmp_lt_value`: the mask `cast_bool(cmp_lt(x, y))` of `a[i]`
      against `value`: one exactly where `a[i] < value`, zero elsewhere. */
  method LtValue(t: IntType, lanes: nat, dims: nat, value: int, a: seq<int>, result: WriteOnlyBuffer)
    requires lanes >= 1 && |a| == dims && result.Valid() && result.RawBufferLen() == dims
    modifies result.buf, result`writes
    ensures result.Valid()
    ensures forall i :: 0 <= i < dims ==> result.buf[i] == (if a[i] < value then 1 else 0)
    ensures result.writes == Bump(old(result.writes), 0, dims)
  {
    Boilerplate.ApplyVectorXValue(t, lanes, BinOp.Lt, dims, value, a, result);
  }

  /** `generic_cmp_lte_value`: the mask `cast_bool(cmp_lte(x, y))` of `a[i]`
      against `value`: one exactly where `a[i] <= value`, zero elsewhere. */
  method LteValue(t: IntType, lanes: nat, dims: nat, value: int, a: seq<int>, result: WriteOnlyBuffer)
    requires lanes >= 1 && |a| == dims && result.Valid() && result.RawBufferLen() == dims
    modifies result.buf, result`writes
    ensures result.Valid()
    ensures forall i :: 0 <= i < dims ==> result.buf[i] == (if a[i] <= value then 1 else 0)
    ensures result.writes == Bump(old(result.writes), 0, dims)
  {
    Boilerplate.ApplyVectorXValue(t, lanes, BinOp.Lte, dims, value, a, result);
  }

  /** `generic_cmp_gt_value`: the mask `cast_bool(cmp_gt(x, y))` of `a[i]`
      against `value`: one exactly where `a[i] > value`, zero elsewhere. */
  method GtValue(t: IntType, lanes: nat, dims: nat, value: int, a: seq<int>, result: WriteOnlyBuffer)
    requires lanes >= 1 && |a| == dims && result.Valid() && result.RawBufferLen() == dims
    modifies result.buf, result`writes
    ensures result.Valid()
    ensures forall i :: 0 <= i < dims ==> result.buf[i] == (if a[i] > value then 1 else 0)
    ensures result.writes == Bump(old(result.writes), 0, dims)
  {
    Boilerplate.ApplyVectorXValue(t, lanes, BinOp.Gt, dims, value, a, result);
  }

  /** `generic_cmp_gte_value`: the mask `cast_bool(cmp_gte(x, y))` of `a[i]`
      against `value`: one exactly where `a[i] >= value`, zero elsewhere. */
  method GteValue(t: IntType, lanes: nat, dims: nat, value: int, a: seq<int>, result: WriteOnlyBuffer)
    requires lanes >= 1 && |a| == dims && result.Valid() && result.RawBufferLen() == dims
    modifies result.buf, result`writes
    ensures result.Valid()
    ensures forall i :: 0 <= i < dims ==> result.buf[i] == (if a[i] >= value then 1 else 0)
    ensures result.writes == Bump(old(result.writes), 0, dims)
  {
    Boilerplate.ApplyVectorXValue(t, lanes, BinOp.Gte, dims, value, a, result);
  }
}
