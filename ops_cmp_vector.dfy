/** `op_cmp_vector`: element-wise comparison masks of two vectors, each
    `apply_vector_x_vector_kernel` with the comparison cast by `cast_bool`. */
module CmpVectorOps {
  import opened IntMath
  import opened ScalarOps
  import opened Buffer
  import Boilerplate

  /** `generic_cmp_eq_vector`: the mask `cast_bool(cmp_eq(x, y))` of `a[i]`
      against `b[i]`: one exactly where `a[i] == b[i]`, zero elsewhere. */
  method EqVector(t: IntType, lanes: nat, dims: nat, a: seq<int>, b: seq<int>, result: WriteOnlyBuffer)
    requires lanes >= 1 && |a| == dims && |b| == dims && result.Valid() && result.RawBufferLen() == dims
    modifies result.buf, result`writes
    ensures result.Valid()
    ensures forall i :: 0 <= i < dims ==> result.buf[i] == (if a[i] == b[i] then 1 else 0)
    ensures result.writes == Bump(old(result.writes), 0, dims)
  {
    Boilerplate.ApplyVectorXVector(t, lanes, BinOp.Eq, dims, a, b, result);
  }

  /** `generic_cmp_neq_vector`: the mask `cast_bool(!cmp_eq(x, y))` of `a[i]`
      against `b[i]`: one exactly where `a[i] != b[i]`, zero elsewhere. */
  method NeqVector(t: IntType, lanes: nat, dims: nat, a: seq<int>, b: seq<int>, result: WriteOnlyBuffer)
    requires lanes >= 1 && |a| == dims && |b| == dims && result.Valid() && result.RawBufferLen() == dims
    modifies result.buf, result`writes
    ensures result.Valid()
    ensures forall i :: 0 <= i < dims ==> result.buf[i] == (if a[i] != b[i] then 1 else 0)
    ensures result.writes == Bump(old(result.writes), 0, dims)
  {
    Boilerplate.ApplyVectorXVector(t, lanes, BinOp.Neq, dims, a, b, result);
  }

  /** `generic_cmp_lt_vector`: the mask `cast_bool(cmp_lt(x, y))` of `a[i]`
      against `b[i]`: one exactly where `a[i] < b[i]`, zero elsewhere. */
  method LtVector(t: IntType, lanes: nat, dims: nat, a: seq<int>, b: seq<int>, result: WriteOnlyBuffer)
    requires lanes >= 1 && |a| == dims && |b| == dims && result.Valid() && result.RawBufferLen() == dims
    modifies result.buf, result`writes
    ensures result.Valid()
    ensures forall i :: 0 <= i < dims ==> result.buf[i] == (if a[i] < b[i] then 1 else 0)
    ensures result.writes == Bump(old(result.writes), 0, dims)
  {
    Boilerplate.ApplyVectorXVector(t, lanes, BinOp.Lt, dims, a, b, result);
  }

  /** `generic_cmp_lte_vector`: the mask `cast_bool(cmp_lte(x, y))` of `a[i]`
      against `b[i]`: one exactly where `a[i] <= b[i]`, zero elsewhere. */
  method LteVector(t: IntType, lanes: nat, dims: nat, a: seq<int>, b: seq<int>, result: WriteOnlyBuffer)
    requires lanes >= 1 && |a| == dims && |b| == dims && result.Valid() && result.RawBufferLen() == dims
    modifies result.buf, result`writes
    ensures result.Valid()
    ensures forall i :: 0 <= i < dims ==> result.buf[i] == (if a[i] <= b[i] then 1 else 0)
    ensures result.writes == Bump(old(result.writes), 0, dims)
  {
    Boilerplate.ApplyVectorXVector(t, lanes, BinOp.Lte, dims, a, b, result);
  }

  /** `generic_cmp_gt_vector`: the mask `cast_bool(cmp_gt(x, y))` of `a[i]`
      against `b[i]`: one exactly where `a[i] > b[i]`, zero elsewhere. */
  method GtVector(t: IntType, lanes: nat, dims: nat, a: seq<int>, b: seq<int>, result: WriteOnlyBuffer)
    requires lanes >= 1 && |a| == dims && |b| == dims && result.Valid() && result.RawBufferLen() == dims
    modifies result.buf, result`writes
    ensures result.Valid()
    ensures forall i :: 0 <= i < dims ==> result.buf[i] == (if a[i] > b[i] then 1 else 0)
    ensures result.writes == Bump(old(result.writes), 0, dims)
  {
    Boilerplate.ApplyVectorXVector(t, lanes, BinOp.Gt, dims, a, b, result);
  }

  /** `generic_cmp_gte_vector`: the mask `cast_bool(cmp_gte(x, y))` of `a[i]`
      against `b[i]`: one exactly where `a[i] >= b[i]`, zero elsewhere. */
  method GteVector(t: IntType, lanes: nat, dims: nat, a: seq<int>, b: seq<int>, result: WriteOnlyBuffer)
    requires lanes >= 1 && |a| == dims && |b| == dims && result.Valid() && result.RawBufferLen() == dims
    modifies result.buf, result`writes
    ensures result.Valid()
    ensures forall i :: 0 <= i < dims ==> result.buf[i] == (if a[i] >= b[i] then 1 else 0)
    ensures result.writes == Bump(old(result.writes), 0, dims)
  {
    Boilerplate.ApplyVectorXVector(t, lanes, BinOp.Gte, dims, a, b, result);
  }
}
