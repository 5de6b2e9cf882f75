/** `op_cmp_vertical`: comparison masks over two loader operands, each
    `apply_vertical_kernel` with the comparison cast by `cast_bool`. */
module CmpVerticalOps {
  import opened IntMath
  import opened ScalarOps
  import opened Buffer
  import opened MemLoader
  import VerticalKernel

  /** `generic_cmp_eq_vertical`: panics unless both operands project onto the
      result's length; otherwise the mask is one exactly where `a[i] == b[i]`,
      a single value standing for itself at every index. */
  method EqVertical(t: IntType, lanes: nat, a: Operand, b: Operand, result: WriteOnlyBuffer)
    returns (panicked: bool)
    requires lanes >= 1 && result.Valid()
    modifies result.buf, result`writes
    ensures result.Valid()
    ensures panicked <==> !(Projectable(a, result.RawBufferLen()) && Projectable(b, result.RawBufferLen()))
    ensures panicked ==> result.buf[..] == old(result.buf[..]) && result.writes == old(result.writes)
    ensures !panicked ==> var n := result.RawBufferLen(); forall i :: 0 <= i < n ==>
      result.buf[i] == (if Elements(a, n)[i] == Elements(b, n)[i] then 1 else 0)
    ensures !panicked ==> result.writes == Bump(old(result.writes), 0, result.RawBufferLen())
  {
    panicked := VerticalKernel.ApplyVertical(t, lanes, BinOp.Eq, a, b, result);
  }

  /** `generic_cmp_neq_vertical`: panics unless both operands project onto the
      result's length; otherwise the mask is one exactly where `a[i] != b[i]`,
      a single value standing for itself at every index. */
  method NeqVertical(t: IntType, lanes: nat, a: Operand, b: Operand, result: WriteOnlyBuffer)
    returns (panicked: bool)
    requires lanes >= 1 && result.Valid()
    modifies result.buf, result`writes
    ensures result.Valid()
    ensures panicked <==> !(Projectable(a, result.RawBufferLen()) && Projectable(b, result.RawBufferLen()))
    ensures panicked ==> result.buf[..] == old(result.buf[..]) && result.writes == old(result.writes)
    ensures !panicked ==> var n := result.RawBufferLen(); forall i :: 0 <= i < n ==>
      result.buf[i] == (if Elements(a, n)[i] != Elements(b, n)[i] then 1 else 0)
    ensures !panicked ==> result.writes == Bump(old(result.writes), 0, result.RawBufferLen())
  {
    panicked := VerticalKernel.ApplyVertical(t, lanes, BinOp.Neq, a, b, result);
  }

  /** `generic_cmp_lt_vertical`: panics unless both operands project onto the
      result's length; otherwise the mask is one exactly where `a[i] < b[i]`,
      a single value standing for itself at every index. */
  method LtVertical(t: IntType, lanes: nat, a: Operand, b: Operand, result: WriteOnlyBuffer)
    returns (panicked: bool)
    requires lanes >= 1 && result.Valid()
    modifies result.buf, result`writes
    ensures result.Valid()
    ensures panicked <==> !(Projectable(a, result.RawBufferLen()) && Projectable(b, result.RawBufferLen()))
    ensures panicked ==> result.buf[..] == old(result.buf[..]) && result.writes == old(result.writes)
    ensures !panicked ==> var n := result.RawBufferLen(); forall i :: 0 <= i < n ==>
      result.buf[i] == (if Elements(a, n)[i] < Elements(b, n)[i] then 1 else 0)
    ensures !panicked ==> result.writes == Bump(old(result.writes), 0, result.RawBufferLen())
  {
    panicked := VerticalKernel.ApplyVertical(t, lanes, BinOp.Lt, a, b, result);
  }

  /** `generic_cmp_lte_vertical`: panics unless both operands project onto the
      result's length; otherwise the mask is one exactly where `a[i] <= b[i]`,
      a single value standing for itself at every index. */
  method LteVertical(t: IntType, lanes: nat, a: Operand, b: Operand, result: WriteOnlyBuffer)
    returns (panicked: bool)
    requires lanes >= 1 && result.Valid()
    modifies result.buf, result`writes
    ensures result.Valid()
    ensures panicked <==> !(Projectable(a, result.RawBufferLen()) && Projectable(b, result.RawBufferLen()))
    ensures panicked ==> result.buf[..] == old(result.buf[..]) && result.writes == old(result.writes)
    ensures !panicked ==> var n := result.RawBufferLen(); forall i :: 0 <= i < n ==>
      result.buf[i] == (if Elements(a, n)[i] <= Elements(b, n)[i] then 1 else 0)
    ensures !panicked ==> result.writes == Bump(old(result.writes), 0, result.RawBufferLen())
  {
    panicked := VerticalKernel.ApplyVertical(t, lanes, BinOp.Lte, a, b, result);
  }

  /** `generic_cmp_gt_vertical`: panics unless both operands project onto the
      result's length; otherwise the mask is one exactly where `a[i] > b[i]`,
      a single value standing for itself at every index. */
  method GtVertical(t: IntType, lanes: nat, a: Operand, b: Operand, result: WriteOnlyBuffer)
    returns (panicked: bool)
    requires lanes >= 1 && result.Valid()
    modifies result.buf, result`writes
    ensures result.Valid()
    ensures panicked <==> !(Projectable(a, result.RawBufferLen()) && Projectable(b, result.RawBufferLen()))
    ensures panicked ==> result.buf[..] == old(result.buf[..]) && result.writes == old(result.writes)
    ensures !panicked ==> var n := result.RawBufferLen(); forall i :: 0 <= i < n ==>
      result.buf[i] == (if Elements(a, n)[i] > Elements(b, n)[i] then 1 else 0)
    ensures !panicked ==> result.writes == Bump(old(result.writes), 0, result.RawBufferLen())
  {
    panicked := VerticalKernel.ApplyVertical(t, lanes, BinOp.Gt, a, b, result);
  }

  /** `generic_cmp_gte_vertical`: panics unless both operands project onto the
      result's length; otherwise the mask is one exactly where `a[i] >= b[i]`,
      a single value standing for itself at every index. */
  method GteVertical(t: IntType, lanes: nat, a: Operand, b: Operand, result: WriteOnlyBuffer)
    returns (panicked: bool)
    requires lanes >= 1 && result.Valid()
    modifies result.buf, result`writes
    ensures result.Valid()
    ensures panicked <==> !(Projectable(a, result.RawBufferLen()) && Projectable(b, result.RawBufferLen()))
    ensures panicked ==> result.buf[..] == old(result.buf[..]) && result.writes == old(result.writes)
    ensures !panicked ==> var n := result.RawBufferLen(); forall i :: 0 <= i < n ==>
      result.buf[i] == (if Elements(a, n)[i] >= Elements(b, n)[i] then 1 else 0)
    ensures !panicked ==> result.writes == Bump(old(result.writes), 0, result.RawBufferLen())
  {
    panicked := VerticalKernel.ApplyVertical(t, lanes, BinOp.Gte, a, b, result);
  }
}
