/** `op_arithmetic_vertical`: the arithmetic ops over two loader operands,
    each a slice or a broadcast value, written into the whole result
    buffer by `apply_vertical_kernel`. */
module ArithmeticVerticalOps {
  import opened IntMath
  import opened ScalarOps
  import opened Buffer
  import opened MemLoader
  import VerticalKernel

  /** `generic_add_vertical`: panics unless both operands project onto the
      result's length; otherwise `result[i] = M::add(a[i], b[i])`, a single
      value standing for itself at every index. */
  method AddVertical(t: IntType, lanes: nat, a: Operand, b: Operand, result: WriteOnlyBuffer)
    returns (panicked: bool)
    requires lanes >= 1 && result.Valid()
    modifies result.buf, result`writes
    ensures result.Valid()
    ensures panicked <==> !(Projectable(a, result.RawBufferLen()) && Projectable(b, result.RawBufferLen()))
    ensures panicked ==> result.buf[..] == old(result.buf[..]) && result.writes == old(result.writes)
    ensures !panicked ==> var n := result.RawBufferLen(); forall i :: 0 <= i < n ==>
      result.buf[i] == IntMath.Add(t, Elements(a, n)[i], Elements(b, n)[i])
    ensures !panicked ==> result.writes == Bump(old(result.writes), 0, result.RawBufferLen())
  {
    panicked := VerticalKernel.ApplyVertical(t, lanes, BinOp.Add, a, b, result);
  }

  /** `generic_sub_vertical`: panics unless both operands project onto the
      result's length; otherwise `result[i] = M::sub(a[i], b[i])`, a single
      value standing for itself at every index. */
  method SubVertical(t: IntType, lanes: nat, a: Operand, b: Operand, result: WriteOnlyBuffer)
    returns (panicked: bool)
    requires lanes >= 1 && result.Valid()
    modifies result.buf, result`writes
    ensures result.Valid()
    ensures panicked <==> !(Projectable(a, result.RawBufferLen()) && Projectable(b, result.RawBufferLen()))
    ensures panicked ==> result.buf[..] == old(result.buf[..]) && result.writes == old(result.writes)
    ensures !panicked ==> var n := result.RawBufferLen(); forall i :: 0 <= i < n ==>
      result.buf[i] == IntMath.Sub(t, Elements(a, n)[i], Elements(b, n)[i])
    ensures !panicked ==> result.writes == Bump(old(result.writes), 0, result.RawBufferLen())
  {
    panicked := VerticalKernel.ApplyVertical(t, lanes, BinOp.Sub, a, b, result);
  }

  /** `generic_mul_vertical`: panics unless both operands project onto the
      result's length; otherwise `result[i] = M::mul(a[i], b[i])`, a single
      value standing for itself at every index. */
  method MulVertical(t: IntType, lanes: nat, a: Operand, b: Operand, result: WriteOnlyBuffer)
    returns (panicked: bool)
    requires lanes >= 1 && result.Valid()
    modifies result.buf, result`writes
    ensures result.Valid()
    ensures panicked <==> !(Projectable(a, result.RawBufferLen()) && Projectable(b, result.RawBufferLen()))
    ensures panicked ==> result.buf[..] == old(result.buf[..]) && result.writes == old(result.writes)
    ensures !panicked ==> var n := result.RawBufferLen(); forall i :: 0 <= i < n ==>
      result.buf[i] == IntMath.Mul(t, Elements(a, n)[i], Elements(b, n)[i])
    ensures !panicked ==> result.writes == Bump(old(result.writes), 0, result.RawBufferLen())
  {
    panicked := VerticalKernel.ApplyVertical(t, lanes, BinOp.Mul, a, b, result);
  }

  /** `generic_div_vertical`: panics unless both operands project onto the
      result's length; otherwise `result[i] = M::div(a[i], b[i])`, a single
      value standing for itself at every index. */
  method DivVertical(t: IntType, lanes: nat, a: Operand, b: Operand, result: WriteOnlyBuffer)
    returns (panicked: bool)
    requires lanes >= 1 && result.Valid()
    requires var n := result.RawBufferLen(); Projectable(b, n) ==> forall i :: 0 <= i < n ==> Elements(b, n)[i] != 0
    modifies result.buf, result`writes
    ensures result.Valid()
    ensures panicked <==> !(Projectable(a, result.RawBufferLen()) && Projectable(b, result.RawBufferLen()))
    ensures panicked ==> result.buf[..] == old(result.buf[..]) && result.writes == old(result.writes)
    ensures !panicked ==> var n := result.RawBufferLen(); forall i :: 0 <= i < n ==>
      result.buf[i] == IntMath.Div(t, Elements(a, n)[i], Elements(b, n)[i])
    ensures !panicked ==> result.writes == Bump(old(result.writes), 0, result.RawBufferLen())
  {
    panicked := VerticalKernel.ApplyVertical(t, lanes, BinOp.Div, a, b, result);
  }
}
