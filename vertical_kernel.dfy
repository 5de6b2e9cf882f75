/** `apply_vertical_kernel`, called by every `*_vertical` routine. Its
    definition is not part of this model, so it is rebuilt from the loader
    rules: both operands are projected onto the result's `raw_buffer_len()`
    (a slice of any other length panics), then the same three phases as the
    other element-wise kernels run over that length, reading each operand
    through its loader. */
module VerticalKernel {
  import opened Wrappers
  import opened IntMath
  import opened ScalarOps
  import opened SimdApi
  import opened Buffer
  import opened MemLoader
  import opened Boilerplate
  import Arith

  /** A loader positioned at `i`: a slice's cursor is there, a scalar has none. */
  ghost predicate At(l: Loader, i: nat)
    reads l
  {
    l.Valid() && (l.operand.Slice? ==> l.cursor == i)
  }

  /** The kernel reads `la` and `lb`, two different loaders of equal
      projected length, and computes `op` of their elements. */
  ghost predicate VerticalSpec(t: IntType, op: BinOp, la: Loader, lb: Loader, spec: seq<int>)
    reads la, lb
  {
    la != lb && la.Valid() && lb.Valid() && la.projectedLen == lb.projectedLen &&
    AllDefined(op, lb.View()) && spec == Zip(t, op, la.View(), lb.View())
  }

  method DenseStep(t: IntType, op: BinOp, lanes: nat, la: Loader, lb: Loader, i: nat, j: nat, result: WriteOnlyBuffer,
                   ghost spec: seq<int>, ghost mem0: seq<int>, ghost w0: seq<nat>)
    requires VerticalSpec(t, op, la, lb, spec) && At(la, i) && At(lb, i)
    requires j == i + ElementsPerDense(lanes) && j <= la.projectedLen && Progress(result, spec, mem0, w0, i)
    modifies la, lb, result.buf, result`writes
    ensures VerticalSpec(t, op, la, lb, spec) && At(la, j) && At(lb, j)
    ensures Progress(result, spec, mem0, w0, j)
  {
    var l1 := la.LoadDense(lanes, i);
    var l2 := lb.LoadDense(lanes, i);
    DensePiece(t, op, la.View(), lb.View(), i, j, lanes);
    var mask := DenseOp(t, op, l1, l2);
    WriteDensePiece(result, lanes, i, j, mask, spec, mem0, w0);
  }

  method RegStep(t: IntType, op: BinOp, lanes: nat, la: Loader, lb: Loader, i: nat, result: WriteOnlyBuffer,
                 ghost spec: seq<int>, ghost mem0: seq<int>, ghost w0: seq<nat>)
    requires VerticalSpec(t, op, la, lb, spec) && At(la, i) && At(lb, i)
    requires i + lanes <= la.projectedLen && Progress(result, spec, mem0, w0, i)
    modifies la, lb, result.buf, result`writes
    ensures VerticalSpec(t, op, la, lb, spec) && At(la, i + lanes) && At(lb, i + lanes)
    ensures Progress(result, spec, mem0, w0, i + lanes)
  {
    var l1 := la.Load(lanes, i);
    var l2 := lb.Load(lanes, i);
    RegPiece(t, op, la.View(), lb.View(), i, lanes);
    var mask := Zip(t, op, l1, l2);
    WriteRegPiece(result, i, mask, spec, mem0, w0);
  }

  method ElementStep(t: IntType, op: BinOp, la: Loader, lb: Loader, i: nat, result: WriteOnlyBuffer,
                     ghost spec: seq<int>, ghost mem0: seq<int>, ghost w0: seq<nat>)
    requires VerticalSpec(t, op, la, lb, spec) && At(la, i) && At(lb, i)
    requires i < la.projectedLen && Progress(result, spec, mem0, w0, i)
    modifies la, lb, result.buf, result`writes
    ensures VerticalSpec(t, op, la, lb, spec) && At(la, i + 1) && At(lb, i + 1)
    ensures Progress(result, spec, mem0, w0, i + 1)
  {
    var x := la.Read(i);
    var y := lb.Read(i);
    assert Defined(op, lb.View()[i]);
    WriteElement(result, i, Apply(t, op, x, y), spec, mem0, w0);
  }

  /** The dense phase over `[0, end)` in steps of `8 * L`. */
  method DensePhase(t: IntType, op: BinOp, lanes: nat, end: nat, la: Loader, lb: Loader, result: WriteOnlyBuffer,
                    ghost spec: seq<int>, ghost mem0: seq<int>, ghost w0: seq<nat>) returns (i: nat)
    requires lanes >= 1 && VerticalSpec(t, op, la, lb, spec) && end <= la.projectedLen && end % ElementsPerDense(lanes) == 0
    requires At(la, 0) && At(lb, 0) && Progress(result, spec, mem0, w0, 0)
    modifies la, lb, result.buf, result`writes
    ensures i == end && VerticalSpec(t, op, la, lb, spec) && At(la, i) && At(lb, i)
    ensures Progress(result, spec, mem0, w0, i)
  {
    var D := ElementsPerDense(lanes);
    i := 0;
    while i < end
      invariant i <= end && (end - i) % D == 0
      invariant VerticalSpec(t, op, la, lb, spec) && At(la, i) && At(lb, i)
      invariant Progress(result, spec, mem0, w0, i)
    {
      Arith.NextStep(i, end, D);
      var next := i + D;
      DenseStep(t, op, lanes, la, lb, i, next, result, spec, mem0, w0);
      i := next;
    }
  }

  /** The register phase over `[start, end)` in steps of `L`. */
  method RegPhase(t: IntType, op: BinOp, lanes: nat, start: nat, end: nat, la: Loader, lb: Loader, result: WriteOnlyBuffer,
                  ghost spec: seq<int>, ghost mem0: seq<int>, ghost w0: seq<nat>) returns (i: nat)
    requires lanes >= 1 && VerticalSpec(t, op, la, lb, spec) && start <= end <= la.projectedLen && (end - start) % lanes == 0
    requires At(la, start) && At(lb, start) && Progress(result, spec, mem0, w0, start)
    modifies la, lb, result.buf, result`writes
    ensures i == end && VerticalSpec(t, op, la, lb, spec) && At(la, i) && At(lb, i)
    ensures Progress(result, spec, mem0, w0, i)
  {
    i := start;
    while i < end
      invariant start <= i <= end && (end - i) % lanes == 0
      invariant VerticalSpec(t, op, la, lb, spec) && At(la, i) && At(lb, i)
      invariant Progress(result, spec, mem0, w0, i)
    {
      Arith.NextStep(i, end, lanes);
      RegStep(t, op, lanes, la, lb, i, result, spec, mem0, w0);
      i := i + lanes;
    }
  }

  /** The scalar tail over `[start, len)`. */
  method TailPhase(t: IntType, op: BinOp, start: nat, len: nat, la: Loader, lb: Loader, result: WriteOnlyBuffer,
                   ghost spec: seq<int>, ghost mem0: seq<int>, ghost w0: seq<nat>)
    requires VerticalSpec(t, op, la, lb, spec) && start <= len == la.projectedLen
    requires At(la, start) && At(lb, start) && Progress(result, spec, mem0, w0, start)
    modifies la, lb, result.buf, result`writes
    ensures Progress(result, spec, mem0, w0, len)
  {
    var i := start;
    while i < len
      invariant start <= i <= len
      invariant VerticalSpec(t, op, la, lb, spec) && At(la, i) && At(lb, i)
      invariant Progress(result, spec, mem0, w0, i)
    {
      ElementStep(t, op, la, lb, i, result, spec, mem0, w0);
      i := i + 1;
    }
  }

  /** The three phases over `[0, len)`. */
  method Phases(t: IntType, op: BinOp, lanes: nat, len: nat, la: Loader, lb: Loader, result: WriteOnlyBuffer,
                ghost spec: seq<int>, ghost mem0: seq<int>, ghost w0: seq<nat>)
    requires lanes >= 1 && VerticalSpec(t, op, la, lb, spec) && la.projectedLen == len
    requires At(la, 0) && At(lb, 0) && Progress(result, spec, mem0, w0, 0)
    modifies la, lb, result.buf, result`writes
    ensures Progress(result, spec, mem0, w0, len)
  {
    var offsetFrom := len % ElementsPerDense(lanes);
    Arith.PhaseBounds(len, ElementsPerDense(lanes), lanes);
    var i := DensePhase(t, op, lanes, len - offsetFrom, la, lb, result, spec, mem0, w0);
    offsetFrom := offsetFrom % lanes;
    i := RegPhase(t, op, lanes, i, len - offsetFrom, la, lb, result, spec, mem0, w0);
    TailPhase(t, op, i, len, la, lb, result, spec, mem0, w0);
  }

  /** `apply_vertical_kernel(a, b, result, op_dense, op, single_op)`:
      panics (`true`, nothing written) unless both operands project onto
      `result.raw_buffer_len()`; otherwise `result[i] = op(a[i], b[i])` over
      the whole buffer, a scalar operand standing for its value at every
      index, and every slot written exactly once. */
  method ApplyVertical(t: IntType, lanes: nat, op: BinOp, a: Operand, b: Operand, result: WriteOnlyBuffer)
    returns (panicked: bool)
    requires lanes >= 1 && result.Valid()
    requires Projectable(b, result.RawBufferLen()) ==> AllDefined(op, Elements(b, result.RawBufferLen()))
    modifies result.buf, result`writes
    ensures result.Valid()
    ensures panicked <==> !(Projectable(a, result.RawBufferLen()) && Projectable(b, result.RawBufferLen()))
    ensures panicked ==> result.buf[..] == old(result.buf[..]) && result.writes == old(result.writes)
    ensures !panicked ==> result.buf[..] == Zip(t, op, Elements(a, result.RawBufferLen()), Elements(b, result.RawBufferLen()))
    ensures !panicked ==> result.writes == Bump(old(result.writes), 0, result.RawBufferLen())
  {
    var len := result.RawBufferLen();
    var ra := IntoProjectedMemLoader(a, len);
    var rb := IntoProjectedMemLoader(b, len);
    if ra.None? || rb.None? {
      return true;
    }
    var la, lb := ra.value, rb.value;
    ghost var spec, mem0, w0 := Zip(t, op, la.View(), lb.View()), result.buf[..], result.writes;
    assert Progress(result, spec, mem0, w0, 0);
    Phases(t, op, lanes, len, la, lb, result, spec, mem0, w0);
    assert spec[..len] == spec && mem0[len..] == [];
    return false;
  }
}
