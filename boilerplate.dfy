/** `core_routine_boilerplate`: the three-phase element-wise kernels. Each
    walks `i` over `[0, dims)` in dense lanes of `8 * L` elements, then in
    registers of `L`, then one element at a time, applying the same op at
    every width: `op_dense`, the register `op` and the scalar `op` are the
    one `BinOp` lifted lane by lane. The result of each kernel is the plain
    element-wise map over `[0, dims)`, written once per slot, with the slots
    past `dims` untouched. The definition of `apply_vertical_kernel` is not
    part of this model; `VerticalKernel` rebuilds it from the loader rules. */
module Boilerplate {
  import opened Wrappers
  import opened IntMath
  import opened ScalarOps
  import opened SimdApi
  import opened Buffer
  import opened MemLoader
  import Arith

  /** Writing the next piece of the specification over a buffer whose
      prefix already holds it extends the prefix. */
  lemma StoreNext(spec: seq<int>, mem: seq<int>, i: nat, piece: seq<int>)
    requires |spec| <= |mem| && i + |piece| <= |spec|
    requires piece == spec[i..i + |piece|]
    ensures Store(spec[..i] + mem[i..], i, piece) == spec[..i + |piece|] + mem[i + |piece|..]
  {
    var n := |piece|;
    var cur := spec[..i] + mem[i..];
    assert cur[..i] == spec[..i];
    assert cur[i + n..] == mem[i + n..];
    assert spec[..i] + piece == spec[..i + n];
  }

  /** Likewise for a single element. */
  lemma UpdateNext(spec: seq<int>, mem: seq<int>, i: nat)
    requires |spec| <= |mem| && i < |spec|
    ensures (spec[..i] + mem[i..])[i := spec[i]] == spec[..i + 1] + mem[i + 1..]
  {
  }

  /** A dense lane of `a` at `i` combined with a dense lane of `b` at `i` is
      the element-wise op over the window `[i, i + 8L)`. */
  lemma DensePiece(t: IntType, op: BinOp, a: seq<int>, b: seq<int>, i: nat, j: nat, lanes: nat)
    requires |a| == |b| && AllDefined(op, b) && j == i + ElementsPerDense(lanes) && j <= |a|
    ensures SameShape(SimdApi.LoadDense(a, i, lanes), SimdApi.LoadDense(b, i, lanes))
    ensures DenseDefined(op, SimdApi.LoadDense(b, i, lanes))
    ensures Uniform(DenseOp(t, op, SimdApi.LoadDense(a, i, lanes), SimdApi.LoadDense(b, i, lanes)), lanes)
    ensures Flatten(DenseOp(t, op, SimdApi.LoadDense(a, i, lanes), SimdApi.LoadDense(b, i, lanes)))
         == Zip(t, op, a, b)[i..j]
  {
    var x, y := SimdApi.LoadDense(a, i, lanes), SimdApi.LoadDense(b, i, lanes);
    LoadDenseDefined(op, b, i, lanes);
    LoadDenseFlatten(a, i, j, lanes);
    LoadDenseFlatten(b, i, j, lanes);
    DenseOpFlatten(t, op, x, y);
    ZipSlice(t, op, a, b, i, j);
  }

  /** One register of `a` at `i` combined with one of `b` is the op over `[i, i + L)`. */
  lemma RegPiece(t: IntType, op: BinOp, a: seq<int>, b: seq<int>, i: nat, lanes: nat)
    requires |a| == |b| && AllDefined(op, b) && i + lanes <= |a|
    ensures AllDefined(op, Load(b, i, lanes))
    ensures Zip(t, op, Load(a, i, lanes), Load(b, i, lanes)) == Zip(t, op, a, b)[i..i + lanes]
  {
    ZipSlice(t, op, a, b, i, i + lanes);
  }

  /** The state every kernel keeps: the first `i` slots hold the
      specification, the rest their old contents, and exactly the first `i`
      slots have been written once more. */
  ghost predicate Progress(result: WriteOnlyBuffer, spec: seq<int>, mem0: seq<int>, w0: seq<nat>, i: nat)
    reads result, result.buf
  {
    result.Valid() && |spec| <= |mem0| == |w0| == result.buf.Length && i <= |spec| &&
    result.buf[..] == spec[..i] + mem0[i..] && result.writes == Bump(w0, 0, i)
  }

  /** `R::write_dense(result_ptr.add(i), mask)` of the next dense piece. */
  method WriteDensePiece(result: WriteOnlyBuffer, lanes: nat, i: nat, j: nat, mask: DenseLane<Register>,
                         ghost spec: seq<int>, ghost mem0: seq<int>, ghost w0: seq<nat>)
    requires Progress(result, spec, mem0, w0, i) && Uniform(mask, lanes)
    requires j == i + ElementsPerDense(lanes) && j <= |spec| && Flatten(mask) == spec[i..j]
    modifies result.buf, result`writes
    ensures Progress(result, spec, mem0, w0, j)
  {
    result.WriteDense(i, lanes, mask);
    StoreNext(spec, mem0, i, Flatten(mask));
    BumpAdjacent(w0, 0, i, ElementsPerDense(lanes));
  }

  /** `R::write(result_ptr.add(i), mask)` of the next register. */
  method WriteRegPiece(result: WriteOnlyBuffer, i: nat, mask: Register,
                       ghost spec: seq<int>, ghost mem0: seq<int>, ghost w0: seq<nat>)
    requires Progress(result, spec, mem0, w0, i)
    requires i + |mask| <= |spec| && mask == spec[i..i + |mask|]
    modifies result.buf, result`writes
    ensures Progress(result, spec, mem0, w0, i + |mask|)
  {
    result.Write(i, mask);
    StoreNext(spec, mem0, i, mask);
    BumpAdjacent(w0, 0, i, |mask|);
  }

  /** `result.write_at(i, value)` of the next element. */
  method WriteElement(result: WriteOnlyBuffer, i: nat, value: int,
                      ghost spec: seq<int>, ghost mem0: seq<int>, ghost w0: seq<nat>)
    requires Progress(result, spec, mem0, w0, i)
    requires i < |spec| && value == spec[i]
    modifies result.buf, result`writes
    ensures Progress(result, spec, mem0, w0, i + 1)
  {
    result.WriteAt(i, value);
    UpdateNext(spec, mem0, i);
    BumpAdjacent(w0, 0, i, 1);
  }

  // ---------------------------------------------------------------- phases
  // The right-hand operand of the element-wise kernels is either the slice
  // `b` or the broadcast `value`; `spec` is the map both kernels promise.

  /** The right-hand dense lane at `i`: `load_dense(b_ptr.add(i))` for a
      slice, `value_dense = DenseLane::copy(filled(value))` for a value. */
  function RhsDense(rhs: Operand, i: nat, lanes: nat): DenseLane<Register>
    requires rhs.Slice? ==> i + ElementsPerDense(lanes) <= |rhs.data|
  {
    match rhs
    case Slice(b) => SimdApi.LoadDense(b, i, lanes)
    case Scalar(v) => Copy(Filled(lanes, v))
  }

  /** The right-hand register at `i`: `load(b_ptr.add(i))` or `value_reg`. */
  function RhsReg(rhs: Operand, i: nat, lanes: nat): Register
    requires rhs.Slice? ==> i + lanes <= |rhs.data|
  {
    match rhs
    case Slice(b) => SimdApi.Load(b, i, lanes)
    case Scalar(v) => Filled(lanes, v)
  }

  /** The right-hand element at `i`: `b[i]` or `value`. */
  function RhsElem(rhs: Operand, i: nat): int
    requires rhs.Slice? ==> i < |rhs.data|
  {
    match rhs
    case Slice(b) => b[i]
    case Scalar(v) => v
  }

  /** What the kernels compute: `op(a[i], b[i])` or `op(a[i], value)`. */
  ghost predicate KernelSpec(t: IntType, op: BinOp, a: seq<int>, rhs: Operand, spec: seq<int>) {
    Projectable(rhs, |a|) && AllDefined(op, Elements(rhs, |a|)) && spec == Zip(t, op, a, Elements(rhs, |a|))
  }

  /** The dense lane of `a` at `i` combined with the right-hand dense lane:
      the next `8 * L` elements of the map. */
  method DenseMask(t: IntType, op: BinOp, lanes: nat, a: seq<int>, rhs: Operand, i: nat, j: nat, ghost spec: seq<int>)
    returns (mask: DenseLane<Register>)
    requires KernelSpec(t, op, a, rhs, spec) && j == i + ElementsPerDense(lanes) && j <= |a|
    ensures Uniform(mask, lanes) && Flatten(mask) == spec[i..j]
  {
    ghost var b := Elements(rhs, |a|);
    DensePiece(t, op, a, b, i, j, lanes);
    if rhs.Scalar? {
      LoadFill(|a|, rhs.value, i, lanes);
    }
    var l1 := SimdApi.LoadDense(a, i, lanes);
    mask := DenseOp(t, op, l1, RhsDense(rhs, i, lanes));
  }

  /** One dense step: the dense mask written at `i`. */
  method DenseStep(t: IntType, op: BinOp, lanes: nat, a: seq<int>, rhs: Operand, i: nat, j: nat, result: WriteOnlyBuffer,
                   ghost spec: seq<int>, ghost mem0: seq<int>, ghost w0: seq<nat>)
    requires KernelSpec(t, op, a, rhs, spec)
    requires j == i + ElementsPerDense(lanes) && j <= |a| && Progress(result, spec, mem0, w0, i)
    modifies result.buf, result`writes
    ensures Progress(result, spec, mem0, w0, j)
  {
    var mask := DenseMask(t, op, lanes, a, rhs, i, j, spec);
    WriteDensePiece(result, lanes, i, j, mask, spec, mem0, w0);
  }

  /** The register of `a` at `i` combined with the right-hand register: the
      next `L` elements of the map. */
  method RegMask(t: IntType, op: BinOp, lanes: nat, a: seq<int>, rhs: Operand, i: nat, ghost spec: seq<int>)
    returns (mask: Register)
    requires KernelSpec(t, op, a, rhs, spec) && i + lanes <= |a|
    ensures mask == spec[i..i + lanes]
  {
    ghost var b := Elements(rhs, |a|);
    RegPiece(t, op, a, b, i, lanes);
    assert SimdApi.Load(b, i, lanes) == RhsReg(rhs, i, lanes);
    var l1 := SimdApi.Load(a, i, lanes);
    mask := Zip(t, op, l1, RhsReg(rhs, i, lanes));
  }

  /** One register step: the register mask written at `i`. */
  method RegStep(t: IntType, op: BinOp, lanes: nat, a: seq<int>, rhs: Operand, i: nat, result: WriteOnlyBuffer,
                 ghost spec: seq<int>, ghost mem0: seq<int>, ghost w0: seq<nat>)
    requires KernelSpec(t, op, a, rhs, spec)
    requires i + lanes <= |a| && Progress(result, spec, mem0, w0, i)
    modifies result.buf, result`writes
    ensures Progress(result, spec, mem0, w0, i + lanes)
  {
    var mask := RegMask(t, op, lanes, a, rhs, i, spec);
    WriteRegPiece(result, i, mask, spec, mem0, w0);
  }

  /** The dense phase: `while i < dims - offset_from` in steps of `8 * L`. */
  method DensePhase(t: IntType, op: BinOp, lanes: nat, a: seq<int>, rhs: Operand, end: nat, result: WriteOnlyBuffer,
                    ghost spec: seq<int>, ghost mem0: seq<int>, ghost w0: seq<nat>) returns (i: nat)
    requires lanes >= 1 && KernelSpec(t, op, a, rhs, spec)
    requires end <= |a| && end % ElementsPerDense(lanes) == 0 && Progress(result, spec, mem0, w0, 0)
    modifies result.buf, result`writes
    ensures i == end && Progress(result, spec, mem0, w0, i)
  {
    var D := ElementsPerDense(lanes);
    i := 0;
    while i < end
      invariant i <= end && (end - i) % D == 0
      invariant Progress(result, spec, mem0, w0, i)
    {
      Arith.NextStep(i, end, D);
      var next := i + D;
      DenseStep(t, op, lanes, a, rhs, i, next, result, spec, mem0, w0);
      i := next;
    }
  }

  /** The register phase: from where the dense phase stopped, in steps of `L`. */
  method RegPhase(t: IntType, op: BinOp, lanes: nat, a: seq<int>, rhs: Operand, start: nat, end: nat, result: WriteOnlyBuffer,
                  ghost spec: seq<int>, ghost mem0: seq<int>, ghost w0: seq<nat>) returns (i: nat)
    requires lanes >= 1 && KernelSpec(t, op, a, rhs, spec)
    requires start <= end <= |a| && (end - start) % lanes == 0 && Progress(result, spec, mem0, w0, start)
    modifies result.buf, result`writes
    ensures i == end && Progress(result, spec, mem0, w0, i)
  {
    i := start;
    while i < end
      invariant i <= end && (end - i) % lanes == 0
      invariant Progress(result, spec, mem0, w0, i)
    {
      Arith.NextStep(i, end, lanes);
      RegStep(t, op, lanes, a, rhs, i, result, spec, mem0, w0);
      i := i + lanes;
    }
  }

  /** The scalar tail: `write_at(i, single_kernel(a[i], rhs))` up to `dims`. */
  method TailPhase(t: IntType, op: BinOp, a: seq<int>, rhs: Operand, start: nat, result: WriteOnlyBuffer,
                   ghost spec: seq<int>, ghost mem0: seq<int>, ghost w0: seq<nat>) returns (i: nat)
    requires KernelSpec(t, op, a, rhs, spec)
    requires start <= |a| && Progress(result, spec, mem0, w0, start)
    modifies result.buf, result`writes
    ensures i == |a| && Progress(result, spec, mem0, w0, i)
  {
    i := start;
    while i < |a|
      invariant i <= |a| && Progress(result, spec, mem0, w0, i)
    {
      ghost var b := Elements(rhs, |a|);
      assert spec[i] == Apply(t, op, a[i], b[i]);
      WriteElement(result, i, Apply(t, op, a[i], RhsElem(rhs, i)), spec, mem0, w0);
      i := i + 1;
    }
  }

  /** The three phases over `[0, dims)`: `offset_from = dims % 8L` ends the
      dense phase, `offset_from % L` the register phase. */
  method ThreePhases(t: IntType, op: BinOp, lanes: nat, dims: nat, a: seq<int>, rhs: Operand, result: WriteOnlyBuffer)
    requires lanes >= 1 && |a| == dims && Projectable(rhs, dims) && AllDefined(op, Elements(rhs, dims))
    requires result.Valid() && dims <= result.RawBufferLen()
    modifies result.buf, result`writes
    ensures result.Valid()
    ensures result.buf[..] == Zip(t, op, a, Elements(rhs, dims)) + old(result.buf[..])[dims..]
    ensures result.writes == Bump(old(result.writes), 0, dims)
  {
    ghost var spec, mem0, w0 := Zip(t, op, a, Elements(rhs, dims)), result.buf[..], result.writes;
    assert Progress(result, spec, mem0, w0, 0);
    var offsetFrom := dims % ElementsPerDense(lanes);
    Arith.PhaseBounds(dims, ElementsPerDense(lanes), lanes);
    var i := DensePhase(t, op, lanes, a, rhs, dims - offsetFrom, result, spec, mem0, w0);
    offsetFrom := offsetFrom % lanes;
    i := RegPhase(t, op, lanes, a, rhs, i, dims - offsetFrom, result, spec, mem0, w0);
    i := TailPhase(t, op, a, rhs, i, result, spec, mem0, w0);
    assert spec[..i] == spec;
  }

  /** `apply_vector_x_value_kernel`: `result[i] = op(a[i], value)` for every
      `i < dims`, each slot written once and nothing past `dims` touched. */
  method ApplyVectorXValue(t: IntType, lanes: nat, op: BinOp, dims: nat, value: int, a: seq<int>, result: WriteOnlyBuffer)
    requires lanes >= 1 && |a| == dims && Defined(op, value)
    requires result.Valid() && dims <= result.RawBufferLen()
    modifies result.buf, result`writes
    ensures result.Valid()
    ensures result.buf[..] == Zip(t, op, a, Fill(dims, value)) + old(result.buf[..])[dims..]
    ensures result.writes == Bump(old(result.writes), 0, dims)
  {
    ThreePhases(t, op, lanes, dims, a, Scalar(value), result);
  }

  /** `apply_vector_x_vector_kernel`: `result[i] = op(a[i], b[i])` for every
      `i < dims`, each slot written once and nothing past `dims` touched. */
  method ApplyVectorXVector(t: IntType, lanes: nat, op: BinOp, dims: nat, a: seq<int>, b: seq<int>, result: WriteOnlyBuffer)
    requires lanes >= 1 && |a| == dims && |b| == dims && AllDefined(op, b)
    requires result.Valid() && dims <= result.RawBufferLen()
    modifies result.buf, result`writes
    ensures result.Valid()
    ensures result.buf[..] == Zip(t, op, a, b) + old(result.buf[..])[dims..]
    ensures result.writes == Bump(old(result.writes), 0, dims)
  {
    ThreePhases(t, op, lanes, dims, a, Slice(b), result);
  }
}
