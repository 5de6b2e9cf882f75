/** `danger::utils`: the helpers the per-instruction-set kernels share that do
    not depend on the instruction set itself: the shuffle-immediate encoder,
    the second `cosine`, the eight-accumulator rollup, the pointer offsets
    of the four registers of a chunk and the element counts of the register
    copies. */
module DangerUtils {
  import opened Wrappers
  import opened IntMath
  import opened Monoids
  import AggregateOps

  // ------------------------------------------------------------ _MM_SHUFFLE

  /** `_MM_SHUFFLE(z, y, x, w)`: the four selectors packed two bits apart,
      `z` highest (the `u32` pattern that the final `as i32` reinterprets). */
  function MmShuffle(z: bv32, y: bv32, x: bv32, w: bv32): bv32 {
    (z << 6) | (y << 4) | (x << 2) | w
  }

  /** For selectors below 4 the immediate fits in one byte, so the `as i32`
      keeps its value, and each selector is recoverable from its own two
      bits. */
  lemma MmShuffleFields(z: bv32, y: bv32, x: bv32, w: bv32)
    requires z < 4 && y < 4 && x < 4 && w < 4
    ensures MmShuffle(z, y, x, w) < 256
    ensures var r := MmShuffle(z, y, x, w);
      (r >> 6) & 3 == z && (r >> 4) & 3 == y && (r >> 2) & 3 == x && r & 3 == w
  {
  }

  // ----------------------------------------------------------------- cosine

  /** `utils::cosine`: zero when both norms are zero and also when only one
      is; otherwise `1 - dot / sqrt(norm_x * norm_y)`. `None` is the panic of
      an integer division by a zero root. */
  function Cosine(t: IntType, sqrt: int -> int, dot: int, normX: int, normY: int): (r: Option<int>)
    ensures normX == 0 || normY == 0 ==> r == Some(0)
    ensures r.None? <==> normX != 0 && normY != 0 && sqrt(IntMath.Mul(t, normX, normY)) == 0
  {
    if CmpEq(normX, Zero(t)) && CmpEq(normY, Zero(t)) then Some(Zero(t))
    else if CmpEq(normX, Zero(t)) || CmpEq(normY, Zero(t)) then Some(Zero(t))
    else
      var root := sqrt(IntMath.Mul(t, normX, normY));
      if root == 0 then None
      else Some(IntMath.Sub(t, One(t), IntMath.Div(t, dot, root)))
  }

  /** The two `cosine`s agree except when exactly one norm is zero, where
      this one gives zero and `op_cosine`'s gives one. */
  lemma CosineVariants(t: IntType, sqrt: int -> int, dot: int, normX: int, normY: int)
    ensures (normX == 0) == (normY == 0) ==>
      Cosine(t, sqrt, dot, normX, normY) == AggregateOps.Cosine(t, sqrt, dot, normX, normY)
    ensures (normX == 0) != (normY == 0) ==>
      Cosine(t, sqrt, dot, normX, normY) == Some(0) && AggregateOps.Cosine(t, sqrt, dot, normX, normY) == Some(1)
  {
  }

  // ------------------------------------------------------- rollup_scalar_x8

  /** `rollup_scalar_x8`: the eight accumulators added pairwise,
      `((a1 + a2) + (a3 + a4)) + ((a5 + a6) + (a7 + a8))`. */
  function RollupScalarX8(t: IntType, a1: int, a2: int, a3: int, a4: int, a5: int, a6: int, a7: int, a8: int): (r: int)
    ensures InRange(t, r)
  {
    var s12, s34, s56, s78 := IntMath.Add(t, a1, a2), IntMath.Add(t, a3, a4), IntMath.Add(t, a5, a6), IntMath.Add(t, a7, a8);
    IntMath.Add(t, IntMath.Add(t, s12, s34), IntMath.Add(t, s56, s78))
  }

  /** The rollup is the exact sum of the eight accumulators, wrapped once:
      the pairing order does not change a wrapping sum. */
  lemma RollupIsWrappedSum(t: IntType, a1: int, a2: int, a3: int, a4: int, a5: int, a6: int, a7: int, a8: int)
    ensures RollupScalarX8(t, a1, a2, a3, a4, a5, a6, a7, a8) == Wrap(t, a1 + a2 + a3 + a4 + a5 + a6 + a7 + a8)
  {
    var lo, hi := a1 + a2 + (a3 + a4), a5 + a6 + (a7 + a8);
    var total := a1 + a2 + a3 + a4 + a5 + a6 + a7 + a8;
    var left := IntMath.Add(t, IntMath.Add(t, a1, a2), IntMath.Add(t, a3, a4));
    var right := IntMath.Add(t, IntMath.Add(t, a5, a6), IntMath.Add(t, a7, a8));
    assert left == Wrap(t, lo) by { AddWrapped(t, a1 + a2, a3 + a4); }
    assert right == Wrap(t, hi) by { AddWrapped(t, a5 + a6, a7 + a8); }
    assert IntMath.Add(t, left, right) == Wrap(t, lo + hi) by { AddWrapped(t, lo, hi); }
    assert lo + hi == total;
  }

  /** The rollup is the pairwise tree of the sum monoid. */
  lemma RollupIsTree8(t: IntType, a1: int, a2: int, a3: int, a4: int, a5: int, a6: int, a7: int, a8: int)
    ensures RollupScalarX8(t, a1, a2, a3, a4, a5, a6, a7, a8) == Tree8(t, SumM, a1, a2, a3, a4, a5, a6, a7, a8)
  {
  }

  /** Eight zeros roll up to zero and eight ones to eight, in every type. */
  lemma RollupExamples(t: IntType)
    ensures RollupScalarX8(t, 0, 0, 0, 0, 0, 0, 0, 0) == 0
    ensures RollupScalarX8(t, 1, 1, 1, 1, 1, 1, 1, 1) == 8
  {
    RollupIsWrappedSum(t, 0, 0, 0, 0, 0, 0, 0, 0);
    RollupIsWrappedSum(t, 1, 1, 1, 1, 1, 1, 1, 1);
    assert InRange(t, 8);
  }

  // -------------------------------------------------------------- offsets_*

  /** The four register offsets of chunk `chunk` for registers of `width`
      elements: `chunk * 4 * width + {0, width, 2 * width, 3 * width}`. */
  function Offsets(chunk: nat, width: nat): (r: seq<nat>)
    ensures |r| == 4
  {
    var base := chunk * (4 * width);
    [base, base + width, base + 2 * width, base + 3 * width]
  }

  /** `offsets_avx2_ps::<C>`: eight-lane `f32` registers. */
  function OffsetsAvx2Ps(chunk: nat): (r: seq<nat>)
    ensures r == Offsets(chunk, 8)
  {
    [chunk * 32, chunk * 32 + 8, chunk * 32 + 16, chunk * 32 + 24]
  }

  /** `offsets_avx2_pd::<C>`: four-lane `f64` registers. */
  function OffsetsAvx2Pd(chunk: nat): (r: seq<nat>)
    ensures r == Offsets(chunk, 4)
  {
    [chunk * 16, chunk * 16 + 4, chunk * 16 + 8, chunk * 16 + 12]
  }

  /** `offsets_avx512_ps::<C>`: sixteen-lane `f32` registers. */
  function OffsetsAvx512Ps(chunk: nat): (r: seq<nat>)
    ensures r == Offsets(chunk, 16)
  {
    [chunk * 64, chunk * 64 + 16, chunk * 64 + 32, chunk * 64 + 48]
  }

  /** `offsets_avx512_pd::<C>`: eight-lane `f64` registers. */
  function OffsetsAvx512Pd(chunk: nat): (r: seq<nat>)
    ensures r == Offsets(chunk, 8)
  {
    [chunk * 32, chunk * 32 + 8, chunk * 32 + 16, chunk * 32 + 24]
  }

  /** Offset `k` of chunk `c` is the start of register `4c + k`, so the
      registers of successive chunks tile memory without gap or overlap. */
  lemma {:induction false} OffsetsTile(chunk: nat, width: nat, k: nat)
    requires k < 4
    ensures Offsets(chunk, width)[k] == (4 * chunk + k) * width
    ensures k < 3 ==> Offsets(chunk, width)[k + 1] == Offsets(chunk, width)[k] + width
    ensures Offsets(chunk + 1, width)[0] == Offsets(chunk, width)[3] + width
  {
    var base := chunk * (4 * width);
    assert base == 4 * chunk * width;
    assert (4 * chunk + k) * width == 4 * chunk * width + k * width;
    assert (chunk + 1) * (4 * width) == base + 4 * width;
  }

  /** The first chunk's offsets, as the tests expect: `0, 8, 16, 24` for
      eight-lane and `0, 16, 32, 48` for sixteen-lane registers. */
  lemma OffsetsChunkZero()
    ensures OffsetsAvx2Ps(0) == [0, 8, 16, 24]
    ensures OffsetsAvx512Ps(0) == [0, 16, 32, 48]
  {
  }

  // ------------------------------------------------------ register copies

  /** `copy_masked_avx512_{ps,pd}_register_to`: copies the first
      `min(len, |reg|)` elements of the register into `arr`, capped so it
      never reads past the register; the rest of `arr` is untouched. */
  method CopyMaskedRegisterTo(arr: array<int>, reg: seq<int>, len: nat) returns (copied: nat)
    requires (if len < |reg| then len else |reg|) <= arr.Length
    modifies arr
    ensures copied == (if len < |reg| then len else |reg|)
    ensures copied <= len && copied <= |reg|
    ensures forall j :: 0 <= j < copied ==> arr[j] == reg[j]
    ensures forall j :: copied <= j < arr.Length ==> arr[j] == old(arr[j])
  {
    copied := if len < |reg| then len else |reg|;
    var k := 0;
    while k < copied
      invariant 0 <= k <= copied
      invariant forall j :: 0 <= j < k ==> arr[j] == reg[j]
      invariant forall j :: k <= j < arr.Length ==> arr[j] == old(arr[j])
    {
      arr[k] := reg[k];
      k := k + 1;
    }
  }

  /** `copy_avx2_{ps,pd}_register_to`: copies the whole register. */
  method CopyRegisterTo(arr: array<int>, reg: seq<int>)
    requires |reg| <= arr.Length
    modifies arr
    ensures forall j :: 0 <= j < |reg| ==> arr[j] == reg[j]
    ensures forall j :: |reg| <= j < arr.Length ==> arr[j] == old(arr[j])
  {
    var copied := CopyMaskedRegisterTo(arr, reg, |reg|);
  }
}
