/** The memory layouts the `cfavml-gemm` f32 AVX2/FMA kernel prepares its
    operands in: a row-major matrix cut into stripes 16 columns wide, laid
    out stripe after stripe. */
module GemmLayout {
  import opened Wrappers
  import opened GemmTranspose
  import Buffer
  import AlignedBuffer

  /** Where position `q` of the 16-wide layout of a matrix `width` wide
      reads from: stripe `q / (16 * height)`, row `(q % (16 * height)) / 16`
      of that stripe, column `(q % (16 * height)) % 16` inside it. */
  function LayoutSource(width: nat, height: nat, q: nat): nat
    requires height > 0
  {
    16 * (q / (16 * height)) + ((q % (16 * height)) / 16) * width + (q % (16 * height)) % 16
  }

  /** The 16-wide stripe layout of a row-major `width` x `height` matrix. */
  function Layout16(width: nat, height: nat, from: seq<int>): (r: seq<int>)
    requires width % 16 == 0 && |from| == width * height
    ensures |r| == width * height
  {
    seq(width * height, q requires 0 <= q < width * height =>
      LayoutBound(width, height, q);
      from[LayoutSource(width, height, q)])
  }

  /** Every position of the layout reads inside the matrix. */
  lemma LayoutBound(width: nat, height: nat, q: nat)
    requires width % 16 == 0 && q < width * height
    ensures height > 0 && LayoutSource(width, height, q) < width * height
  {
    var stripes := width / 16;
    assert width * height == stripes * (16 * height);
    var b, rest := q / (16 * height), q % (16 * height);
    DivMod(q, 16 * height);
    if b >= stripes {
      MulMono(stripes, b, 16 * height);
      assert false;
    }
    var j := rest / 16;
    DivMod(rest, 16);
    MulMono(j, height - 1, width);
    MulMono(b + 1, stripes, 16);
    assert (height - 1) * width + width == width * height;
  }

  /** Stripe `i`, row `j`, column `k` is a position inside the layout
      and a cell inside the matrix. */
  lemma StripeBounds(width: nat, height: nat, i: nat, j: nat, k: nat)
    requires i + 16 <= width && j < height && k < 16
    ensures i * height + 16 * j + k < width * height && i + j * width + k < width * height
  {
    MulMono(j + 1, height, 16);
    MulMono(i + 16, width, height);
    assert (i + 16) * height == i * height + 16 * height;
    MulMono(j + 1, height, width);
  }

  /** Stripe `i`, row `j`, column `k` sits at position
      `i * height + 16 * j + k` of the layout, which reads cell
      `i + j * width + k` of the matrix. */
  lemma StripeCell(width: nat, height: nat, i: nat, j: nat, k: nat)
    requires i % 16 == 0 && j < height && k < 16
    ensures LayoutSource(width, height, i * height + 16 * j + k) == i + j * width + k
  {
    var b := i / 16;
    DivMod(i, 16);
    assert i * height == b * (16 * height);
    MulMono(j + 1, height, 16);
    CellIndex(16 * height, b, 16 * j + k);
    CellIndex(16, j, k);
  }

  /** The cell the copy loop writes for stripe `i`, row `j`, column `k`:
      position `i * height + 16 * j + k` holds `from[i + j * width + k]`. */
  lemma LayoutCell(width: nat, height: nat, from: seq<int>, i: nat, j: nat, k: nat)
    requires width % 16 == 0 && |from| == width * height
    requires i % 16 == 0 && i + 16 <= width && j < height && k < 16
    ensures i * height + 16 * j + k < width * height && i + j * width + k < width * height
    ensures Layout16(width, height, from)[i * height + 16 * j + k] == from[i + j * width + k]
  {
    StripeBounds(width, height, i, j, k);
    StripeCell(width, height, i, j, k);
  }

  /** One row of one stripe: two 8-wide copies from `from[offset..]` to
      `to[writeOffset..]`. */
  method CopyRowOfStripe(from: seq<int>, to: array<int>, offset: nat, writeOffset: nat)
    requires offset + 16 <= |from| && writeOffset + 16 <= to.Length
    modifies to
    ensures forall q :: writeOffset <= q < writeOffset + 16 ==> to[q] == from[offset + (q - writeOffset)]
    ensures forall q :: 0 <= q < to.Length && !(writeOffset <= q < writeOffset + 16) ==> to[q] == old(to[q])
  {
    forall k | 0 <= k < 8 {
      to[writeOffset + k] := from[offset + k];
    }
    forall k | 0 <= k < 8 {
      to[writeOffset + 8 + k] := from[offset + 8 + k];
    }
  }

  /** The rows of a stripe, copied to their place in the layout. */
  lemma StripeRowDone(width: nat, height: nat, from: seq<int>, out: seq<int>, i: nat, j: nat, writeOffset: nat)
    requires width % 16 == 0 && |from| == width * height && width * height <= |out|
    requires i % 16 == 0 && i + 16 <= width && j < height && writeOffset == i * height + 16 * j
    requires i + j * width + 16 <= |from| && writeOffset + 16 <= width * height
    requires forall q :: writeOffset <= q < writeOffset + 16 ==> out[q] == from[i + j * width + (q - writeOffset)]
    ensures forall q :: writeOffset <= q < writeOffset + 16 ==> out[q] == Layout16(width, height, from)[q]
  {
    LayoutCell(width, height, from, i, j, 15);
    forall q | writeOffset <= q < writeOffset + 16
      ensures out[q] == Layout16(width, height, from)[q]
    {
      LayoutCell(width, height, from, i, j, q - writeOffset);
    }
  }

  /** The row `j` of stripe `i` starts inside the matrix. */
  lemma RowInside(width: nat, height: nat, i: nat, j: nat)
    requires i + 16 <= width && j < height
    ensures i + j * width + 16 <= width * height
  {
    MulMono(j + 1, height, width);
  }

  /** The inner loop of `copy_16wide_layout`: the `height` rows of the
      stripe starting at column `i`, appended to the layout at
      `writeOffset`, which grows by 16 per row. */
  method CopyStripe(width: nat, height: nat, from: seq<int>, to: array<int>, i: nat, writeOffset: nat,
                    ghost layout: seq<int>)
    returns (next: nat)
    requires width % 16 == 0 && |from| == width * height && width * height <= to.Length
    requires layout == Layout16(width, height, from)
    requires i % 16 == 0 && i + 16 <= width && writeOffset == i * height
    requires writeOffset + 16 * height <= width * height
    requires forall q :: 0 <= q < writeOffset ==> to[q] == layout[q]
    modifies to
    ensures next == writeOffset + 16 * height
    ensures forall q :: 0 <= q < next ==> to[q] == layout[q]
    ensures forall q :: next <= q < to.Length ==> to[q] == old(to[q])
  {
    next := writeOffset;
    for j := 0 to height
      invariant next == writeOffset + 16 * j
      invariant forall q :: 0 <= q < next ==> to[q] == layout[q]
      invariant forall q :: next <= q < to.Length ==> to[q] == old(to[q])
    {
      RowInside(width, height, i, j);
      LayoutCell(width, height, from, i, j, 15);
      var offset := i + j * width;
      CopyRowOfStripe(from, to, offset, next);
      StripeRowDone(width, height, from, to[..], i, j, next);
      next := next + 16;
    }
  }

  /** `copy_16wide_layout`: stripe after stripe (`i` stepping by 16), row
      after row, 16 values to the next free place of `to`. With `width` a
      multiple of 16, the caller's obligation, every read stays inside the
      matrix and exactly `width * height` values are written, forming the
      stripe layout; the rest of `to` is untouched. */
  method CopyLayout16(width: nat, height: nat, from: seq<int>, to: array<int>)
    requires width % 16 == 0 && |from| == width * height && width * height <= to.Length
    modifies to
    ensures to[..width * height] == Layout16(width, height, from)
    ensures to[width * height..] == old(to[width * height..])
  {
    ghost var layout := Layout16(width, height, from);
    var writeOffset := 0;
    var i := 0;
    while i < width
      invariant i % 16 == 0 && i <= width && writeOffset == i * height
      invariant forall q :: 0 <= q < writeOffset ==> to[q] == layout[q]
      invariant forall q :: writeOffset <= q < to.Length ==> to[q] == old(to[q])
    {
      MulMono(i + 16, width, height);
      writeOffset := CopyStripe(width, height, from, to, i, writeOffset, layout);
      i := i + 16;
    }
  }

  /** `copy_4wide_layout`: its body is the same as `copy_16wide_layout`'s
      (16-wide stripes), whatever its name says. */
  method CopyLayout4(width: nat, height: nat, from: seq<int>, to: array<int>)
    requires width % 16 == 0 && |from| == width * height && width * height <= to.Length
    modifies to
    ensures to[..width * height] == Layout16(width, height, from)
    ensures to[width * height..] == old(to[width * height..])
  {
    CopyLayout16(width, height, from, to);
  }

  /** A matrix exactly one stripe wide is its own layout. */
  lemma OneStripeIsIdentity(height: nat, from: seq<int>)
    requires |from| == 16 * height
    ensures Layout16(16, height, from) == from
  {
    forall q | 0 <= q < 16 * height
      ensures Layout16(16, height, from)[q] == from[q]
    {
      CellIndex(16 * height, 0, q);
    }
  }

  /** The position of cell `p` (row `p / width`, column `p % width`) in
      the layout: stripe `p % width / 16`, row `p / width` of that stripe,
      column `p % width % 16` inside it. */
  function LayoutPosition(width: nat, height: nat, p: nat): nat
    requires width > 0
  {
    var stripe: nat := p % width / 16 * 16;
    var row: nat := p / width;
    stripe * height + 16 * row + p % width % 16
  }

  /** Cell `p` is the stripe cell `(p % width / 16 * 16, p / width,
      p % width % 16)`, so its position is inside the layout and the
      layout reads it back from there. */
  lemma PositionOfCell(width: nat, height: nat, p: nat)
    requires width % 16 == 0 && p < width * height
    ensures width > 0 && LayoutPosition(width, height, p) < width * height
    ensures LayoutSource(width, height, LayoutPosition(width, height, p)) == p
  {
    assert width > 0;
    DivMod(p, width);
    DivBounds(p, width);
    var row: nat, col: nat := p / width, p % width;
    DivMod(col, 16);
    var stripe: nat, k: nat := col / 16, col % 16;
    var i: nat := stripe * 16;
    assert p == row * width + col && col == i + k;
    if row >= height {
      MulMono(height, row, width);
      assert false;
    }
    CellIndex(16, stripe, 0);
    StripeBounds(width, height, i, row, k);
    StripeCell(width, height, i, row, k);
    assert LayoutPosition(width, height, p) == i * height + 16 * row + k;
  }

  /** Quotient and remainder of a natural number by a positive one are
      natural, the remainder below the divisor. */
  lemma DivBounds(p: nat, d: nat)
    requires d > 0
    ensures 0 <= p / d && 0 <= p % d < d
  {
  }

  /** Reading each cell back from its position in a layout. */
  function Unlayout16(width: nat, height: nat, layout: seq<int>): (r: seq<int>)
    requires width % 16 == 0 && |layout| == width * height
    ensures |r| == width * height
  {
    seq(width * height, p requires 0 <= p < width * height =>
      PositionOfCell(width, height, p);
      layout[LayoutPosition(width, height, p)])
  }

  /** The layout only moves values: reading it back cell by cell gives
      the original matrix. */
  lemma UnlayoutLayout(width: nat, height: nat, from: seq<int>)
    requires width % 16 == 0 && |from| == width * height
    ensures Unlayout16(width, height, Layout16(width, height, from)) == from
  {
    forall p | 0 <= p < width * height
      ensures Unlayout16(width, height, Layout16(width, height, from))[p] == from[p]
    {
      PositionOfCell(width, height, p);
    }
  }

  /** The layout of the 32 x 16 matrix of the crate's own example: the
      first stripe holds the left halves of the rows, so position 16 is
      the start of row 1, and the second stripe starts with column 16 of
      row 0. */
  lemma LayoutExample(from: seq<int>)
    requires |from| == 32 * 16
    ensures Layout16(32, 16, from)[16] == from[32]
    ensures Layout16(32, 16, from)[256] == from[16]
    ensures Layout16(32, 16, from)[511] == from[511]
  {
    LayoutCell(32, 16, from, 0, 1, 0);
    LayoutCell(32, 16, from, 16, 0, 0);
    LayoutCell(32, 16, from, 16, 15, 15);
  }

  // ----------------------------------------------------------- operands

  /** `prep_column_matrix_component`: a zeroed aligned buffer of
      `width * height` f32 values with the 16-wide layout of `data` copied
      into it. */
  method PrepColumn(width: nat, height: nat, data: seq<int>) returns (buffer: AlignedBuffer.AlignedBuffer)
    requires width % 16 == 0 && |data| == width * height
    ensures fresh(buffer) && buffer.Valid() && buffer.len == width * height
    ensures buffer.AsSlice() == Layout16(width, height, data)
  {
    buffer := new AlignedBuffer.AlignedBuffer.Zeroed(4, width * height);
    CopyLayout16(width, height, data, buffer.slots);
  }

  /** `prep_row_matrix_component` as written: `Vec::with_capacity` gives
      an empty vector, and `copy_from_slice` panics (`None`) unless `data`
      is as long, that is empty; `transpose_matrix` then panics unless the
      empty `data` has the declared `width * height` values. */
  function PrepRowAsWritten(width: nat, height: nat, data: seq<int>): (r: Option<seq<int>>)
    ensures r.Some? <==> |data| == 0 && width * height == 0
    ensures r.Some? ==> r.value == []
  {
    var layout: seq<int> := [];
    if |layout| != |data| then None
    else if |data| != width * height then None
    else Some(layout)
  }

  /** A 1 x 1 matrix already panics as written. */
  lemma PrepRowPanicsOnAnyData()
    ensures PrepRowAsWritten(1, 1, [7]) == None
  {
  }

  /** `prep_row_matrix_component` as intended: a buffer of `width * height`
      values holding `data`, then transposed in place of the copy by
      `transpose_matrix` (the kernel's operands are f32). It panics only
      when `data` does not have the declared shape. */
  method PrepRow(avx2: bool, width: nat, height: nat, data: seq<int>) returns (panicked: bool, buffer: array<int>)
    ensures fresh(buffer)
    ensures panicked <==> |data| != width * height
    ensures !panicked ==> buffer.Length == |data|
    ensures !panicked && height > 0 && (avx2 || width == 1 || height == 1) ==>
      buffer[..] == BasicTranspose(width, height, data)
    ensures !panicked && height > 0 && !avx2 && width >= 2 && height >= 2 ==> buffer[..] == data
  {
    buffer := new int[|data|](p requires 0 <= p < |data| => data[p]);
    assert buffer[..] == data;
    panicked := TransposeMatrix(Buffer.F32, avx2, width, height, data, buffer);
  }

  /** The intended version prepares any matrix of its declared shape; for
      the 1 x 1 matrix `[7]` it gives `[7]` where the written one panics. */
  method PrepRowOneByOne() returns (buffer: array<int>)
    ensures buffer[..] == [7] && PrepRowAsWritten(1, 1, [7]).None?
  {
    var panicked;
    panicked, buffer := PrepRow(false, 1, 1, [7]);
    assert BasicTranspose(1, 1, [7])[0] == 7;
  }

  // ------------------------------------------------------------- matmul

  /** The hard assertions of `matmul`: it panics unless all four
      dimensions are multiples of 16. */
  function MatmulShape(aWidth: nat, aHeight: nat, bWidth: nat, bHeight: nat): (r: Option<()>)
    ensures r.Some? <==> aWidth % 16 == 0 && bWidth % 16 == 0 && aHeight % 16 == 0 && bHeight % 16 == 0
  {
    if aWidth % 16 != 0 || bWidth % 16 != 0 || aHeight % 16 != 0 || bHeight % 16 != 0 then None
    else Some(())
  }

  /** A shape `matmul` accepts lets it prepare `b` in the stripe layout:
      the width condition of `copy_16wide_layout` holds. */
  lemma MatmulShapeEnablesLayout(aWidth: nat, aHeight: nat, bWidth: nat, bHeight: nat, b: seq<int>)
    requires MatmulShape(aWidth, aHeight, bWidth, bHeight).Some? && |b| == bWidth * bHeight
    ensures |Layout16(bWidth, bHeight, b)| == |b|
    ensures Unlayout16(bWidth, bHeight, Layout16(bWidth, bHeight, b)) == b
  {
    UnlayoutLayout(bWidth, bHeight, b);
  }
}
