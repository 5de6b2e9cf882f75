/** Sub-buffer selection of `cfavml-gemm` over a row-major matrix: `N`
    whole rows at a time, or the same `N` columns of every row. */
module GemmManipulation {

  import opened GemmTranspose

  // ------------------------------------------------------------ row-wise

  /** The `offset`-th group of `n` rows of a matrix `width` wide. */
  function RowBlock(n: nat, width: nat, offset: nat, input: seq<int>): (r: seq<int>)
    requires (offset + 1) * n * width <= |input|
    ensures |r| == n * width
  {
    assert (offset + 1) * n * width == offset * n * width + n * width;
    input[offset * n * width..offset * n * width + n * width]
  }

  /** `select_row_major_row_wise_sub_buffer::<T, N>`: one bulk copy of the
      `width * N` values starting at `offset * N * width` to the front of
      `output`. The debug assertions ask for `N` and `width` non-zero and
      both buffers at least `width * N` long; the copy reads
      `input[offset * N * width..(offset + 1) * N * width]`, which the
      caller must keep inside `input`. The rest of `output` is untouched. */
  method SelectRowWise(n: nat, width: nat, offset: nat, input: seq<int>, output: array<int>)
    requires n != 0 && width != 0 && output.Length >= width * n && |input| >= width * n
    requires (offset + 1) * n * width <= |input|
    modifies output
    ensures output[..n * width] == RowBlock(n, width, offset, input)
    ensures output[n * width..] == old(output[n * width..])
  {
    var trueOffset := offset * n * width;
    assert (offset + 1) * n * width == trueOffset + n * width;
    forall k | 0 <= k < width * n {
      output[k] := input[trueOffset + k];
    }
  }

  /** The row groups tile the matrix: the first `count` groups, one after
      another, are the first `count * n` rows. */
  lemma {:induction false} RowBlocksTile(n: nat, width: nat, count: nat, input: seq<int>)
    requires count * n * width <= |input|
    ensures Tiles(n, width, count, input) == input[..count * n * width]
    decreases count
  {
    if count > 0 {
      assert (count - 1) * n * width == count * n * width - n * width;
      RowBlocksTile(n, width, count - 1, input);
      assert input[..count * n * width] == input[..(count - 1) * n * width] + RowBlock(n, width, count - 1, input);
    }
  }

  /** The first `count` row groups concatenated. */
  function Tiles(n: nat, width: nat, count: nat, input: seq<int>): seq<int>
    requires count * n * width <= |input|
  {
    if count == 0 then []
    else
      assert (count - 1) * n * width == count * n * width - n * width;
      Tiles(n, width, count - 1, input) + RowBlock(n, width, count - 1, input)
  }

  // ---------------------------------------------------------- column-wise

  /** The columns `[offset * n, offset * n + n)` of every row of a matrix
      `width` wide, row after row: position `q` holds row `q / n`, column
      `offset * n + q % n`. */
  function ColumnBlock(n: nat, width: nat, height: nat, offset: nat, input: seq<int>): (r: seq<int>)
    requires n > 0 && |input| == height * width && offset * n + n <= width
    ensures |r| == height * n
  {
    seq(height * n, q requires 0 <= q < height * n =>
      ColumnSource(n, width, height, offset, q);
      input[(q / n) * width + offset * n + q % n])
  }

  /** The source of each position of a column block lies inside the
      matrix. */
  lemma ColumnSource(n: nat, width: nat, height: nat, offset: nat, q: nat)
    requires n > 0 && q < height * n && offset * n + n <= width
    ensures 0 <= q / n < height && 0 <= q % n < n
    ensures (q / n) * width + offset * n + q % n < height * width
  {
    DivMod(q, n);
    var row := q / n;
    if row >= height {
      MulMono(height, row, n);
      assert false;
    }
    MulMono(row + 1, height, width);
  }

  /** Within row `r` of a column block, position `r * n + c` holds column
      `offset * n + c` of row `r`. */
  lemma ColumnBlockRow(n: nat, width: nat, height: nat, offset: nat, input: seq<int>, r: nat, q: nat)
    requires n > 0 && |input| == height * width && offset * n + n <= width
    requires r < height && r * n <= q < r * n + n
    requires r * n + n <= height * n && r * width + offset * n + n <= |input|
    ensures ColumnBlock(n, width, height, offset, input)[q] == input[r * width + offset * n + (q - r * n)]
  {
    var c := q - r * n;
    CellIndex(n, r, c);
    assert q / n == r && q % n == c;
    var block := ColumnBlock(n, width, height, offset, input);
    assert block[q] == input[(q / n) * width + offset * n + q % n];
    assert (q / n) * width + offset * n + q % n == r * width + offset * n + c;
  }

  /** A row copied to its place in `out` agrees with the column block
      there. */
  lemma RowDone(n: nat, width: nat, height: nat, offset: nat, input: seq<int>, out: seq<int>, r: nat)
    requires n > 0 && |input| == height * width && offset * n + n <= width
    requires r < height && r * width + offset * n + n <= |input| && r * n + n <= height * n <= |out|
    requires forall q :: r * n <= q < r * n + n ==> out[q] == input[r * width + offset * n + (q - r * n)]
    ensures forall q :: r * n <= q < r * n + n ==> out[q] == ColumnBlock(n, width, height, offset, input)[q]
  {
    forall q | r * n <= q < r * n + n
      ensures out[q] == ColumnBlock(n, width, height, offset, input)[q]
    {
      ColumnBlockRow(n, width, height, offset, input, r, q);
    }
  }

  /** One iteration of the column-block loop: the `n` values of the row
      starting at `xOffset`, from column `offset * n` on, to
      `output[step..]`. */
  method CopyRowSlice(n: nat, offset: nat, input: seq<int>, output: array<int>, xOffset: nat, step: nat)
    requires xOffset + offset * n + n <= |input| && step + n <= output.Length
    modifies output
    ensures forall q :: step <= q < step + n ==> output[q] == input[xOffset + offset * n + (q - step)]
    ensures forall q :: 0 <= q < output.Length && !(step <= q < step + n) ==> output[q] == old(output[q])
  {
    forall c | 0 <= c < n {
      output[step + c] := input[xOffset + offset * n + c];
    }
  }

  /** `select_row_major_column_row_blocks_sub_buffer::<T, N>`: for every
      row (`x_offset` stepping by `width = input.len() / height`), `N`
      values from column `offset * N` to `output[step..]`, `step` growing
      by `N`. The loop runs `height` times and fills exactly the first
      `height * N` values of `output`. The debug assertions ask for
      non-zero `N` and `height`, buffers at least `height * N` long and
      `input.len()` a multiple of `height`; the caller must keep
      `offset * N + N` within the row. */
  method SelectColumnBlocks(n: nat, height: nat, offset: nat, input: seq<int>, output: array<int>)
    requires n != 0 && height != 0 && output.Length >= height * n && |input| >= height * n
    requires |input| % height == 0
    requires offset * n + n <= |input| / height
    modifies output
    ensures output[..height * n] == ColumnBlock(n, |input| / height, height, offset, input)
    ensures output[height * n..] == old(output[height * n..])
  {
    var len := |input|;
    var width := len / height;
    WidthOfRows(n, height, len);
    ghost var block := ColumnBlock(n, width, height, offset, input);
    var xOffset, step := 0, 0;
    ghost var r := 0;
    while xOffset < len
      invariant r <= height && xOffset == r * width && step == r * n
      invariant forall q :: 0 <= q < step ==> output[q] == block[q]
      invariant forall q :: step <= q < output.Length ==> output[q] == old(output[q])
      decreases len - xOffset
    {
      NextRow(width, height, r);
      MulMono(r + 1, height, n);
      CopyRow(n, width, height, offset, input, output, xOffset, step, r, block);
      xOffset, step, r := xOffset + width, step + n, r + 1;
    }
    NextRow(width, height, r);
  }

  /** A non-empty matrix `height` rows high has rows of non-zero width. */
  lemma WidthOfRows(n: nat, height: nat, len: nat)
    requires n != 0 && height != 0 && len >= height * n && len % height == 0
    ensures len == height * (len / height) && len / height > 0
  {
    MulMono(1, height, n);
  }

  /** Row `r` starts before the end of the matrix exactly when `r` is a
      row. */
  lemma NextRow(width: nat, height: nat, r: nat)
    requires width > 0 && r <= height
    ensures r * width < height * width <==> r < height
  {
    if r < height {
      MulMono(r + 1, height, width);
    }
  }

  /** The loop body of `SelectColumnBlocks` for row `r`, which starts at
      `xOffset` in the input and at `step` in the output: the block is done
      up to the end of row `r`, and nothing later has moved. */
  method CopyRow(n: nat, width: nat, height: nat, offset: nat, input: seq<int>, output: array<int>,
                 xOffset: nat, step: nat, ghost r: nat, ghost block: seq<int>)
    requires n > 0 && |input| == height * width && offset * n + n <= width
    requires block == ColumnBlock(n, width, height, offset, input)
    requires r < height && height * n <= output.Length && xOffset == r * width && step == r * n
    requires step + n <= height * n
    requires forall q :: 0 <= q < step ==> output[q] == block[q]
    modifies output
    ensures forall q :: 0 <= q < step + n ==> output[q] == block[q]
    ensures forall q :: step + n <= q < output.Length ==> output[q] == old(output[q])
  {
    MulMono(r + 1, height, width);
    CopyRowSlice(n, offset, input, output, xOffset, step);
    RowDone(n, width, height, offset, input, output[..], r);
  }

  /** With `n` as wide as the matrix, the only column block is the whole
      matrix. */
  lemma FullWidthBlock(n: nat, height: nat, input: seq<int>)
    requires n > 0 && |input| == height * n
    ensures ColumnBlock(n, n, height, 0, input) == input
  {
    forall q | 0 <= q < |input|
      ensures ColumnBlock(n, n, height, 0, input)[q] == input[q]
    {
      assert q == (q / n) * n + q % n;
    }
  }

  /** The 4 x 4 matrix holding 0 to 15 row by row. */
  function Counting16(): (m: seq<int>)
    ensures |m| == 16 && forall i :: 0 <= i < 16 ==> m[i] == i
  {
    seq(16, i => i)
  }

  /** Two rows at a time: offset 0 selects the first two rows, offset 1
      the last two. */
  lemma RowWiseExamples()
    ensures RowBlock(2, 4, 0, Counting16()) == [0, 1, 2, 3, 4, 5, 6, 7]
    ensures RowBlock(2, 4, 1, Counting16()) == [8, 9, 10, 11, 12, 13, 14, 15]
  {
    var m := Counting16();
    assert RowBlock(2, 4, 0, m) == m[0..8];
    assert RowBlock(2, 4, 1, m) == m[8..16];
  }

  /** Two columns at a time: offset 0 selects columns 0 and 1 of every
      row, offset 1 columns 2 and 3. */
  lemma ColumnBlockExamples()
    ensures ColumnBlock(2, 4, 4, 0, Counting16()) == [0, 1, 4, 5, 8, 9, 12, 13]
    ensures ColumnBlock(2, 4, 4, 1, Counting16()) == [2, 3, 6, 7, 10, 11, 14, 15]
  {
    var left := ColumnBlock(2, 4, 4, 0, Counting16());
    var right := ColumnBlock(2, 4, 4, 1, Counting16());
    assert left[0] == 0 && left[1] == 1 && left[2] == 4 && left[3] == 5;
    assert left[4] == 8 && left[5] == 9 && left[6] == 12 && left[7] == 13;
    assert right[0] == 2 && right[1] == 3 && right[2] == 6 && right[3] == 7;
    assert right[4] == 10 && right[5] == 11 && right[6] == 14 && right[7] == 15;
  }
}
