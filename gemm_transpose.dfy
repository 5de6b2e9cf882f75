/** The blocked transpose of `cfavml-gemm`: a row-major `width x height`
    matrix becomes its column-major image (`result[i * height + j] =
    data[j * width + i]`). The AVX2 kernel walks the matrix in 8x8 blocks,
    each made of four 4x4 register transposes, then copies the columns to
    the right of the last block and the rows below it one value at a time.
    Values are copied, never computed, so elements are plain `int`s. */
module GemmTranspose {
  import Buffer

  // ------------------------------------------------------------ geometry

  /** Rows `[r0, r1)` and columns `[c0, c1)` of the matrix. */
  datatype Rect = Rect(r0: nat, r1: nat, c0: nat, c1: nat)

  /** Position `p` of the column-major result holds row `p % height` and
      column `p / height` of the matrix. */
  predicate InRect(height: nat, p: nat, rect: Rect)
    requires height > 0
  {
    rect.r0 <= p % height < rect.r1 && rect.c0 <= p / height < rect.c1
  }

  /** The row-major position of the value that belongs at result
      position `p`. */
  function Src(width: nat, height: nat, p: nat): nat
    requires height > 0
  {
    (p % height) * width + p / height
  }

  lemma MulMono(a: nat, b: nat, k: nat)
    requires a <= b
    ensures a * k <= b * k
  {
  }

  lemma DivMod(p: nat, height: nat)
    requires height > 0
    ensures p == (p / height) * height + p % height
  {
  }

  /** Column-major position `col * height + row` decodes back to its row and
      column. */
  lemma CellIndex(height: nat, col: nat, row: nat)
    requires row < height
    ensures (col * height + row) / height == col
    ensures (col * height + row) % height == row
  {
    var p := col * height + row;
    var q, r := p / height, p % height;
    assert p == q * height + r;
    if q < col {
      MulMono(q + 1, col, height);
      assert false;
    } else if q > col {
      MulMono(col + 1, q, height);
      assert false;
    }
  }

  /** Both layouts of a cell fall inside the buffer. */
  lemma CellBound(width: nat, height: nat, row: nat, col: nat)
    requires row < height && col < width
    ensures col * height + row < width * height
    ensures row * width + col < width * height
  {
    MulMono(col + 1, width, height);
    MulMono(row + 1, height, width);
  }

  /** Every position of the result is a cell of the matrix, and its source
      lies inside the input. */
  lemma Coordinates(width: nat, height: nat, p: nat)
    requires height > 0 && p < width * height
    ensures p / height < width
    ensures Src(width, height, p) < width * height
  {
    if p / height >= width {
      MulMono(width, p / height, height);
      assert false;
    }
    CellBound(width, height, p % height, p / height);
  }

  // ------------------------------------------------- reference transpose

  /** `basic_transpose`, the reference: position `p` of the result holds the
      matrix cell in row `p % height`, column `p / height`. */
  function BasicTranspose(width: nat, height: nat, data: seq<int>): (r: seq<int>)
    requires height > 0 && |data| == width * height
    ensures |r| == width * height
  {
    seq(width * height, p requires 0 <= p < width * height =>
      Coordinates(width, height, p);
      data[Src(width, height, p)])
  }

  /** The loop of `basic_transpose`, cell by cell:
      `result[i * height + j] = data[j * width + i]`. */
  lemma TransposeCell(width: nat, height: nat, data: seq<int>, i: nat, j: nat)
    requires height > 0 && |data| == width * height && i < width && j < height
    ensures i * height + j < width * height && j * width + i < width * height
    ensures BasicTranspose(width, height, data)[i * height + j] == data[j * width + i]
  {
    CellBound(width, height, j, i);
    CellIndex(height, i, j);
  }

  /** Transposing twice gives the matrix back. */
  lemma TransposeInvolution(width: nat, height: nat, data: seq<int>)
    requires width > 0 && height > 0 && |data| == width * height
    ensures BasicTranspose(height, width, BasicTranspose(width, height, data)) == data
  {
    var t := BasicTranspose(width, height, data);
    assert |t| == height * width;
    var tt := BasicTranspose(height, width, t);
    forall p | 0 <= p < |data|
      ensures tt[p] == data[p]
    {
      Coordinates(height, width, p);
      var row, col := p / width, p % width;
      assert p == row * width + col;
      TransposeCell(width, height, data, col, row);
    }
  }

  /** A matrix with one row or one column is stored identically in both
      layouts. */
  lemma ThinMatrixIsItsTranspose(width: nat, height: nat, data: seq<int>)
    requires height > 0 && |data| == width * height && (width == 1 || height == 1)
    ensures BasicTranspose(width, height, data) == data
  {
    forall p | 0 <= p < |data|
      ensures BasicTranspose(width, height, data)[p] == data[p]
    {
      Coordinates(width, height, p);
      if width == 1 {
        CellIndex(height, 0, p);
        assert Src(width, height, p) == p;
      } else {
        CellIndex(1, p, 0);
        assert Src(width, height, p) == p;
      }
    }
  }

  // ------------------------------------------------------ partial results

  /** Every position of `rect` already holds its transposed value. */
  ghost predicate Done(res: seq<int>, data: seq<int>, width: nat, height: nat, rect: Rect)
    requires height > 0
  {
    forall p :: 0 <= p < |res| && InRect(height, p, rect) ==>
      Src(width, height, p) < |data| && res[p] == data[Src(width, height, p)]
  }

  /** No position outside `rect` has changed. */
  ghost predicate Untouched(res: seq<int>, before: seq<int>, height: nat, rect: Rect)
    requires height > 0 && |res| == |before|
  {
    forall p :: 0 <= p < |res| && !InRect(height, p, rect) ==> res[p] == before[p]
  }

  // ------------------------------------------------------- 4x4 registers

  /** `Dense4x4Lane`: four registers of four 64-bit values, one per row of
      a 4x4 block. */
  datatype Quad = Quad(a: seq<int>, b: seq<int>, c: seq<int>, d: seq<int>)

  predicate IsQuad(q: Quad) {
    |q.a| == 4 && |q.b| == 4 && |q.c| == 4 && |q.d| == 4
  }

  /** Register `k` of the bundle. */
  function Row(q: Quad, k: nat): (r: seq<int>)
    requires IsQuad(q) && k < 4
    ensures |r| == 4
  {
    if k == 0 then q.a else if k == 1 then q.b else if k == 2 then q.c else q.d
  }

  /** `load_4x4_64bit`: register `k` holds the four values at
      `offset + k * width`, one matrix row per register. */
  function Load4x4(data: seq<int>, offset: nat, width: nat): (q: Quad)
    requires offset + 3 * width + 4 <= |data|
    ensures IsQuad(q)
    ensures forall k, c :: 0 <= k < 4 && 0 <= c < 4 ==> Row(q, k)[c] == data[offset + k * width + c]
  {
    Quad(data[offset..offset + 4], data[offset + width..offset + width + 4],
      data[offset + 2 * width..offset + 2 * width + 4], data[offset + 3 * width..offset + 3 * width + 4])
  }

  /** `transpose_dense_64bit`: the unpack and permute steps exchange rows
      and columns. The shuffles are kept abstract; the result is stated as
      the transposed block. */
  function TransposeDense(q: Quad): (t: Quad)
    requires IsQuad(q)
    ensures IsQuad(t)
    ensures forall k, c :: 0 <= k < 4 && 0 <= c < 4 ==> Row(t, k)[c] == Row(q, c)[k]
  {
    Quad([q.a[0], q.b[0], q.c[0], q.d[0]], [q.a[1], q.b[1], q.c[1], q.d[1]],
      [q.a[2], q.b[2], q.c[2], q.d[2]], [q.a[3], q.b[3], q.c[3], q.d[3]])
  }

  /** The first `cols` registers of `q` are in place: register `k` fills
      rows `[r0, r0 + 4)` of result column `c0 + k`. */
  ghost predicate Stored(res: seq<int>, q: Quad, height: nat, r0: nat, c0: nat, cols: nat)
    requires IsQuad(q) && height > 0 && cols <= 4
  {
    forall p :: 0 <= p < |res| && InRect(height, p, Rect(r0, r0 + 4, c0, c0 + cols)) ==>
      res[p] == Row(q, p / height - c0)[p % height - r0]
  }

  /** One `_mm256_storeu_pd` of `store_4x4_64bit`: register `k` to the
      four positions at `pos = (c0 + k) * height + r0`, i.e. rows
      `[r0, r0 + 4)` of result column `c0 + k`; nothing else is written. */
  method StoreRegister(pos: nat, height: nat, q: Quad, k: nat, result: array<int>, ghost r0: nat, ghost c0: nat,
                       ghost start: seq<int>)
    requires IsQuad(q) && k < 4 && pos == (c0 + k) * height + r0 && r0 + 4 <= height
    requires pos + 4 <= result.Length && |start| == result.Length
    requires Stored(result[..], q, height, r0, c0, k)
    requires Untouched(result[..], start, height, Rect(r0, r0 + 4, c0, c0 + k))
    modifies result
    ensures Stored(result[..], q, height, r0, c0, k + 1)
    ensures Untouched(result[..], start, height, Rect(r0, r0 + 4, c0, c0 + k + 1))
  {
    ghost var before := result[..];
    var reg := Row(q, k);
    forall c | 0 <= c < 4 {
      result[pos + c] := reg[c];
    }
    forall p | 0 <= p < result.Length
      ensures InRect(height, p, Rect(r0, r0 + 4, c0, c0 + k + 1)) ==> result[p] == Row(q, p / height - c0)[p % height - r0]
      ensures !InRect(height, p, Rect(r0, r0 + 4, c0, c0 + k + 1)) ==> result[p] == start[p]
    {
      if InRect(height, p, Rect(r0, r0 + 4, c0 + k, c0 + k + 1)) {
        var c := p % height - r0;
        DivMod(p, height);
        assert p == pos + c;
      } else if pos <= p < pos + 4 {
        CellIndex(height, c0 + k, r0 + (p - pos));
        assert false;
      } else {
        assert result[p] == before[p];
      }
    }
  }

  /** `store_4x4_64bit`: register `k` goes to the four positions at
      `offset + k * height`. With `offset = c0 * height + r0` these are the
      cells of rows `[r0, r0 + 4)`, columns `[c0, c0 + 4)` of the result,
      register `k` filling column `c0 + k`, and nothing else is written. */
  method Store4x4(offset: nat, height: nat, q: Quad, result: array<int>, ghost r0: nat, ghost c0: nat)
    requires IsQuad(q) && offset == c0 * height + r0 && r0 + 4 <= height
    requires offset + 3 * height + 4 <= result.Length
    modifies result
    ensures Stored(result[..], q, height, r0, c0, 4)
    ensures Untouched(result[..], old(result[..]), height, Rect(r0, r0 + 4, c0, c0 + 4))
  {
    StoreRegister(offset, height, q, 0, result, r0, c0, old(result[..]));
    StoreRegister(offset + 1 * height, height, q, 1, result, r0, c0, old(result[..]));
    StoreRegister(offset + 2 * height, height, q, 2, result, r0, c0, old(result[..]));
    StoreRegister(offset + 3 * height, height, q, 3, result, r0, c0, old(result[..]));
  }

  // ---------------------------------------------------- rect bookkeeping

  predicate Disjoint(x: Rect, y: Rect) {
    x.r1 <= y.r0 || y.r1 <= x.r0 || x.c1 <= y.c0 || y.c1 <= x.c0
  }

  predicate Within(x: Rect, y: Rect) {
    y.r0 <= x.r0 && x.r1 <= y.r1 && y.c0 <= x.c0 && x.c1 <= y.c1
  }

  /** Writing outside a finished region keeps it finished. */
  lemma DoneKept(res: seq<int>, before: seq<int>, data: seq<int>, width: nat, height: nat, done: Rect, changed: Rect)
    requires height > 0 && |res| == |before|
    requires Done(before, data, width, height, done) && Untouched(res, before, height, changed)
    requires Disjoint(done, changed)
    ensures Done(res, data, width, height, done)
  {
    forall p | 0 <= p < |res| && InRect(height, p, done)
      ensures Src(width, height, p) < |data| && res[p] == data[Src(width, height, p)]
    {
      assert !InRect(height, p, changed);
    }
  }

  /** Two steps that each stay inside `rect` together stay inside it. */
  lemma UntouchedChain(s2: seq<int>, s1: seq<int>, s0: seq<int>, height: nat, x: Rect, y: Rect, rect: Rect)
    requires height > 0 && |s2| == |s1| == |s0|
    requires Untouched(s2, s1, height, x) && Untouched(s1, s0, height, y)
    requires Within(x, rect) && Within(y, rect)
    ensures Untouched(s2, s0, height, rect)
  {
    forall p | 0 <= p < |s2| && !InRect(height, p, rect)
      ensures s2[p] == s0[p]
    {
      assert !InRect(height, p, x) && !InRect(height, p, y);
    }
  }

  /** Side by side finished regions make one. */
  lemma JoinColumns(res: seq<int>, data: seq<int>, width: nat, height: nat, r0: nat, r1: nat, c0: nat, cm: nat, c1: nat)
    requires height > 0
    requires Done(res, data, width, height, Rect(r0, r1, c0, cm)) && Done(res, data, width, height, Rect(r0, r1, cm, c1))
    ensures Done(res, data, width, height, Rect(r0, r1, c0, c1))
  {
    forall p | 0 <= p < |res| && InRect(height, p, Rect(r0, r1, c0, c1))
      ensures Src(width, height, p) < |data| && res[p] == data[Src(width, height, p)]
    {
      if p / height < cm {
        assert InRect(height, p, Rect(r0, r1, c0, cm));
      } else {
        assert InRect(height, p, Rect(r0, r1, cm, c1));
      }
    }
  }

  /** Stacked finished regions make one. */
  lemma JoinRows(res: seq<int>, data: seq<int>, width: nat, height: nat, r0: nat, rm: nat, r1: nat, c0: nat, c1: nat)
    requires height > 0
    requires Done(res, data, width, height, Rect(r0, rm, c0, c1)) && Done(res, data, width, height, Rect(rm, r1, c0, c1))
    ensures Done(res, data, width, height, Rect(r0, r1, c0, c1))
  {
    forall p | 0 <= p < |res| && InRect(height, p, Rect(r0, r1, c0, c1))
      ensures Src(width, height, p) < |data| && res[p] == data[Src(width, height, p)]
    {
      if p % height < rm {
        assert InRect(height, p, Rect(r0, rm, c0, c1));
      } else {
        assert InRect(height, p, Rect(rm, r1, c0, c1));
      }
    }
  }

  // ------------------------------------------------------------- kernel

  /** The source of a cell of a block, as the load addresses it: block
      offset `c0 + r0 * width`, then `c * width + k` for row `r0 + c`,
      column `c0 + k`. */
  lemma BlockSource(width: nat, height: nat, p: nat, r0: nat, c0: nat)
    requires height > 0 && r0 <= p % height && c0 <= p / height
    ensures Src(width, height, p) == c0 + r0 * width + (p % height - r0) * width + (p / height - c0)
  {
    var c := p % height - r0;
    assert (r0 + c) * width == r0 * width + c * width;
  }

  /** The shape every routine of the kernel assumes: both buffers hold
      `width * height` values. */
  predicate Shape(width: nat, height: nat, data: seq<int>, result: array<int>) {
    height > 0 && |data| == width * height && result.Length == width * height
  }

  /** The block's load and store stay inside the buffers. */
  lemma BlockBounds(width: nat, height: nat, r0: nat, c0: nat)
    requires r0 + 4 <= height && c0 + 4 <= width
    ensures c0 + r0 * width + 3 * width + 4 <= width * height
    ensures c0 * height + r0 + 3 * height + 4 <= width * height
  {
    MulMono(r0 + 4, height, width);
    MulMono(c0 + 4, width, height);
  }

  /** One cell of a stored transposed block: row `p / height - c0` of the
      transposed registers, at `p % height - r0`, is the cell's source. */
  lemma BlockCell(width: nat, height: nat, data: seq<int>, r0: nat, c0: nat, lane: Quad, transposed: Quad, p: nat)
    requires height > 0 && |data| == width * height
    requires c0 + r0 * width + 3 * width + 4 <= |data| && lane == Load4x4(data, c0 + r0 * width, width)
    requires transposed == TransposeDense(lane)
    requires InRect(height, p, Rect(r0, r0 + 4, c0, c0 + 4))
    ensures Src(width, height, p) < |data|
    ensures Row(transposed, p / height - c0)[p % height - r0] == data[Src(width, height, p)]
  {
    var k, c := p / height - c0, p % height - r0;
    BlockSource(width, height, p, r0, c0);
    TransposedLoad(data, c0 + r0 * width, width, lane, transposed, k, c);
  }

  /** Register `k` of a transposed load holds, at `c`, the value `k` of
      loaded row `c`. */
  lemma TransposedLoad(data: seq<int>, offset: nat, width: nat, lane: Quad, transposed: Quad, k: nat, c: nat)
    requires offset + 3 * width + 4 <= |data| && lane == Load4x4(data, offset, width)
    requires transposed == TransposeDense(lane) && k < 4 && c < 4
    ensures offset + c * width + k < |data|
    ensures Row(transposed, k)[c] == data[offset + c * width + k]
  {
    MulMono(c, 3, width);
    assert Row(lane, c)[k] == data[offset + c * width + k];
  }

  /** A stored transposed block holds the transposed cells. */
  lemma BlockDone(width: nat, height: nat, data: seq<int>, res: seq<int>, r0: nat, c0: nat, lane: Quad, transposed: Quad)
    requires height > 0 && |data| == width * height && |res| == width * height
    requires c0 + r0 * width + 3 * width + 4 <= |data| && lane == Load4x4(data, c0 + r0 * width, width)
    requires transposed == TransposeDense(lane) && r0 + 4 <= height
    requires Stored(res, transposed, height, r0, c0, 4)
    ensures Done(res, data, width, height, Rect(r0, r0 + 4, c0, c0 + 4))
  {
    forall p | 0 <= p < |res| && InRect(height, p, Rect(r0, r0 + 4, c0, c0 + 4))
      ensures Src(width, height, p) < |data| && res[p] == data[Src(width, height, p)]
    {
      BlockCell(width, height, data, r0, c0, lane, transposed, p);
    }
  }

  /** One 4x4 step of the kernel: load rows `[r0, r0 + 4)` at columns
      `[c0, c0 + 4)`, transpose the registers, store them at the mirrored
      position. Afterwards exactly those cells hold their transposed
      values. */
  method Block4x4(width: nat, height: nat, data: seq<int>, result: array<int>, r0: nat, c0: nat)
    requires Shape(width, height, data, result) && r0 + 4 <= height && c0 + 4 <= width
    modifies result
    ensures Done(result[..], data, width, height, Rect(r0, r0 + 4, c0, c0 + 4))
    ensures Untouched(result[..], old(result[..]), height, Rect(r0, r0 + 4, c0, c0 + 4))
  {
    BlockBounds(width, height, r0, c0);
    var lane := Load4x4(data, c0 + r0 * width, width);
    var transposed := TransposeDense(lane);
    Store4x4(c0 * height + r0, height, transposed, result, r0, c0);
    BlockDone(width, height, data, result[..], r0, c0, lane, transposed);
  }

  /** One iteration of the block loop: the 8x8 block at row `j`, column
      `i`, as four 4x4 steps (top-left, bottom-left, top-right,
      bottom-right). */
  method Block8x8(width: nat, height: nat, data: seq<int>, result: array<int>, j: nat, i: nat)
    requires Shape(width, height, data, result) && j + 8 <= height && i + 8 <= width
    modifies result
    ensures Done(result[..], data, width, height, Rect(j, j + 8, i, i + 8))
    ensures Untouched(result[..], old(result[..]), height, Rect(j, j + 8, i, i + 8))
  {
    ghost var s0 := result[..];
    Block4x4(width, height, data, result, j, i);
    ghost var s1 := result[..];
    Block4x4(width, height, data, result, j + 4, i);
    ghost var s2 := result[..];
    DoneKept(s2, s1, data, width, height, Rect(j, j + 4, i, i + 4), Rect(j + 4, j + 8, i, i + 4));
    JoinRows(s2, data, width, height, j, j + 4, j + 8, i, i + 4);
    UntouchedChain(s2, s1, s0, height, Rect(j + 4, j + 8, i, i + 4), Rect(j, j + 4, i, i + 4), Rect(j, j + 8, i, i + 4));
    Block4x4(width, height, data, result, j, i + 4);
    ghost var s3 := result[..];
    Block4x4(width, height, data, result, j + 4, i + 4);
    ghost var s4 := result[..];
    DoneKept(s4, s3, data, width, height, Rect(j, j + 4, i + 4, i + 8), Rect(j + 4, j + 8, i + 4, i + 8));
    JoinRows(s4, data, width, height, j, j + 4, j + 8, i + 4, i + 8);
    UntouchedChain(s4, s3, s2, height, Rect(j + 4, j + 8, i + 4, i + 8), Rect(j, j + 4, i + 4, i + 8), Rect(j, j + 8, i + 4, i + 8));
    DoneKept(s3, s2, data, width, height, Rect(j, j + 8, i, i + 4), Rect(j, j + 4, i + 4, i + 8));
    DoneKept(s4, s3, data, width, height, Rect(j, j + 8, i, i + 4), Rect(j + 4, j + 8, i + 4, i + 8));
    JoinColumns(s4, data, width, height, j, j + 8, i, i + 4, i + 8);
    UntouchedChain(s4, s2, s0, height, Rect(j, j + 8, i + 4, i + 8), Rect(j, j + 8, i, i + 4), Rect(j, j + 8, i, i + 8));
  }

  /** The inner block loop: for row band `j`, the 8x8 blocks at columns
      `0, 8, ...` below `blockWidth = width - width % 8`. */
  method BlockRow(width: nat, height: nat, data: seq<int>, result: array<int>, j: nat)
    requires Shape(width, height, data, result) && j + 8 <= height
    modifies result
    ensures Done(result[..], data, width, height, Rect(j, j + 8, 0, width - width % 8))
    ensures Untouched(result[..], old(result[..]), height, Rect(j, j + 8, 0, width - width % 8))
  {
    var blockWidth := width - width % 8;
    var i := 0;
    while i < blockWidth
      invariant i <= blockWidth && i % 8 == 0
      invariant Done(result[..], data, width, height, Rect(j, j + 8, 0, i))
      invariant Untouched(result[..], old(result[..]), height, Rect(j, j + 8, 0, i))
    {
      NextBand(i, width);
      BlockRowStep(width, height, data, result, j, i, old(result[..]));
      i := i + 8;
    }
  }

  /** The body of the inner block loop: one more 8x8 block extends the
      finished part of the band by 8 columns. */
  method BlockRowStep(width: nat, height: nat, data: seq<int>, result: array<int>, j: nat, i: nat, ghost start: seq<int>)
    requires Shape(width, height, data, result) && j + 8 <= height && i + 8 <= width && |start| == result.Length
    requires Done(result[..], data, width, height, Rect(j, j + 8, 0, i))
    requires Untouched(result[..], start, height, Rect(j, j + 8, 0, i))
    modifies result
    ensures Done(result[..], data, width, height, Rect(j, j + 8, 0, i + 8))
    ensures Untouched(result[..], start, height, Rect(j, j + 8, 0, i + 8))
  {
    ghost var before := result[..];
    Block8x8(width, height, data, result, j, i);
    ghost var after := result[..];
    DoneKept(after, before, data, width, height, Rect(j, j + 8, 0, i), Rect(j, j + 8, i, i + 8));
    JoinColumns(after, data, width, height, j, j + 8, 0, i, i + 8);
    UntouchedChain(after, before, start, height, Rect(j, j + 8, i, i + 8), Rect(j, j + 8, 0, i), Rect(j, j + 8, 0, i + 8));
  }

  /** A band start below `bound - bound % 8` leaves room for a whole band
      of 8. */
  lemma NextBand(i: nat, bound: nat)
    requires i < bound - bound % 8 && i % 8 == 0
    ensures i + 8 <= bound - bound % 8
  {
  }

  /** The outer block loop: row bands `0, 8, ...` below
      `height - height % 8`; together the blocks cover every cell above
      and left of the remainders. */
  method Blocks(width: nat, height: nat, data: seq<int>, result: array<int>)
    requires Shape(width, height, data, result)
    modifies result
    ensures Done(result[..], data, width, height, Rect(0, height - height % 8, 0, width - width % 8))
    ensures Untouched(result[..], old(result[..]), height, Rect(0, height - height % 8, 0, width - width % 8))
  {
    var blockHeight, blockWidth := height - height % 8, width - width % 8;
    var j := 0;
    while j < blockHeight
      invariant j <= blockHeight && j % 8 == 0
      invariant Done(result[..], data, width, height, Rect(0, j, 0, blockWidth))
      invariant Untouched(result[..], old(result[..]), height, Rect(0, j, 0, blockWidth))
    {
      NextBand(j, height);
      ghost var before := result[..];
      BlockRow(width, height, data, result, j);
      ghost var after := result[..];
      DoneKept(after, before, data, width, height, Rect(0, j, 0, blockWidth), Rect(j, j + 8, 0, blockWidth));
      JoinRows(after, data, width, height, 0, j, j + 8, 0, blockWidth);
      UntouchedChain(after, before, old(result[..]), height, Rect(j, j + 8, 0, blockWidth), Rect(0, j, 0, blockWidth), Rect(0, j + 8, 0, blockWidth));
      j := j + 8;
    }
  }

  /** `result[i * height + j] = data[j * width + i]`: one cell copied by
      the scalar tail loops. */
  method CopyCell(width: nat, height: nat, data: seq<int>, result: array<int>, j: nat, i: nat)
    requires Shape(width, height, data, result) && j < height && i < width
    modifies result
    ensures Done(result[..], data, width, height, Rect(j, j + 1, i, i + 1))
    ensures Untouched(result[..], old(result[..]), height, Rect(j, j + 1, i, i + 1))
  {
    CellBound(width, height, j, i);
    CellIndex(height, i, j);
    result[i * height + j] := data[j * width + i];
    forall p | 0 <= p < result.Length && InRect(height, p, Rect(j, j + 1, i, i + 1))
      ensures Src(width, height, p) < |data| && result[p] == data[Src(width, height, p)]
    {
      DivMod(p, height);
    }
  }

  /** The inner loop of the row tails: for row `j`, the columns from
      `width - width % 8` to `width`. */
  method RowTail(width: nat, height: nat, data: seq<int>, result: array<int>, j: nat)
    requires Shape(width, height, data, result) && j < height
    modifies result
    ensures Done(result[..], data, width, height, Rect(j, j + 1, width - width % 8, width))
    ensures Untouched(result[..], old(result[..]), height, Rect(j, j + 1, width - width % 8, width))
  {
    var i := width - width % 8;
    while i < width
      invariant width - width % 8 <= i <= width
      invariant Done(result[..], data, width, height, Rect(j, j + 1, width - width % 8, i))
      invariant Untouched(result[..], old(result[..]), height, Rect(j, j + 1, width - width % 8, i))
    {
      ghost var before := result[..];
      CopyCell(width, height, data, result, j, i);
      DoneKept(result[..], before, data, width, height, Rect(j, j + 1, width - width % 8, i), Rect(j, j + 1, i, i + 1));
      JoinColumns(result[..], data, width, height, j, j + 1, width - width % 8, i, i + 1);
      UntouchedChain(result[..], before, old(result[..]), height, Rect(j, j + 1, i, i + 1),
        Rect(j, j + 1, width - width % 8, i), Rect(j, j + 1, width - width % 8, i + 1));
      i := i + 1;
    }
  }

  /** The row tails: the columns right of the blocks, for every row the
      blocks cover. */
  method RowTails(width: nat, height: nat, data: seq<int>, result: array<int>)
    requires Shape(width, height, data, result)
    modifies result
    ensures Done(result[..], data, width, height, Rect(0, height - height % 8, width - width % 8, width))
    ensures Untouched(result[..], old(result[..]), height, Rect(0, height - height % 8, width - width % 8, width))
  {
    var blockWidth := width - width % 8;
    var j := 0;
    while j < height - height % 8
      invariant j <= height - height % 8
      invariant Done(result[..], data, width, height, Rect(0, j, blockWidth, width))
      invariant Untouched(result[..], old(result[..]), height, Rect(0, j, blockWidth, width))
    {
      ghost var before := result[..];
      RowTail(width, height, data, result, j);
      DoneKept(result[..], before, data, width, height, Rect(0, j, blockWidth, width), Rect(j, j + 1, blockWidth, width));
      JoinRows(result[..], data, width, height, 0, j, j + 1, blockWidth, width);
      UntouchedChain(result[..], before, old(result[..]), height, Rect(j, j + 1, blockWidth, width), Rect(0, j, blockWidth, width), Rect(0, j + 1, blockWidth, width));
      j := j + 1;
    }
  }

  /** The inner loop of the column tails: every column of row `j`. */
  method ColumnTail(width: nat, height: nat, data: seq<int>, result: array<int>, j: nat)
    requires Shape(width, height, data, result) && j < height
    modifies result
    ensures Done(result[..], data, width, height, Rect(j, j + 1, 0, width))
    ensures Untouched(result[..], old(result[..]), height, Rect(j, j + 1, 0, width))
  {
    var i := 0;
    while i < width
      invariant i <= width
      invariant Done(result[..], data, width, height, Rect(j, j + 1, 0, i))
      invariant Untouched(result[..], old(result[..]), height, Rect(j, j + 1, 0, i))
    {
      ghost var before := result[..];
      CopyCell(width, height, data, result, j, i);
      DoneKept(result[..], before, data, width, height, Rect(j, j + 1, 0, i), Rect(j, j + 1, i, i + 1));
      JoinColumns(result[..], data, width, height, j, j + 1, 0, i, i + 1);
      UntouchedChain(result[..], before, old(result[..]), height, Rect(j, j + 1, i, i + 1), Rect(j, j + 1, 0, i), Rect(j, j + 1, 0, i + 1));
      i := i + 1;
    }
  }

  /** The column tails: every row below the blocks, all columns. */
  method ColumnTails(width: nat, height: nat, data: seq<int>, result: array<int>)
    requires Shape(width, height, data, result)
    modifies result
    ensures Done(result[..], data, width, height, Rect(height - height % 8, height, 0, width))
    ensures Untouched(result[..], old(result[..]), height, Rect(height - height % 8, height, 0, width))
  {
    var j := height - height % 8;
    while j < height
      invariant height - height % 8 <= j <= height
      invariant Done(result[..], data, width, height, Rect(height - height % 8, j, 0, width))
      invariant Untouched(result[..], old(result[..]), height, Rect(height - height % 8, j, 0, width))
    {
      ghost var before := result[..];
      ColumnTail(width, height, data, result, j);
      DoneKept(result[..], before, data, width, height, Rect(height - height % 8, j, 0, width), Rect(j, j + 1, 0, width));
      JoinRows(result[..], data, width, height, height - height % 8, j, j + 1, 0, width);
      UntouchedChain(result[..], before, old(result[..]), height, Rect(j, j + 1, 0, width),
        Rect(height - height % 8, j, 0, width), Rect(height - height % 8, j + 1, 0, width));
      j := j + 1;
    }
  }

  /** `transpose_64bit`: the blocks, then the row tails, then the column
      tails. The three regions partition the matrix, so the result is the
      reference transpose. */
  method Transpose64(width: nat, height: nat, data: seq<int>, result: array<int>)
    requires Shape(width, height, data, result)
    modifies result
    ensures result[..] == BasicTranspose(width, height, data)
  {
    var blockHeight, blockWidth := height - height % 8, width - width % 8;
    Blocks(width, height, data, result);
    ghost var s1 := result[..];
    RowTails(width, height, data, result);
    ghost var s2 := result[..];
    DoneKept(s2, s1, data, width, height, Rect(0, blockHeight, 0, blockWidth), Rect(0, blockHeight, blockWidth, width));
    JoinColumns(s2, data, width, height, 0, blockHeight, 0, blockWidth, width);
    ColumnTails(width, height, data, result);
    DoneKept(result[..], s2, data, width, height, Rect(0, blockHeight, 0, width), Rect(blockHeight, height, 0, width));
    JoinRows(result[..], data, width, height, 0, blockHeight, height, 0, width);
    AllDone(result[..], data, width, height);
  }

  /** A result in which every cell is finished is the reference transpose. */
  lemma AllDone(res: seq<int>, data: seq<int>, width: nat, height: nat)
    requires height > 0 && |data| == width * height && |res| == width * height
    requires Done(res, data, width, height, Rect(0, height, 0, width))
    ensures res == BasicTranspose(width, height, data)
  {
    forall p | 0 <= p < |res|
      ensures res[p] == BasicTranspose(width, height, data)[p]
    {
      Coordinates(width, height, p);
      assert InRect(height, p, Rect(0, height, 0, width));
    }
  }

  // ---------------------------------------------------- transpose_matrix

  /** `transpose_matrix`: panics unless `data` holds `width * height` values
      and `result` as many. An empty matrix returns at once; a matrix with
      one row or one column is copied unchanged, which is its transpose.
      Otherwise only 32-bit elements (`f32`, `u32`) on a CPU reporting AVX2
      are transposed, by the blocked kernel; any other element type, or a
      CPU without AVX2, leaves `result` as it was. `avx2` is what run-time
      detection reports. */
  method TransposeMatrix(elem: Buffer.Primitive, avx2: bool, width: nat, height: nat, data: seq<int>, result: array<int>)
    returns (panicked: bool)
    modifies result
    ensures panicked <==> |data| != width * height || result.Length != |data|
    ensures panicked || width == 0 || height == 0 ==> result[..] == old(result[..])
    ensures !panicked && height > 0 && (width == 1 || height == 1) ==>
      result[..] == BasicTranspose(width, height, data)
    ensures !panicked && width >= 2 && height >= 2 && avx2 && elem in {Buffer.F32, Buffer.U32} ==>
      result[..] == BasicTranspose(width, height, data)
    ensures !panicked && width >= 2 && height >= 2 && !(avx2 && elem in {Buffer.F32, Buffer.U32}) ==>
      result[..] == old(result[..])
  {
    if |data| != width * height || result.Length != |data| {
      return true;
    }
    panicked := false;
    if width == 0 || height == 0 {
      return;
    }
    if width == 1 || height == 1 {
      forall k | 0 <= k < result.Length {
        result[k] := data[k];
      }
      assert result[..] == data;
      ThinMatrixIsItsTranspose(width, height, data);
      return;
    }
    if elem == Buffer.F32 || elem == Buffer.U32 {
      if avx2 {
        Transpose64(width, height, data, result);
      }
    }
  }
}
