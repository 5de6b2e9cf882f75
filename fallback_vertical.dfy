/** The scalar fallback vertical reductions (`generic_xany_fallback_nofma_max_vertical`,
    `..._min_vertical` and `sum_vertical`): for a matrix of equally long rows,
    the max, min or sum down each column, eight columns at a time with eight
    accumulators and the `len % 8` leftover columns one at a time. Column `j`
    of the result is the sequential fold of column `j` of the matrix. The
    length is read from the first row, so an empty matrix panics. */
module FallbackVertical {
  import opened Wrappers
  import opened IntMath
  import opened Monoids
  import opened FallbackAlgebra
  import Arith

  /** Every row of `matrix` holds `len` elements. */
  predicate Rows(matrix: seq<seq<int>>, len: nat) {
    forall k :: 0 <= k < |matrix| ==> |matrix[k]| == len
  }

  /** Every row of `matrix` holds values of the element type. */
  predicate MatrixInRange(t: IntType, matrix: seq<seq<int>>) {
    forall k :: 0 <= k < |matrix| ==> AllInRange(t, matrix[k])
  }

  /** Column `j`, top to bottom. */
  function Column(matrix: seq<seq<int>>, len: nat, j: nat): (c: seq<int>)
    requires Rows(matrix, len) && j < len
    ensures |c| == |matrix| && forall k :: 0 <= k < |matrix| ==> c[k] == matrix[k][j]
  {
    seq(|matrix|, k requires 0 <= k < |matrix| => matrix[k][j])
  }

  /** The column of an in-range matrix is in range. */
  lemma ColumnInRange(t: IntType, matrix: seq<seq<int>>, len: nat, j: nat)
    requires Rows(matrix, len) && MatrixInRange(t, matrix) && j < len
    ensures AllInRange(t, Column(matrix, len, j))
  {
    var c := Column(matrix, len, j);
    forall k | 0 <= k < |c| ensures InRange(t, c[k]) {
      assert AllInRange(t, matrix[k]);
    }
  }

  /** The max fold of a column bounds every entry of that column and is one
      of them; the min fold likewise from below. */
  lemma ColumnMaxMin(t: IntType, matrix: seq<seq<int>>, len: nat, j: nat)
    requires Rows(matrix, len) && MatrixInRange(t, matrix) && j < len && |matrix| > 0
    ensures forall k :: 0 <= k < |matrix| ==>
      matrix[k][j] <= Fold(t, MaxM, Column(matrix, len, j)) && Fold(t, MinM, Column(matrix, len, j)) <= matrix[k][j]
    ensures exists k :: 0 <= k < |matrix| && Fold(t, MaxM, Column(matrix, len, j)) == matrix[k][j]
    ensures exists k :: 0 <= k < |matrix| && Fold(t, MinM, Column(matrix, len, j)) == matrix[k][j]
  {
    var c := Column(matrix, len, j);
    FoldMaxMinBound(t, c);
    ColumnInRange(t, matrix, len, j);
    FoldMaxMinMember(t, c);
    var kx :| 0 <= kx < |c| && c[kx] == Fold(t, MaxM, c);
    var kn :| 0 <= kn < |c| && c[kn] == Fold(t, MinM, c);
    assert matrix[kx][j] == Fold(t, MaxM, c);
    assert matrix[kn][j] == Fold(t, MinM, c);
  }

  // ------------------------------------------------------------ column passes

  /** The inner `for m in 0..matrix.len()` of an eight-wide pass: eight
      accumulators from the identity, `acc_k = op(acc_k, matrix[m][i + k - 1])`
      row by row. Each ends as the fold of its own column. */
  method ColumnBlock(t: IntType, m: Monoid, matrix: seq<seq<int>>, len: nat, i: nat)
    returns (acc1: int, acc2: int, acc3: int, acc4: int, acc5: int, acc6: int, acc7: int, acc8: int)
    requires Rows(matrix, len) && i + 8 <= len
    ensures acc1 == Fold(t, m, Column(matrix, len, i)) && acc2 == Fold(t, m, Column(matrix, len, i + 1))
    ensures acc3 == Fold(t, m, Column(matrix, len, i + 2)) && acc4 == Fold(t, m, Column(matrix, len, i + 3))
    ensures acc5 == Fold(t, m, Column(matrix, len, i + 4)) && acc6 == Fold(t, m, Column(matrix, len, i + 5))
    ensures acc7 == Fold(t, m, Column(matrix, len, i + 6)) && acc8 == Fold(t, m, Column(matrix, len, i + 7))
  {
    ghost var c1, c2, c3, c4 := Column(matrix, len, i), Column(matrix, len, i + 1), Column(matrix, len, i + 2), Column(matrix, len, i + 3);
    ghost var c5, c6, c7, c8 := Column(matrix, len, i + 4), Column(matrix, len, i + 5), Column(matrix, len, i + 6), Column(matrix, len, i + 7);
    var e := Identity(t, m);
    acc1, acc2, acc3, acc4, acc5, acc6, acc7, acc8 := e, e, e, e, e, e, e, e;
    var r := 0;
    while r < |matrix|
      invariant 0 <= r <= |matrix|
      invariant acc1 == Fold(t, m, c1[..r]) && acc2 == Fold(t, m, c2[..r])
      invariant acc3 == Fold(t, m, c3[..r]) && acc4 == Fold(t, m, c4[..r])
      invariant acc5 == Fold(t, m, c5[..r]) && acc6 == Fold(t, m, c6[..r])
      invariant acc7 == Fold(t, m, c7[..r]) && acc8 == Fold(t, m, c8[..r])
    {
      var arr := matrix[r];
      FoldPrefixStep(t, m, c1, r);
      FoldPrefixStep(t, m, c2, r);
      FoldPrefixStep(t, m, c3, r);
      FoldPrefixStep(t, m, c4, r);
      FoldPrefixStep(t, m, c5, r);
      FoldPrefixStep(t, m, c6, r);
      FoldPrefixStep(t, m, c7, r);
      FoldPrefixStep(t, m, c8, r);
      acc1 := Combine(t, m, acc1, arr[i]);
      acc2 := Combine(t, m, acc2, arr[i + 1]);
      acc3 := Combine(t, m, acc3, arr[i + 2]);
      acc4 := Combine(t, m, acc4, arr[i + 3]);
      acc5 := Combine(t, m, acc5, arr[i + 4]);
      acc6 := Combine(t, m, acc6, arr[i + 5]);
      acc7 := Combine(t, m, acc7, arr[i + 6]);
      acc8 := Combine(t, m, acc8, arr[i + 7]);
      r := r + 1;
    }
    assert c1[..r] == c1 && c2[..r] == c2 && c3[..r] == c3 && c4[..r] == c4;
    assert c5[..r] == c5 && c6[..r] == c6 && c7[..r] == c7 && c8[..r] == c8;
  }

  /** The inner loop of a single-column pass: one accumulator from the
      identity, `acc = op(acc, matrix[m][j])` row by row. */
  method ColumnPass(t: IntType, m: Monoid, matrix: seq<seq<int>>, len: nat, j: nat) returns (acc: int)
    requires Rows(matrix, len) && j < len
    ensures acc == Fold(t, m, Column(matrix, len, j))
  {
    ghost var c := Column(matrix, len, j);
    acc := Identity(t, m);
    var r := 0;
    while r < |matrix|
      invariant 0 <= r <= |matrix|
      invariant acc == Fold(t, m, c[..r])
    {
      FoldPrefixStep(t, m, c, r);
      acc := Combine(t, m, acc, matrix[r][j]);
      r := r + 1;
    }
    assert c[..r] == c;
  }

  /** The eight `*out.get_unchecked_mut(i + k - 1) = acc_k` stores of an
      eight-wide pass. */
  method StoreBlock(out: array<int>, i: nat, a1: int, a2: int, a3: int, a4: int, a5: int, a6: int, a7: int, a8: int)
    requires i + 8 <= out.Length
    modifies out
    ensures out[i] == a1 && out[i + 1] == a2 && out[i + 2] == a3 && out[i + 3] == a4
    ensures out[i + 4] == a5 && out[i + 5] == a6 && out[i + 6] == a7 && out[i + 7] == a8
    ensures forall j :: 0 <= j < i ==> out[j] == old(out[j])
  {
    out[i], out[i + 1], out[i + 2], out[i + 3] := a1, a2, a3, a4;
    out[i + 4], out[i + 5], out[i + 6], out[i + 7] := a5, a6, a7, a8;
  }

  /** One eight-wide pass: the eight column folds starting at column `i`,
      stored in place; the slots before `i` keep their values. */
  method BlockPass(t: IntType, m: Monoid, matrix: seq<seq<int>>, len: nat, out: array<int>, i: nat)
    requires Rows(matrix, len) && out.Length == len && i + 8 <= len
    modifies out
    ensures forall j :: i <= j < i + 8 ==> out[j] == Fold(t, m, Column(matrix, len, j))
    ensures forall j :: 0 <= j < i ==> out[j] == old(out[j])
  {
    var acc1, acc2, acc3, acc4, acc5, acc6, acc7, acc8 := ColumnBlock(t, m, matrix, len, i);
    StoreBlock(out, i, acc1, acc2, acc3, acc4, acc5, acc6, acc7, acc8);
    forall j | i <= j < i + 8
      ensures out[j] == Fold(t, m, Column(matrix, len, j))
    {
      if j == i {} else if j == i + 1 {} else if j == i + 2 {} else if j == i + 3 {}
      else if j == i + 4 {} else if j == i + 5 {} else if j == i + 6 {} else {}
    }
  }

  /** The eight-wide passes over columns `start..end`: each pass folds
      eight columns and stores the eight results in place. */
  method BlockedColumns(t: IntType, m: Monoid, matrix: seq<seq<int>>, len: nat, out: array<int>, start: nat, end: nat)
    requires Rows(matrix, len) && out.Length == len && start <= end <= len && (end - start) % 8 == 0
    requires forall j :: 0 <= j < start ==> out[j] == Fold(t, m, Column(matrix, len, j))
    modifies out
    ensures forall j :: 0 <= j < end ==> out[j] == Fold(t, m, Column(matrix, len, j))
  {
    var i := start;
    while i < end
      invariant start <= i <= end && (end - i) % 8 == 0
      invariant forall j :: 0 <= j < i ==> out[j] == Fold(t, m, Column(matrix, len, j))
    {
      Arith.NextStep(i, end, 8);
      BlockPass(t, m, matrix, len, out, i);
      i := i + 8;
    }
  }

  /** The single-column passes over columns `start..len`. */
  method TailColumns(t: IntType, m: Monoid, matrix: seq<seq<int>>, len: nat, out: array<int>, start: nat)
    requires Rows(matrix, len) && out.Length == len && start <= len
    requires forall j :: 0 <= j < start ==> out[j] == Fold(t, m, Column(matrix, len, j))
    modifies out
    ensures forall j :: 0 <= j < len ==> out[j] == Fold(t, m, Column(matrix, len, j))
  {
    var i := start;
    while i < len
      invariant start <= i <= len
      invariant forall j :: 0 <= j < i ==> out[j] == Fold(t, m, Column(matrix, len, j))
    {
      out[i] := ColumnPass(t, m, matrix, len, i);
      i := i + 1;
    }
  }

  /** One leading column of `sum_vertical`: `results[i] = add(results[i],
      matrix[m][i])` row by row on a slot that starts at zero; no other slot
      changes. */
  method AccumulateColumn(t: IntType, matrix: seq<seq<int>>, len: nat, results: array<int>, i: nat)
    requires Rows(matrix, len) && results.Length == len && i < len && results[i] == 0
    modifies results
    ensures results[i] == Fold(t, SumM, Column(matrix, len, i))
    ensures forall j :: 0 <= j < len && j != i ==> results[j] == old(results[j])
  {
    ghost var c := Column(matrix, len, i);
    var row := 0;
    while row < |matrix|
      invariant 0 <= row <= |matrix|
      invariant results[i] == Fold(t, SumM, c[..row])
      invariant forall j :: 0 <= j < len && j != i ==> results[j] == old(results[j])
    {
      FoldPrefixStep(t, SumM, c, row);
      var x := matrix[row][i];
      var acc := results[i];
      results[i] := IntMath.Add(t, acc, x);
      row := row + 1;
    }
    assert c[..row] == c;
  }

  /** The leading `end` columns of `sum_vertical`, summed in place one at a
      time into slots that start at zero. */
  method LeadingColumns(t: IntType, matrix: seq<seq<int>>, len: nat, results: array<int>, end: nat)
    requires Rows(matrix, len) && results.Length == len && end <= len
    requires forall j :: 0 <= j < len ==> results[j] == 0
    modifies results
    ensures forall j :: 0 <= j < end ==> results[j] == Fold(t, SumM, Column(matrix, len, j))
  {
    var i := 0;
    while i < end
      invariant 0 <= i <= end
      invariant forall j :: 0 <= j < i ==> results[j] == Fold(t, SumM, Column(matrix, len, j))
      invariant forall j :: i <= j < len ==> results[j] == 0
    {
      AccumulateColumn(t, matrix, len, results, i);
      i := i + 1;
    }
  }

  // ------------------------------------------------------------------ kernels

  /** The max and min vertical kernels: eight-wide passes over the first
      `len - len % 8` columns, then one column at a time, each column's fold
      written to its slot of a vector of `len` zeros. */
  method MaxMinVertical(t: IntType, m: Monoid, matrix: seq<seq<int>>, len: nat) returns (values: seq<int>)
    requires |matrix| > 0 && len == |matrix[0]| && Rows(matrix, len)
    ensures |values| == len && forall j :: 0 <= j < len ==> values[j] == Fold(t, m, Column(matrix, len, j))
  {
    var offsetFrom := len % 8;
    var out := new int[len](_ => 0);
    Arith.RoundDown(len, 8);
    BlockedColumns(t, m, matrix, len, out, 0, len - offsetFrom);
    TailColumns(t, m, matrix, len, out, len - offsetFrom);
    values := out[..];
  }

  /** `generic_xany_fallback_nofma_max_vertical`: `None` is the panic on an
      empty matrix; otherwise slot `j` is the max of column `j`, which bounds
      the column and is one of its entries. */
  method MaxVertical(t: IntType, matrix: seq<seq<int>>) returns (r: Option<seq<int>>)
    requires |matrix| > 0 ==> Rows(matrix, |matrix[0]|) && MatrixInRange(t, matrix)
    ensures r.None? <==> |matrix| == 0
    ensures r.Some? ==> |r.value| == |matrix[0]| && forall j :: 0 <= j < |r.value| ==>
      r.value[j] == Fold(t, MaxM, Column(matrix, |matrix[0]|, j))
    ensures r.Some? ==> forall j, k :: 0 <= j < |r.value| && 0 <= k < |matrix| ==> matrix[k][j] <= r.value[j]
    ensures r.Some? ==> forall j :: 0 <= j < |r.value| ==> exists k :: 0 <= k < |matrix| && r.value[j] == matrix[k][j]
  {
    if |matrix| == 0 {
      return None;
    }
    var len := |matrix[0]|;
    var values := MaxMinVertical(t, MaxM, matrix, len);
    forall j | 0 <= j < len
      ensures (forall k :: 0 <= k < |matrix| ==> matrix[k][j] <= values[j])
      ensures exists k :: 0 <= k < |matrix| && values[j] == matrix[k][j]
    {
      ColumnMaxMin(t, matrix, len, j);
    }
    r := Some(values);
  }

  /** `generic_xany_fallback_nofma_min_vertical`: as above with `cmp_min`
      from `max()`. */
  method MinVertical(t: IntType, matrix: seq<seq<int>>) returns (r: Option<seq<int>>)
    requires |matrix| > 0 ==> Rows(matrix, |matrix[0]|) && MatrixInRange(t, matrix)
    ensures r.None? <==> |matrix| == 0
    ensures r.Some? ==> |r.value| == |matrix[0]| && forall j :: 0 <= j < |r.value| ==>
      r.value[j] == Fold(t, MinM, Column(matrix, |matrix[0]|, j))
    ensures r.Some? ==> forall j, k :: 0 <= j < |r.value| && 0 <= k < |matrix| ==> r.value[j] <= matrix[k][j]
    ensures r.Some? ==> forall j :: 0 <= j < |r.value| ==> exists k :: 0 <= k < |matrix| && r.value[j] == matrix[k][j]
  {
    if |matrix| == 0 {
      return None;
    }
    var len := |matrix[0]|;
    var values := MaxMinVertical(t, MinM, matrix, len);
    forall j | 0 <= j < len
      ensures (forall k :: 0 <= k < |matrix| ==> values[j] <= matrix[k][j])
      ensures exists k :: 0 <= k < |matrix| && values[j] == matrix[k][j]
    {
      ColumnMaxMin(t, matrix, len, j);
    }
    r := Some(values);
  }

  /** `sum_vertical` (behind `generic_xany_fallback_nofma_sum_vertical`):
      the first `len % 8` columns are summed in place in a vector of zeros,
      one row at a time; the rest eight columns at a time. `None` is the
      panic on an empty matrix; otherwise slot `j` is the wrapping sum of
      column `j`, that is its exact sum wrapped once. */
  method SumVertical(t: IntType, matrix: seq<seq<int>>) returns (r: Option<seq<int>>)
    requires |matrix| > 0 ==> Rows(matrix, |matrix[0]|)
    ensures r.None? <==> |matrix| == 0
    ensures r.Some? ==> |r.value| == |matrix[0]| && forall j :: 0 <= j < |r.value| ==>
      r.value[j] == Fold(t, SumM, Column(matrix, |matrix[0]|, j))
    ensures r.Some? ==> forall j :: 0 <= j < |r.value| ==>
      r.value[j] == Wrap(t, Sum(Column(matrix, |matrix[0]|, j)))
  {
    if |matrix| == 0 {
      return None;
    }
    var len := |matrix[0]|;
    var offsetFrom := len % 8;
    var results := new int[len](_ => 0);
    LeadingColumns(t, matrix, len, results, offsetFrom);
    Arith.RoundDown(len, 8);
    BlockedColumns(t, SumM, matrix, len, results, offsetFrom, len);
    forall j | 0 <= j < len
      ensures results[j] == Wrap(t, Sum(Column(matrix, len, j)))
    {
      FoldSumIsWrappedSum(t, Column(matrix, len, j));
    }
    r := Some(results[..]);
  }
}
