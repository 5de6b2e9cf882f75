/** `IntoMemLoader` and `MemLoader`: how a kernel reads an operand that is
    either a borrowed slice or a single broadcast value. A slice is read
    through a cursor that advances by the number of elements each load
    takes; a scalar yields the same value forever and never changes state.
    A slice can only be projected onto its own length, a scalar onto any. */
module MemLoader {
  import opened Wrappers
  import opened ScalarOps
  import opened SimdApi
  import Arith

  /** What a caller hands a kernel: `&[T]` (or anything `AsRef<[T]>`) or a `T`. */
  datatype Operand = Slice(data: seq<int>) | Scalar(value: int)

  /** A projection of `x` onto `n` elements succeeds. */
  predicate Projectable(x: Operand, n: nat) {
    x.Scalar? || |x.data| == n
  }

  /** `into_projected_mem_loader(n)`: the projected length, or `None` where
      the slice impl's `assert_eq!` panics. */
  function ProjectedLen(x: Operand, n: nat): (r: Option<nat>)
    ensures r.Some? <==> Projectable(x, n)
    ensures r.Some? ==> r.value == n
  {
    match x
    case Slice(data) => if n == |data| then Some(n) else None
    case Scalar(_) => Some(n)
  }

  /** `into_mem_loader().projected_len()`: a slice's own length, and 1 for a
      scalar, which is then not broadcast at all. */
  function UnprojectedLen(x: Operand): (r: nat)
    ensures Projectable(x, r)
    ensures x.Scalar? ==> r == 1
  {
    match x
    case Slice(data) => |data|
    case Scalar(_) => 1
  }

  /** The elements a loader of projected length `n` stands for, in order. */
  function Elements(x: Operand, n: nat): (r: seq<int>)
    requires Projectable(x, n)
    ensures |r| == n
    ensures x.Scalar? ==> forall i :: 0 <= i < n ==> r[i] == x.value
  {
    match x
    case Slice(data) => data
    case Scalar(v) => Fill(n, v)
  }

  /** Any window of a broadcast value loads as `filled`/`filled_dense`. */
  lemma LoadFill(n: nat, v: int, off: nat, lanes: nat)
    requires off + ElementsPerDense(lanes) <= n
    ensures Load(Fill(n, v), off, lanes) == Filled(lanes, v)
    ensures SimdApi.LoadDense(Fill(n, v), off, lanes) == FilledDense(lanes, v)
  {
    var s := Fill(n, v);
    forall k | 0 <= k < NumLanes
      ensures off + lanes * k + lanes <= n
      ensures Load(s, off + lanes * k, lanes) == Filled(lanes, v)
    {
      assert lanes * k + lanes <= lanes * NumLanes by { Arith.MulMono(lanes, k + 1, NumLanes); }
      LoadFillOne(n, v, off + lanes * k, lanes);
    }
    LoadFillOne(n, v, off, lanes);
  }

  /** One register of a broadcast value loads as `filled`. */
  lemma LoadFillOne(n: nat, v: int, p: nat, lanes: nat)
    requires p + lanes <= n
    ensures Load(Fill(n, v), p, lanes) == Filled(lanes, v)
  {
  }

  /** `PtrBufferLoader` (over `Slice`) and `ScalarBufferLoader` (over
      `Scalar`) as one loader; only the slice form uses `cursor`. */
  class Loader {
    const operand: Operand
    /** `projected_len()`: `data_len` for a slice, the stored length for a scalar. */
    const projectedLen: nat
    /** `data_cursor` */
    var cursor: nat

    ghost predicate Valid() {
      Projectable(operand, projectedLen)
    }

    constructor(x: Operand, n: nat)
      requires Projectable(x, n)
      ensures Valid() && operand == x && projectedLen == n && cursor == 0
    {
      operand := x;
      projectedLen := n;
      cursor := 0;
    }

    /** `true_len()`: the slice length, or 1 for a single value. */
    function TrueLen(): (r: nat)
      requires Valid()
      ensures operand.Slice? ==> r == projectedLen
      ensures operand.Scalar? ==> r == 1
    {
      match operand
      case Slice(data) => |data|
      case Scalar(_) => 1
    }

    ghost function View(): seq<int>
      requires Valid()
    {
      Elements(operand, projectedLen)
    }

    /** `load_dense::<R>()`: the dense lane at the cursor, which then moves
        past it; for a scalar, `filled_dense(value)` and no move. `at` is the
        position the kernel has reached, which a slice's cursor must equal. */
    method LoadDense(lanes: nat, ghost at: nat) returns (lane: DenseLane<Register>)
      requires Valid() && at + ElementsPerDense(lanes) <= projectedLen
      requires operand.Slice? ==> cursor == at
      modifies this
      ensures lane == SimdApi.LoadDense(View(), at, lanes)
      ensures operand.Scalar? ==> lane == FilledDense(lanes, operand.value)
      ensures cursor == if operand.Slice? then old(cursor) + ElementsPerDense(lanes) else old(cursor)
    {
      match operand
      case Slice(data) =>
        lane := SimdApi.LoadDense(data, cursor, lanes);
        cursor := cursor + ElementsPerDense(lanes);
      case Scalar(v) =>
        lane := FilledDense(lanes, v);
        LoadFill(projectedLen, v, at, lanes);
    }

    /** `load::<R>()`: one register at the cursor, which then moves past it;
        for a scalar, `filled(value)` and no move. */
    method Load(lanes: nat, ghost at: nat) returns (reg: Register)
      requires Valid() && at + lanes <= projectedLen
      requires operand.Slice? ==> cursor == at
      modifies this
      ensures reg == SimdApi.Load(View(), at, lanes)
      ensures operand.Scalar? ==> reg == Filled(lanes, operand.value)
      ensures cursor == if operand.Slice? then old(cursor) + lanes else old(cursor)
    {
      match operand
      case Slice(data) =>
        reg := SimdApi.Load(data, cursor, lanes);
        cursor := cursor + lanes;
      case Scalar(v) =>
        reg := Filled(lanes, v);
        assert SimdApi.Load(Fill(projectedLen, v), at, lanes) == reg;
    }

    /** `read()`: the element at the cursor, which then moves on by one; for
        a scalar, the value and no move. */
    method Read(ghost at: nat) returns (v: int)
      requires Valid() && at < projectedLen
      requires operand.Slice? ==> cursor == at
      modifies this
      ensures v == View()[at]
      ensures cursor == if operand.Slice? then old(cursor) + 1 else old(cursor)
    {
      match operand
      case Slice(data) =>
        v := data[cursor];
        cursor := cursor + 1;
      case Scalar(x) =>
        v := x;
    }
  }

  /** `into_mem_loader()`: never panics; projected onto its own length. */
  method IntoMemLoader(x: Operand) returns (l: Loader)
    ensures fresh(l) && l.Valid()
    ensures l.operand == x && l.projectedLen == UnprojectedLen(x) && l.cursor == 0
  {
    l := new Loader(x, UnprojectedLen(x));
  }

  /** `into_projected_mem_loader(n)`: `None` is the panic of a slice whose
      length is not `n`. */
  method IntoProjectedMemLoader(x: Operand, n: nat) returns (r: Option<Loader>)
    ensures r.None? <==> !Projectable(x, n)
    ensures r.Some? ==> fresh(r.value) && r.value.Valid()
    ensures r.Some? ==> r.value.operand == x && r.value.projectedLen == n && r.value.cursor == 0
  {
    if x.Slice? && |x.data| != n {
      return None;
    }
    var l := new Loader(x, n);
    return Some(l);
  }

  /** `n` successive `read()`s from a fresh loader yield the first `n`
      elements in order: the slice's prefix, or `n` copies of the value. */
  method ReadPrefix(l: Loader, n: nat) returns (out: seq<int>)
    requires l.Valid() && l.cursor == 0 && n <= l.projectedLen
    modifies l
    ensures out == l.View()[..n]
    ensures l.operand.Scalar? ==> out == Fill(n, l.operand.value)
  {
    out := [];
    var k := 0;
    while k < n
      invariant 0 <= k <= n && out == l.View()[..k]
      invariant l.operand.Slice? ==> l.cursor == k
    {
      var v := l.Read(k);
      out := out + [v];
      k := k + 1;
    }
  }

  /** The loader tests: a scalar projected onto 10 reads 1.0 ten times, a
      three-element slice reads its elements in order, and projecting it
      onto 10 panics. */
  lemma LoaderExamples()
    ensures UnprojectedLen(Scalar(1)) == 1
    ensures ProjectedLen(Scalar(1), 10) == Some(10) && Elements(Scalar(1), 10) == Fill(10, 1)
    ensures UnprojectedLen(Slice([1, 2, 3])) == 3 && Elements(Slice([1, 2, 3]), 3) == [1, 2, 3]
    ensures ProjectedLen(Slice([1, 2, 3]), 10) == None
  {
  }
}
