/** `SimdRegister` and `DenseLane`: a register holds `L >= 1` elements (its
    `elements_per_lane`), a dense lane bundles eight registers, and every
    default `*_dense` op applies the register op slot by slot. Memory is a
    sequence of elements; a load reads a window of it and a write replaces
    one. Register ops are the scalar op lifted lane by lane, which is the
    condition under which the generic kernels agree with their scalar tails. */
module SimdApi {
  import opened IntMath
  import opened ScalarOps
  import opened Monoids

  /** The elements of one SIMD register, lane 0 first. */
  type Register = seq<int>

  datatype DenseLane<T> = DenseLane(a: T, b: T, c: T, d: T, e: T, f: T, g: T, h: T)

  /** `DenseLane::NUM_LANES` */
  const NumLanes: nat := 8

  /** `DenseLane::copy`: the same value in all eight slots. */
  function Copy<T>(v: T): (r: DenseLane<T>)
    ensures forall k :: 0 <= k < NumLanes ==> Slot(r, k) == v
  {
    DenseLane(v, v, v, v, v, v, v, v)
  }

  /** Slot `k` of a dense lane: `a` is slot 0, `h` is slot 7. */
  function Slot<T>(lane: DenseLane<T>, k: nat): T
    requires k < NumLanes
  {
    match k
    case 0 => lane.a
    case 1 => lane.b
    case 2 => lane.c
    case 3 => lane.d
    case 4 => lane.e
    case 5 => lane.f
    case 6 => lane.g
    case _ => lane.h
  }

  /** `elements_per_dense`: eight registers' worth of elements. */
  function ElementsPerDense(lanes: nat): nat {
    NumLanes * lanes
  }

  /** Every slot holds exactly `lanes` elements. */
  predicate Uniform(lane: DenseLane<Register>, lanes: nat) {
    |lane.a| == lanes && |lane.b| == lanes && |lane.c| == lanes && |lane.d| == lanes &&
    |lane.e| == lanes && |lane.f| == lanes && |lane.g| == lanes && |lane.h| == lanes
  }

  /** Two dense lanes whose slots pair up element for element. */
  predicate SameShape(x: DenseLane<Register>, y: DenseLane<Register>) {
    |x.a| == |y.a| && |x.b| == |y.b| && |x.c| == |y.c| && |x.d| == |y.d| &&
    |x.e| == |y.e| && |x.f| == |y.f| && |x.g| == |y.g| && |x.h| == |y.h|
  }

  /** The elements of a dense lane in memory order. */
  function Flatten(lane: DenseLane<Register>): seq<int> {
    lane.a + lane.b + lane.c + lane.d + lane.e + lane.f + lane.g + lane.h
  }

  /** A uniform dense lane flattens to `elements_per_dense` elements. */
  lemma FlattenLength(lane: DenseLane<Register>, lanes: nat)
    requires Uniform(lane, lanes)
    ensures |Flatten(lane)| == ElementsPerDense(lanes)
  {
  }

  /** `filled(v)`: a register with `v` in every lane. */
  function Filled(lanes: nat, v: int): Register { Fill(lanes, v) }

  /** `filled_dense(v) = copy(filled(v))` */
  function FilledDense(lanes: nat, v: int): DenseLane<Register> { Copy(Filled(lanes, v)) }

  /** `zeroed_dense() = copy(zeroed())` */
  function ZeroedDense(t: IntType, lanes: nat): DenseLane<Register> { Copy(Filled(lanes, Zero(t))) }

  /** A filled dense lane is `8 * L` copies of its value in memory order. */
  lemma FilledDenseFlatten(lanes: nat, v: int)
    ensures Uniform(FilledDense(lanes, v), lanes)
    ensures Flatten(FilledDense(lanes, v)) == Fill(ElementsPerDense(lanes), v)
  {
  }

  /** `load`: one register from `mem` at element offset `off`. */
  function Load(mem: seq<int>, off: nat, lanes: nat): (r: Register)
    requires off + lanes <= |mem|
    ensures |r| == lanes
  {
    mem[off..off + lanes]
  }

  /** `load_dense`: slot k is the register at `off + k * elements_per_lane`. */
  function LoadDense(mem: seq<int>, off: nat, lanes: nat): DenseLane<Register>
    requires off + ElementsPerDense(lanes) <= |mem|
  {
    DenseLane(
      Load(mem, off + lanes * 0, lanes), Load(mem, off + lanes * 1, lanes),
      Load(mem, off + lanes * 2, lanes), Load(mem, off + lanes * 3, lanes),
      Load(mem, off + lanes * 4, lanes), Load(mem, off + lanes * 5, lanes),
      Load(mem, off + lanes * 6, lanes), Load(mem, off + lanes * 7, lanes))
  }

  lemma SliceConcat(s: seq<int>, i: nat, j: nat, k: nat)
    requires i <= j <= k <= |s|
    ensures s[i..j] + s[j..k] == s[i..k]
  {
  }

  /** The eight loaded registers are exactly the `8 * L` elements from `off`. */
  lemma LoadDenseFlatten(mem: seq<int>, off: nat, end: nat, lanes: nat)
    requires end == off + ElementsPerDense(lanes) && end <= |mem|
    ensures Uniform(LoadDense(mem, off, lanes), lanes)
    ensures Flatten(LoadDense(mem, off, lanes)) == mem[off..end]
  {
    var L, x := lanes, LoadDense(mem, off, lanes);
    LoadFirstHalf(mem, off, lanes);
    LoadNext(mem, off, off + L * 4, off + L * 5, L, x.a + x.b + x.c + x.d, x.e);
    LoadNext(mem, off, off + L * 5, off + L * 6, L, x.a + x.b + x.c + x.d + x.e, x.f);
    LoadNext(mem, off, off + L * 6, off + L * 7, L, x.a + x.b + x.c + x.d + x.e + x.f, x.g);
    LoadNext(mem, off, off + L * 7, end, L, x.a + x.b + x.c + x.d + x.e + x.f + x.g, x.h);
  }

  /** The first four registers are the `4 * L` elements from `off`. */
  lemma LoadFirstHalf(mem: seq<int>, off: nat, lanes: nat)
    requires off + ElementsPerDense(lanes) <= |mem|
    ensures var x := LoadDense(mem, off, lanes); x.a + x.b + x.c + x.d == mem[off..off + lanes * 4]
  {
    var L, x := lanes, LoadDense(mem, off, lanes);
    assert x.a == mem[off..off + L * 1];
    LoadNext(mem, off, off + L * 1, off + L * 2, L, x.a, x.b);
    LoadNext(mem, off, off + L * 2, off + L * 3, L, x.a + x.b, x.c);
    LoadNext(mem, off, off + L * 3, off + L * 4, L, x.a + x.b + x.c, x.d);
  }

  /** The window `[off, e)` followed by the register at `e` is the window
      `[off, e + L)`. */
  lemma LoadNext(mem: seq<int>, off: nat, e: nat, e': nat, lanes: nat, prefix: seq<int>, reg: Register)
    requires off <= e && e' == e + lanes && e' <= |mem|
    requires prefix == mem[off..e] && reg == Load(mem, e, lanes)
    ensures prefix + reg == mem[off..e']
  {
  }

  /** `write`: memory after storing a register at `off`. */
  function Store(mem: seq<int>, off: nat, reg: Register): (r: seq<int>)
    requires off + |reg| <= |mem|
    ensures |r| == |mem|
  {
    mem[..off] + reg + mem[off + |reg|..]
  }

  /** Two adjacent stores are one store of the concatenation. */
  lemma StoreAdjacent(mem: seq<int>, off: nat, x: Register, y: Register)
    requires off + |x| + |y| <= |mem|
    ensures Store(Store(mem, off, x), off + |x|, y) == Store(mem, off, x + y)
  {
  }

  /** Writing back a dense lane loaded from the same offset leaves memory
      unchanged: loads and writes use the same slot offsets. */
  lemma StoreLoadedDense(mem: seq<int>, off: nat, lanes: nat)
    requires off + ElementsPerDense(lanes) <= |mem|
    ensures Uniform(LoadDense(mem, off, lanes), lanes)
    ensures Store(mem, off, Flatten(LoadDense(mem, off, lanes))) == mem
  {
    LoadDenseFlatten(mem, off, off + ElementsPerDense(lanes), lanes);
    assert mem[..off] + mem[off..off + ElementsPerDense(lanes)] + mem[off + ElementsPerDense(lanes)..] == mem;
  }

  // ------------------------------------------------------------- lane ops

  /** Every slot of `y` is a valid right-hand side for `op`. */
  predicate DenseDefined(op: BinOp, y: DenseLane<Register>) {
    AllDefined(op, y.a) && AllDefined(op, y.b) && AllDefined(op, y.c) && AllDefined(op, y.d) &&
    AllDefined(op, y.e) && AllDefined(op, y.f) && AllDefined(op, y.g) && AllDefined(op, y.h)
  }

  /** The default `add_dense`, `max_dense`, `eq_dense`, ...: `apply_dense!`
      of the register op over the eight slot pairs. */
  function DenseOp(t: IntType, op: BinOp, x: DenseLane<Register>, y: DenseLane<Register>): (r: DenseLane<Register>)
    requires SameShape(x, y) && DenseDefined(op, y)
    ensures SameShape(r, x)
  {
    DenseLane(
      Zip(t, op, x.a, y.a), Zip(t, op, x.b, y.b), Zip(t, op, x.c, y.c), Zip(t, op, x.d, y.d),
      Zip(t, op, x.e, y.e), Zip(t, op, x.f, y.f), Zip(t, op, x.g, y.g), Zip(t, op, x.h, y.h))
  }

  /** A slot-by-slot op is the lane-by-lane op over the flattened elements. */
  lemma DenseOpFlatten(t: IntType, op: BinOp, x: DenseLane<Register>, y: DenseLane<Register>)
    requires SameShape(x, y) && DenseDefined(op, y)
    ensures AllDefined(op, Flatten(y))
    ensures Flatten(DenseOp(t, op, x, y)) == Zip(t, op, Flatten(x), Flatten(y))
  {
    ZipConcat(t, op, x.a, x.b, y.a, y.b);
    var xs, ys := x.a + x.b, y.a + y.b;
    ZipConcat(t, op, xs, x.c, ys, y.c);
    xs, ys := xs + x.c, ys + y.c;
    ZipConcat(t, op, xs, x.d, ys, y.d);
    xs, ys := xs + x.d, ys + y.d;
    ZipConcat(t, op, xs, x.e, ys, y.e);
    xs, ys := xs + x.e, ys + y.e;
    ZipConcat(t, op, xs, x.f, ys, y.f);
    xs, ys := xs + x.f, ys + y.f;
    ZipConcat(t, op, xs, x.g, ys, y.g);
    xs, ys := xs + x.g, ys + y.g;
    ZipConcat(t, op, xs, x.h, ys, y.h);
  }

  /** Register `k` loaded from memory whose elements are all valid
      right-hand sides of `op` holds valid right-hand sides too. */
  lemma LoadDefined(op: BinOp, mem: seq<int>, off: nat, lanes: nat, k: nat)
    requires AllDefined(op, mem) && off + lanes * (k + 1) <= |mem|
    ensures off + lanes * k + lanes <= |mem|
    ensures AllDefined(op, Load(mem, off + lanes * k, lanes))
  {
    var r := Load(mem, off + lanes * k, lanes);
    forall j | 0 <= j < |r| ensures Defined(op, r[j]) {
      assert r[j] == mem[off + lanes * k + j];
    }
  }

  lemma LoadDenseDefined(op: BinOp, mem: seq<int>, off: nat, lanes: nat)
    requires AllDefined(op, mem) && off + ElementsPerDense(lanes) <= |mem|
    ensures DenseDefined(op, LoadDense(mem, off, lanes))
  {
    LoadDefinedLow(op, mem, off, lanes);
    LoadDefined(op, mem, off, lanes, 4);
    LoadDefined(op, mem, off, lanes, 5);
    LoadDefined(op, mem, off, lanes, 6);
    LoadDefined(op, mem, off, lanes, 7);
  }

  lemma LoadDefinedLow(op: BinOp, mem: seq<int>, off: nat, lanes: nat)
    requires AllDefined(op, mem) && off + ElementsPerDense(lanes) <= |mem|
    ensures var x := LoadDense(mem, off, lanes);
      AllDefined(op, x.a) && AllDefined(op, x.b) && AllDefined(op, x.c) && AllDefined(op, x.d)
  {
    LoadDefined(op, mem, off, lanes, 0);
    LoadDefined(op, mem, off, lanes, 1);
    LoadDefined(op, mem, off, lanes, 2);
    LoadDefined(op, mem, off, lanes, 3);
  }

  /** `fmadd(l1, l2, acc) = add(mul(l1, l2), acc)` on a register. */
  function FmAdd(t: IntType, l1: Register, l2: Register, acc: Register): Register
    requires |l1| == |l2| == |acc|
  {
    Zip(t, Add, Zip(t, Mul, l1, l2), acc)
  }

  /** `fmadd_dense`: `fmadd` slot by slot. */
  function FmAddDense(t: IntType, l1: DenseLane<Register>, l2: DenseLane<Register>, acc: DenseLane<Register>): DenseLane<Register>
    requires SameShape(l1, l2) && SameShape(l1, acc)
  {
    DenseOp(t, Add, DenseOp(t, Mul, l1, l2), acc)
  }

  /** A slot-by-slot `fmadd` is `fmadd` over the flattened elements. */
  lemma FmAddDenseFlatten(t: IntType, l1: DenseLane<Register>, l2: DenseLane<Register>, acc: DenseLane<Register>)
    requires SameShape(l1, l2) && SameShape(l1, acc)
    ensures SameShape(FmAddDense(t, l1, l2, acc), l1)
    ensures |Flatten(l1)| == |Flatten(l2)| == |Flatten(acc)|
    ensures Flatten(FmAddDense(t, l1, l2, acc)) == FmAdd(t, Flatten(l1), Flatten(l2), Flatten(acc))
  {
    var prod := DenseOp(t, Mul, l1, l2);
    DenseOpFlatten(t, Mul, l1, l2);
    DenseOpFlatten(t, Add, prod, acc);
  }

  /** `sum_to_register`, `max_to_register`, `min_to_register`: the eight
      slots reduced pairwise as ((a.b).(c.d)).((e.f).(g.h)). */
  function ToRegister(t: IntType, m: Monoid, lane: DenseLane<Register>): Register
    requires Uniform(lane, |lane.a|)
  {
    var op := OpOf(m);
    var acc1 := Zip(t, op, lane.a, lane.b);
    var acc2 := Zip(t, op, lane.c, lane.d);
    var acc3 := Zip(t, op, lane.e, lane.f);
    var acc4 := Zip(t, op, lane.g, lane.h);
    Zip(t, op, Zip(t, op, acc1, acc2), Zip(t, op, acc3, acc4))
  }

  /** `sum_to_value`, `max_to_value`, `min_to_value`: a backend's horizontal
      reduction of one register, taken here to be the fold of its lanes. */
  function ToValue(t: IntType, m: Monoid, reg: Register): int {
    Fold(t, m, reg)
  }

  /** The fold of a flattened dense lane, slot by slot. */
  lemma FoldFlatten(t: IntType, m: Monoid, lane: DenseLane<Register>)
    requires AllInRange(t, Flatten(lane))
    ensures AllInRange(t, lane.a) && AllInRange(t, lane.b) && AllInRange(t, lane.c) && AllInRange(t, lane.d)
    ensures AllInRange(t, lane.e) && AllInRange(t, lane.f) && AllInRange(t, lane.g) && AllInRange(t, lane.h)
    ensures Fold(t, m, Flatten(lane)) == Fold(t, m, [
      Fold(t, m, lane.a), Fold(t, m, lane.b), Fold(t, m, lane.c), Fold(t, m, lane.d),
      Fold(t, m, lane.e), Fold(t, m, lane.f), Fold(t, m, lane.g), Fold(t, m, lane.h)])
  {
    var low, high := lane.a + lane.b + lane.c + lane.d, lane.e + lane.f + lane.g + lane.h;
    assert low + high == Flatten(lane);
    InRangePieces(t, low, high);
    var fl := FoldQuad(t, m, lane.a, lane.b, lane.c, lane.d);
    var fh := FoldQuad(t, m, lane.e, lane.f, lane.g, lane.h);
    FoldAppend(t, m, low, high);
    FoldAppend(t, m, fl, fh);
    assert fl + fh == [
      Fold(t, m, lane.a), Fold(t, m, lane.b), Fold(t, m, lane.c), Fold(t, m, lane.d),
      Fold(t, m, lane.e), Fold(t, m, lane.f), Fold(t, m, lane.g), Fold(t, m, lane.h)];
  }

  /** The fold of four concatenated pieces is the fold of their four folds. */
  lemma FoldQuad(t: IntType, m: Monoid, w: seq<int>, x: seq<int>, y: seq<int>, z: seq<int>) returns (fs: seq<int>)
    requires AllInRange(t, w + x + y + z)
    ensures AllInRange(t, w) && AllInRange(t, x) && AllInRange(t, y) && AllInRange(t, z)
    ensures fs == [Fold(t, m, w), Fold(t, m, x), Fold(t, m, y), Fold(t, m, z)] && AllInRange(t, fs)
    ensures Fold(t, m, w + x + y + z) == Fold(t, m, fs)
  {
    InRangePieces(t, w + x + y, z);
    InRangePieces(t, w + x, y);
    InRangePieces(t, w, x);
    var A, B, C, D := Fold(t, m, w), Fold(t, m, x), Fold(t, m, y), Fold(t, m, z);
    FoldInRange(t, m, w);
    FoldInRange(t, m, x);
    FoldInRange(t, m, y);
    FoldInRange(t, m, z);
    FoldSingleton(t, m, A);
    FoldStep(t, m, w, x, [A]);
    assert [A] + [B] == [A, B];
    FoldStep(t, m, w + x, y, [A, B]);
    assert [A, B] + [C] == [A, B, C];
    FoldStep(t, m, w + x + y, z, [A, B, C]);
    assert [A, B, C] + [D] == [A, B, C, D];
    fs := [A, B, C, D];
    Quad(t, m, A, B, C, D);
  }

  /** Appending one more piece to a sequence adds its fold as one more term. */
  lemma FoldStep(t: IntType, m: Monoid, s: seq<int>, piece: seq<int>, fs: seq<int>)
    requires AllInRange(t, s) && AllInRange(t, piece) && Fold(t, m, s) == Fold(t, m, fs)
    ensures Fold(t, m, s + piece) == Fold(t, m, fs + [Fold(t, m, piece)])
  {
    FoldAppend(t, m, s, piece);
    var u := fs + [Fold(t, m, piece)];
    assert u[..|u| - 1] == fs;
    assert Fold(t, m, u) == Combine(t, m, Fold(t, m, fs), Fold(t, m, piece));
  }

  /** Both pieces of a concatenation of in-range values are in range. */
  lemma InRangePieces(t: IntType, x: seq<int>, y: seq<int>)
    requires AllInRange(t, x + y)
    ensures AllInRange(t, x) && AllInRange(t, y)
  {
    assert forall i :: 0 <= i < |x| ==> x[i] == (x + y)[i];
    assert forall i :: 0 <= i < |y| ==> y[i] == (x + y)[|x| + i];
  }

  /** Reducing a dense lane to one register keeps its fold: the register's
      lanes fold to the fold of all `8 * L` elements. */
  lemma ToRegisterFold(t: IntType, m: Monoid, lane: DenseLane<Register>)
    requires Uniform(lane, |lane.a|) && AllInRange(t, Flatten(lane))
    ensures |ToRegister(t, m, lane)| == |lane.a|
    ensures AllInRange(t, ToRegister(t, m, lane))
    ensures Fold(t, m, ToRegister(t, m, lane)) == Fold(t, m, Flatten(lane))
  {
    FoldFlatten(t, m, lane);
    var op := OpOf(m);
    var acc1 := Zip(t, op, lane.a, lane.b);
    var acc2 := Zip(t, op, lane.c, lane.d);
    var acc3 := Zip(t, op, lane.e, lane.f);
    var acc4 := Zip(t, op, lane.g, lane.h);
    var fa, fb, fc, fd := Fold(t, m, lane.a), Fold(t, m, lane.b), Fold(t, m, lane.c), Fold(t, m, lane.d);
    var fe, ff, fg, fh := Fold(t, m, lane.e), Fold(t, m, lane.f), Fold(t, m, lane.g), Fold(t, m, lane.h);
    assert Fold(t, m, acc1) == Combine(t, m, fa, fb) by { FoldPointwise(t, m, lane.a, lane.b); }
    assert Fold(t, m, acc2) == Combine(t, m, fc, fd) by { FoldPointwise(t, m, lane.c, lane.d); }
    assert Fold(t, m, acc3) == Combine(t, m, fe, ff) by { FoldPointwise(t, m, lane.e, lane.f); }
    assert Fold(t, m, acc4) == Combine(t, m, fg, fh) by { FoldPointwise(t, m, lane.g, lane.h); }
    var left, right := Zip(t, op, acc1, acc2), Zip(t, op, acc3, acc4);
    assert Fold(t, m, left) == Combine(t, m, Fold(t, m, acc1), Fold(t, m, acc2)) by { FoldPointwise(t, m, acc1, acc2); }
    assert Fold(t, m, right) == Combine(t, m, Fold(t, m, acc3), Fold(t, m, acc4)) by { FoldPointwise(t, m, acc3, acc4); }
    assert Fold(t, m, Zip(t, op, left, right)) == Combine(t, m, Fold(t, m, left), Fold(t, m, right)) by {
      FoldPointwise(t, m, left, right);
    }
    assert Tree8(t, m, fa, fb, fc, fd, fe, ff, fg, fh) == Fold(t, m, [fa, fb, fc, fd, fe, ff, fg, fh]) by {
      FoldInRange(t, m, lane.a); FoldInRange(t, m, lane.b);
      FoldInRange(t, m, lane.c); FoldInRange(t, m, lane.d);
      FoldInRange(t, m, lane.e); FoldInRange(t, m, lane.f);
      FoldInRange(t, m, lane.g); FoldInRange(t, m, lane.h);
      Tree8IsFold(t, m, fa, fb, fc, fd, fe, ff, fg, fh);
    }
  }
}
