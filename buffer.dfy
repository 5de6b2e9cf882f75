/** `WriteOnlyBuffer`: the output of every kernel, a slice of initialised or
    uninitialised elements that the kernels only ever write. The ghost
    `writes` counts, per slot, how many times it has been written, so that a
    kernel can promise to write each slot below `dims` exactly once and no
    slot beyond it. */
module Buffer {
  import opened SimdApi

  /** One more write recorded at every index in `[off, off + n)`. */
  ghost function Bump(w: seq<nat>, off: nat, n: nat): (r: seq<nat>)
    ensures |r| == |w|
  {
    seq(|w|, j requires 0 <= j < |w| => if off <= j < off + n then w[j] + 1 else w[j])
  }

  /** Recording two adjacent runs of writes is recording their union. */
  lemma BumpAdjacent(w: seq<nat>, off: nat, n1: nat, n2: nat)
    ensures Bump(Bump(w, off, n1), off + n1, n2) == Bump(w, off, n1 + n2)
  {
  }

  /** One more element of `reg` stored after the first `k`. */
  lemma StoreOne(mem: seq<int>, off: nat, reg: seq<int>, k: nat)
    requires k < |reg| && off + |reg| <= |mem|
    ensures Store(mem, off, reg[..k])[off + k := reg[k]] == Store(mem, off, reg[..k + 1])
  {
  }

  /** One more write recorded after the first `k`. */
  lemma BumpOne(w: seq<nat>, off: nat, k: nat)
    requires off + k < |w|
    ensures Bump(w, off, k)[off + k := Bump(w, off, k)[off + k] + 1] == Bump(w, off, k + 1)
  {
  }

  /** The slot types that implement the trait: the ten primitive element
      types, each as a plain slice or a `MaybeUninit` slice. */
  datatype Primitive = F32 | F64 | I8 | I16 | I32 | I64 | U8 | U16 | U32 | U64
  datatype SealedSlice = Init(elem: Primitive) | Uninit(elem: Primitive)

  /** `WriteOnlyBuffer::Item`: both forms of a slice expose the element type. */
  function Item(s: SealedSlice): (r: Primitive)
    ensures r == s.elem
  {
    match s
    case Init(e) => e
    case Uninit(e) => e
  }

  class WriteOnlyBuffer {
    /** The slots, including those not yet initialised. */
    const buf: array<int>
    ghost var writes: seq<nat>

    ghost predicate Valid()
      reads this
    {
      |writes| == buf.Length
    }

    /** A buffer of `contents.Length` slots, none written yet. */
    constructor(contents: seq<int>)
      ensures Valid() && fresh(buf)
      ensures buf[..] == contents
      ensures writes == seq(|contents|, _ => 0)
    {
      buf := new int[|contents|](i requires 0 <= i < |contents| => contents[i]);
      writes := seq(|contents|, _ => 0);
    }

    /** `raw_buffer_len`: the slice length, uninitialised slots included. */
    function RawBufferLen(): nat
      reads this
    {
      buf.Length
    }

    /** `write_at(idx, value)`: the caller guarantees `idx < raw_buffer_len`. */
    method WriteAt(idx: nat, value: int)
      requires Valid() && idx < buf.Length
      modifies buf, this`writes
      ensures Valid()
      ensures buf[..] == old(buf[..])[idx := value]
      ensures writes == Bump(old(writes), idx, 1)
    {
      buf[idx] := value;
      writes := writes[idx := writes[idx] + 1];
    }

    /** `R::write(result_ptr.add(off), reg)`: one register stored through the
        write-only pointer, lane k at `off + k`. */
    method Write(off: nat, reg: Register)
      requires Valid() && off + |reg| <= buf.Length
      modifies buf, this`writes
      ensures Valid()
      ensures buf[..] == Store(old(buf[..]), off, reg)
      ensures writes == Bump(old(writes), off, |reg|)
    {
      var k := 0;
      while k < |reg|
        invariant 0 <= k <= |reg| && Valid()
        invariant buf[..] == Store(old(buf[..]), off, reg[..k])
        invariant writes == Bump(old(writes), off, k)
      {
        StoreOne(old(buf[..]), off, reg, k);
        BumpOne(old(writes), off, k);
        buf[off + k] := reg[k];
        writes := writes[off + k := writes[off + k] + 1];
        k := k + 1;
      }
      assert reg[..k] == reg;
    }

    /** `R::write_dense(result_ptr.add(off), lane)`: slot k written at
        `off + k * elements_per_lane`, which stores the flattened lane in
        one window and writes each of its elements once. */
    method WriteDense(off: nat, lanes: nat, lane: DenseLane<Register>)
      requires Valid() && Uniform(lane, lanes) && off + ElementsPerDense(lanes) <= buf.Length
      modifies buf, this`writes
      ensures Valid()
      ensures buf[..] == Store(old(buf[..]), off, Flatten(lane))
      ensures writes == Bump(old(writes), off, ElementsPerDense(lanes))
    {
      ghost var w0, m0 := writes, buf[..];
      assert buf[..] == Store(m0, off, []) && writes == Bump(w0, off, 0);
      WriteQuad(w0, m0, off, [], 0, lane.a, lane.b, lane.c, lane.d);
      assert [] + lane.a + lane.b + lane.c + lane.d == lane.a + lane.b + lane.c + lane.d;
      WriteQuad(w0, m0, off, lane.a + lane.b + lane.c + lane.d, lanes * 4, lane.e, lane.f, lane.g, lane.h);
    }

    /** Four registers of one size written one after another just after the
        `prefix` already written at `off`. */
    method WriteQuad(ghost w0: seq<nat>, ghost m0: seq<int>, off: nat, ghost prefix: seq<int>, n: nat,
                     r1: Register, r2: Register, r3: Register, r4: Register)
      requires Valid() && |m0| == buf.Length && |prefix| == n
      requires |r2| == |r1| && |r3| == |r1| && |r4| == |r1| && off + n + 4 * |r1| <= buf.Length
      requires buf[..] == Store(m0, off, prefix) && writes == Bump(w0, off, n)
      modifies buf, this`writes
      ensures Valid()
      ensures buf[..] == Store(m0, off, prefix + r1 + r2 + r3 + r4)
      ensures writes == Bump(w0, off, n + 4 * |r1|)
    {
      var L := |r1|;
      WriteNext(w0, m0, off, prefix, n, r1);
      WriteNext(w0, m0, off, prefix + r1, n + L, r2);
      WriteNext(w0, m0, off, prefix + r1 + r2, n + 2 * L, r3);
      WriteNext(w0, m0, off, prefix + r1 + r2 + r3, n + 3 * L, r4);
    }

    /** One more register written just after the `prefix` already written at
        `off`: the stored window and the write counts both grow by `reg`. */
    method WriteNext(ghost w0: seq<nat>, ghost m0: seq<int>, off: nat, ghost prefix: seq<int>, n: nat, reg: Register)
      requires Valid() && |m0| == buf.Length && |prefix| == n && off + n + |reg| <= buf.Length
      requires buf[..] == Store(m0, off, prefix) && writes == Bump(w0, off, n)
      modifies buf, this`writes
      ensures Valid()
      ensures buf[..] == Store(m0, off, prefix + reg)
      ensures writes == Bump(w0, off, n + |reg|)
    {
      Write(off + n, reg);
      StoreAdjacent(m0, off, prefix, reg);
      BumpAdjacent(w0, off, n, |reg|);
    }
  }
}
