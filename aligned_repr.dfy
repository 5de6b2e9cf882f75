/** The `ndarray` storage `AlignedOwnedRepr<A>`: a growable vector of
    64-byte blocks holding `len` values of `A` (of `size` bytes) from the
    start. Written both as the source computes it and as intended. */
module AlignedRepr {
  import opened Wrappers

  /** Bytes per block. */
  const BlockBytes: nat := 64

  /** `capacity()`: how many values of `size` bytes `blocks` blocks hold. */
  function Capacity(size: nat, blocks: nat): nat
    requires size > 0
  {
    blocks * BlockBytes / size
  }

  /** A value count whose bytes fit in the blocks fits in the capacity. */
  lemma FitsCapacity(size: nat, blocks: nat, count: nat)
    requires size > 0 && size * count <= blocks * BlockBytes
    ensures count <= Capacity(size, blocks)
  {
    var bytes := blocks * BlockBytes;
    var cap := bytes / size;
    assert bytes == cap * size + bytes % size;
    if cap < count {
      ScaleLe(cap + 1, count, size);
      assert false;
    }
  }

  lemma ScaleLe(a: nat, b: nat, k: nat)
    requires a <= b
    ensures a * k <= b * k
  {
  }

  /** More blocks never hold fewer values. */
  lemma CapacityGrows(size: nat, blocks: nat, more: nat)
    requires size > 0 && blocks <= more
    ensures Capacity(size, blocks) <= Capacity(size, more)
  {
    var b0, b1 := blocks * BlockBytes, more * BlockBytes;
    assert b0 == (b0 / size) * size + b0 % size;
    assert b1 == (b1 / size) * size + b1 % size;
    ScaleLe(blocks, more, BlockBytes);
    if b1 / size < b0 / size {
      ScaleLe(b1 / size + 1, b0 / size, size);
      assert false;
    }
  }

  /** `missing / 64 + 1` new blocks give more than `missing` bytes. */
  lemma BlocksCover(missing: nat)
    ensures (missing / BlockBytes + 1) * BlockBytes > missing
  {
  }

  class AlignedOwnedRepr {
    /** `size_of::<A>()`. */
    const size: nat
    /** `buffer.len()`: how many blocks are allocated. */
    var blocks: nat
    /** `len`: how many values are stored. */
    var len: nat
    /** The blocks viewed as `capacity()` slots of `A`. */
    var raw: seq<int>

    predicate Valid()
      reads this
    {
      size > 0 && |raw| == Capacity(size, blocks) && size * len <= blocks * BlockBytes
    }

    /** `with_size(n)`: `n` only sizes the reservation of the block
        vector; no block is pushed, so the buffer is empty with capacity
        0 whatever `n` is. */
    constructor WithSize(size: nat, n: nat)
      requires size > 0
      ensures Valid() && this.size == size
      ensures len == 0 && blocks == 0 && Capacity(size, blocks) == 0 && AsSlice() == []
    {
      this.size := size;
      blocks := 0;
      len := 0;
      raw := [];
    }

    /** `as_slice`: the first `len` slots. */
    function AsSlice(): (r: seq<int>)
      reads this
      requires Valid()
      ensures |r| == len
    {
      FitsCapacity(size, blocks, len);
      raw[..len]
    }

    /** `spare_capacity`, as intended: the bytes still free after the `len`
        stored values. */
    function SpareBytes(): (r: nat)
      reads this
      requires Valid()
      ensures size * len + r == blocks * BlockBytes
    {
      blocks * BlockBytes - size * len
    }

    /** `reserve_capacity(num_extra)`: nothing happens when the spare bytes
        already hold `num_extra` more values; otherwise
        `missing / 64 + 1` zeroed blocks are appended, enough for them. No
        block is ever removed and the stored values stay. */
    method ReserveCapacity(numExtra: nat)
      requires Valid()
      modifies this
      ensures Valid() && len == old(len) && AsSlice() == old(AsSlice())
      ensures SpareBytes() >= size * numExtra
      ensures old(SpareBytes()) >= size * numExtra ==> blocks == old(blocks) && raw == old(raw)
      ensures old(SpareBytes()) < size * numExtra ==>
        blocks == old(blocks) + (size * numExtra - old(SpareBytes())) / BlockBytes + 1 && old(raw) <= raw
    {
      var spare := SpareBytes();
      var required := size * numExtra;
      if spare >= required {
        return;
      }
      var missing := required - spare;
      var grow := missing / BlockBytes + 1;
      BlocksCover(missing);
      CapacityGrows(size, blocks, blocks + grow);
      FitsCapacity(size, blocks, len);
      var before := raw;
      blocks := blocks + grow;
      raw := raw + seq(Capacity(size, blocks) - |raw|, _ => 0);
      assert raw[..len] == before[..len];
    }

    /** `push`, as intended: the value goes to slot `len`, after the stored
        ones. */
    method Push(item: int)
      requires Valid()
      modifies this
      ensures Valid() && blocks >= old(blocks)
      ensures old(SpareBytes()) >= size ==> blocks == old(blocks)
      ensures old(SpareBytes()) < size ==> blocks == old(blocks) + (size - old(SpareBytes())) / BlockBytes + 1
      ensures len == old(len) + 1 && AsSlice() == old(AsSlice()) + [item]
    {
      ReserveCapacity(1);
      FitsCapacity(size, blocks, len + 1);
      var stored := AsSlice();
      raw := raw[len := item];
      len := len + 1;
      assert AsSlice() == stored + [item];
    }

    /** `extend_from_slice`, as intended: the values go to the slots after
        the stored ones, in order. */
    method ExtendFromSlice(s: seq<int>)
      requires Valid()
      modifies this
      ensures Valid() && blocks >= old(blocks)
      ensures len == old(len) + |s| && AsSlice() == old(AsSlice()) + s
    {
      ReserveCapacity(|s|);
      FitsCapacity(size, blocks, len + |s|);
      var stored := AsSlice();
      raw := raw[..len] + s + raw[len + |s|..];
      len := len + |s|;
      assert AsSlice() == stored + s;
    }
  }

  /** `copy_from_slice`: an empty buffer extended by `data`. */
  method CopyFromSlice(size: nat, data: seq<int>) returns (repr: AlignedOwnedRepr)
    requires size > 0
    ensures fresh(repr) && repr.Valid() && repr.size == size
    ensures repr.AsSlice() == data
  {
    repr := new AlignedOwnedRepr.WithSize(size, |data|);
    repr.ExtendFromSlice(data);
  }

  /** The crate's push test: one `u8` gives length 1 and capacity 64;
      one `[u64; 32]` (256 bytes) gives capacity 1. */
  method PushExamples() returns (byteLen: nat, byteCapacity: nat, wideCapacity: nat)
    ensures byteLen == 1 && byteCapacity == 64 && wideCapacity == 1
  {
    var bytes := new AlignedOwnedRepr.WithSize(1, 5);
    bytes.Push(123);
    byteLen, byteCapacity := bytes.len, Capacity(1, bytes.blocks);
    assert bytes.blocks == 1;
    var wide := new AlignedOwnedRepr.WithSize(256, 5);
    wide.Push(32432);
    assert wide.blocks == 5;
    wideCapacity := Capacity(256, wide.blocks);
  }

  /** Two `u64` pushes keep both values, in order, in one block: after
      the first push 56 of its 64 bytes are still free, so the second
      push appends nothing (the source, `SpareMixesUnitsAsWritten`,
      appends a second block). */
  method PushTwoWords() returns (shown: seq<int>, blocks: nat)
    ensures shown == [1, 2] && blocks == 1
  {
    var words := new AlignedOwnedRepr.WithSize(8, 0);
    words.Push(1);
    assert words.blocks == 1 && words.SpareBytes() == 56;
    words.Push(2);
    shown, blocks := words.AsSlice(), words.blocks;
  }

  // ------------------------------------------------------- as written

  /** The state of `AlignedOwnedRepr` as the source manipulates it: the
      block count, `len`, and the slots written so far (every other slot
      of the zeroed blocks reads 0). */
  datatype Repr = Repr(blocks: nat, len: nat, written: map<nat, int>)

  /** The empty buffer `with_size` builds. */
  const Empty: Repr := Repr(0, 0, map[])

  /** What slot `i` of the blocks holds. */
  function Slot(r: Repr, i: nat): int {
    if i in r.written then r.written[i] else 0
  }

  /** `as_slice` as written: the first `len` slots; `None` where `len`
      runs past the capacity, so the slice would read outside the
      blocks. */
  function Shown(size: nat, r: Repr): (s: Option<seq<int>>)
    requires size > 0
    ensures s.Some? <==> r.len <= Capacity(size, r.blocks)
    ensures s.Some? ==> |s.value| == r.len && forall i :: 0 <= i < r.len ==> s.value[i] == Slot(r, i)
  {
    if r.len <= Capacity(size, r.blocks) then Some(seq(r.len, i requires 0 <= i => Slot(r, i))) else None
  }

  /** `spare_capacity` as written: the capacity in values less the stored
      values' bytes (negative where the `usize` subtraction overflows). */
  function SpareAsWritten(size: nat, r: Repr): int
    requires size > 0
  {
    Capacity(size, r.blocks) - size * r.len
  }

  /** `reserve_capacity` as written: `None` where the spare computation
      overflows; otherwise the blocks it appends, zeroed. */
  function ReserveAsWritten(size: nat, r: Repr, numExtra: nat): (res: Option<Repr>)
    requires size > 0
    ensures res.Some? ==> res.value.len == r.len && res.value.written == r.written && res.value.blocks >= r.blocks
  {
    var spare := SpareAsWritten(size, r);
    if spare < 0 then None
    else if spare >= size * numExtra then Some(r)
    else Some(r.(blocks := r.blocks + (size * numExtra - spare) / BlockBytes + 1))
  }

  /** `push` as written: the value goes to slot `len * size` (a byte
      offset used as a slot index); `None` where that slot is outside the
      blocks. */
  function PushAsWritten(size: nat, r: Repr, item: int): (res: Option<Repr>)
    requires size > 0
    ensures res.Some? ==> res.value.len == r.len + 1
  {
    match ReserveAsWritten(size, r, 1)
    case None => None
    case Some(g) =>
      var pos := g.len * size;
      if pos >= Capacity(size, g.blocks) then None
      else Some(Repr(g.blocks, g.len + 1, g.written[pos := item]))
  }

  /** `written` with `s` stored from slot `at` on. */
  function WriteAt(written: map<nat, int>, at: nat, s: seq<int>): (w: map<nat, int>)
    ensures forall i :: at <= i < at + |s| ==> i in w && w[i] == s[i - at]
    ensures forall i :: i in written && !(at <= i < at + |s|) ==> i in w && w[i] == written[i]
    decreases |s|
  {
    if |s| == 0 then written else WriteAt(written[at := s[0]], at + 1, s[1..])
  }

  /** `extend_from_slice` as written: the block pointer is advanced by
      `len * size` blocks, so the values go to slot `len * 64`; `None`
      where they do not fit there. */
  function ExtendAsWritten(size: nat, r: Repr, s: seq<int>): (res: Option<Repr>)
    requires size > 0
    ensures res.Some? ==> res.value.len == r.len + |s|
  {
    match ReserveAsWritten(size, r, |s|)
    case None => None
    case Some(g) =>
      var slot := g.len * BlockBytes;
      if slot + |s| > Capacity(size, g.blocks) then None
      else Some(Repr(g.blocks, g.len + |s|, WriteAt(g.written, slot, s)))
  }

  /** For one-byte values `push` is right as written: the value lands
      after the stored ones. */
  lemma PushBytesAsWritten(r: Repr, item: int)
    requires r.len <= Capacity(1, r.blocks)
    ensures PushAsWritten(1, r, item).Some?
    ensures Shown(1, PushAsWritten(1, r, item).value) == Some(Shown(1, r).value + [item])
  {
    var g := ReserveAsWritten(1, r, 1).value;
    FitsCapacity(1, g.blocks, g.len + 1);
    var p := PushAsWritten(1, r, item).value;
    assert Shown(1, p).value == Shown(1, r).value + [item];
  }

  /** For wider values `push` misplaces the value as written: the slot
      that `as_slice` newly shows keeps what it held, since the value went
      to slot `len * size` instead. */
  lemma PushMisplacedAsWritten(size: nat, r: Repr, item: int)
    requires size > 1 && r.len > 0 && PushAsWritten(size, r, item).Some?
    ensures Slot(PushAsWritten(size, r, item).value, r.len) == Slot(r, r.len)
  {
    var g := ReserveAsWritten(size, r, 1).value;
    var pos := g.len * size;
    ScaleLe(2, size, r.len);
    assert pos != r.len;
    assert PushAsWritten(size, r, item).value.written == g.written[pos := item];
  }

  /** `copy_from_slice` is right as written: extending the empty buffer
      writes from slot 0. */
  lemma CopyFromSliceAsWritten(size: nat, data: seq<int>)
    requires size > 0
    ensures ExtendAsWritten(size, Empty, data).Some?
    ensures Shown(size, ExtendAsWritten(size, Empty, data).value) == Some(data)
  {
    var g := ReserveAsWritten(size, Empty, |data|).value;
    if |data| > 0 {
      assert g.blocks * BlockBytes > size * |data|;
      FitsCapacity(size, g.blocks, |data|);
    }
    var e := ExtendAsWritten(size, Empty, data).value;
    assert Shown(size, e).value == data;
  }

  /** The first push as written, for a value smaller than a block: one
      block, the value in slot 0. */
  lemma FirstPushAsWritten(size: nat, item: int)
    requires 0 < size < BlockBytes
    ensures PushAsWritten(size, Empty, item) == Some(Repr(1, 1, map[0 := item]))
  {
    assert Capacity(size, 0) == 0;
    assert ReserveAsWritten(size, Empty, 1) == Some(Repr(1, 0, map[]));
    FitsCapacity(size, 1, 1);
  }

  /** Two pushes onto the empty buffer, as written. */
  function TwoPushesAsWritten(size: nat, x: int, y: int): Option<Repr>
    requires size > 0
  {
    match PushAsWritten(size, Empty, x)
    case None => None
    case Some(one) => PushAsWritten(size, one, y)
  }

  /** Two `u64` pushes as written: the second value goes to slot 8 of a
      second block and `as_slice` shows the first value and a zero, where
      the intended buffer (`PushTwoWords`) shows both values. */
  lemma PushWrongSlotAsWritten(x: int, y: int)
    ensures TwoPushesAsWritten(8, x, y) == Some(Repr(2, 2, map[0 := x, 8 := y]))
    ensures Shown(8, TwoPushesAsWritten(8, x, y).value) == Some([x, 0])
  {
    FirstPushAsWritten(8, x);
    var one := Repr(1, 1, map[0 := x]);
    assert Capacity(8, 1) == 8 && Capacity(8, 2) == 16;
    assert ReserveAsWritten(8, one, 1) == Some(Repr(2, 1, map[0 := x]));
    var two := Repr(2, 2, map[0 := x, 8 := y]);
    assert PushAsWritten(8, one, y) == Some(two);
    assert Shown(8, two).value == [x, 0];
  }

  /** `spare_capacity` as written subtracts bytes from a count of
      values: after one `u64` push the single block holds 8 values and
      8 bytes are stored, so the spare is 8 - 8 = 0 and the second push
      appends a block, where the 56 free bytes (`PushTwoWords`) need none. */
  lemma SpareMixesUnitsAsWritten(x: int)
    ensures PushAsWritten(8, Empty, x) == Some(Repr(1, 1, map[0 := x]))
    ensures SpareAsWritten(8, Repr(1, 1, map[0 := x])) == 0
    ensures ReserveAsWritten(8, Repr(1, 1, map[0 := x]), 1) == Some(Repr(2, 1, map[0 := x]))
  {
    FirstPushAsWritten(8, x);
    assert Capacity(8, 1) == 8;
  }

  /** For 16-byte values the second push underflows as written: one
      block holds 4 values but 16 bytes are stored, so `4 - 16` overflows
      the `usize` subtraction (a panic in a debug build). */
  lemma SpareUnderflowAsWritten(x: int, y: int)
    ensures PushAsWritten(16, Empty, x) == Some(Repr(1, 1, map[0 := x]))
    ensures SpareAsWritten(16, Repr(1, 1, map[0 := x])) < 0
    ensures PushAsWritten(16, Repr(1, 1, map[0 := x]), y).None?
  {
    FirstPushAsWritten(16, x);
    assert Capacity(16, 1) == 4;
  }

  /** A `u8` push then a one-value extend as written: the value is aimed
      at slot 64 of a 64-slot buffer, outside it, where the intended
      buffer (`PushThenExtend`) shows both values. */
  lemma ExtendPastEndAsWritten(x: int, y: int)
    ensures PushAsWritten(1, Empty, x) == Some(Repr(1, 1, map[0 := x]))
    ensures ExtendAsWritten(1, Repr(1, 1, map[0 := x]), [y]).None?
  {
    FirstPushAsWritten(1, x);
    var one := Repr(1, 1, map[0 := x]);
    assert Capacity(1, 1) == 64;
    assert ReserveAsWritten(1, one, 1) == Some(one);
  }

  /** The intended buffer after a `u8` push and a one-value extend. */
  method PushThenExtend() returns (shown: seq<int>)
    ensures shown == [1, 2]
  {
    var bytes := new AlignedOwnedRepr.WithSize(1, 0);
    bytes.Push(1);
    bytes.ExtendFromSlice([2]);
    shown := bytes.AsSlice();
  }
}
