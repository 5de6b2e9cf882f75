/** `cfavml-utils`' `AlignedBuffer<T>`: `len` values of `T` in a zeroed
    allocation of whole 64-byte chunks. The chunks are viewed as slots of
    `T`, `64 / size_of::<T>()` per chunk. */
module AlignedBuffer {
  import opened Wrappers

  /** Bytes per chunk. */
  const ChunkBytes: nat := 64

  /** The assertion of `zeroed`: `T` must fit a whole number of times in a
      chunk (a zero size fails it too, the remainder by zero panicking). */
  predicate FitsChunk(size: nat) {
    size > 0 && ChunkBytes % size == 0
  }

  /** `allocated_size` after `zeroed(len)`: one chunk more than `len`
      values fill whole, `None` where `zeroed` panics. */
  function AllocatedSize(size: nat, len: nat): (r: Option<nat>)
    ensures r.Some? <==> FitsChunk(size)
    ensures r.Some? ==> len < r.value <= len + ChunkBytes / size
  {
    if !FitsChunk(size) then None
    else
      var perChunk := ChunkBytes / size;
      var chunks := len / perChunk + 1;
      ChunkCover(len, perChunk);
      Some(perChunk * chunks)
  }

  /** `chunks = len / perChunk + 1` chunks hold more than `len` values but
      less than one chunk more. */
  lemma ChunkCover(len: nat, perChunk: nat)
    requires perChunk > 0
    ensures len < perChunk * (len / perChunk + 1) <= len + perChunk
  {
    var q := len / perChunk;
    assert len == q * perChunk + len % perChunk;
    assert perChunk * (q + 1) == q * perChunk + perChunk;
  }

  /** The sizes the crate's tests check: 16 for 0 `f32`s, 64 for 4 `i8`s,
      160 for 128 `u16`s. */
  lemma AllocatedSizeExamples()
    ensures AllocatedSize(4, 0) == Some(16)
    ensures AllocatedSize(1, 4) == Some(64)
    ensures AllocatedSize(2, 128) == Some(160)
  {
  }

  class AlignedBuffer {
    /** `len`: the number of values the slices show. */
    const len: nat
    /** `allocated_size`: how many values the chunks can hold. */
    const allocatedSize: nat
    /** The chunks viewed as `allocated_size` slots of `T`. */
    const slots: array<int>

    predicate Valid()
      reads this
    {
      slots.Length == allocatedSize && len < allocatedSize
    }

    /** `zeroed(len)` for a `T` of `size` bytes, past its assertion. */
    constructor Zeroed(size: nat, len: nat)
      requires FitsChunk(size)
      ensures Valid() && fresh(slots)
      ensures this.len == len && Some(allocatedSize) == AllocatedSize(size, len)
      ensures AsSlice() == seq(len, _ => 0)
    {
      var perChunk := ChunkBytes / size;
      var chunks := len / perChunk + 1;
      this.len := len;
      this.allocatedSize := perChunk * chunks;
      this.slots := new int[perChunk * chunks](_ => 0);
    }

    /** `as_slice` (and `Deref`): the first `len` slots. `as_mut_slice` is
        the same view, written through `slots`. */
    function AsSlice(): (r: seq<int>)
      reads this, slots
      requires Valid()
      ensures |r| == len && forall i :: 0 <= i < len ==> r[i] == slots[i]
    {
      slots[..len]
    }

    /** `copy_from_slice`: the standard slice copy, which panics unless
        `data` has exactly `len` values; the slots beyond `len` keep
        their contents. */
    method CopyFromSlice(data: seq<int>) returns (panicked: bool)
      requires Valid()
      modifies slots
      ensures Valid()
      ensures panicked <==> |data| != len
      ensures panicked ==> slots[..] == old(slots[..])
      ensures !panicked ==> AsSlice() == data && slots[len..] == old(slots[len..])
    {
      if |data| != len {
        return true;
      }
      forall i | 0 <= i < len {
        slots[i] := data[i];
      }
      return false;
    }
  }

  /** Zeroing `len` values, the construction `zeroed` performs, gives a
      buffer of those zeros with room to spare. */
  method ZeroedExample() returns (shown: seq<int>, slotCount: nat)
    ensures shown == [0, 0, 0, 0, 0] && slotCount == 16
  {
    var buffer := new AlignedBuffer.Zeroed(4, 5);
    shown, slotCount := buffer.AsSlice(), buffer.allocatedSize;
  }

  /** Copying five values into a five-value buffer shows exactly them. */
  method CopyExample() returns (shown: seq<int>)
    ensures shown == [1, 2, 3, 4, 5]
  {
    var buffer := new AlignedBuffer.Zeroed(4, 5);
    var panicked := buffer.CopyFromSlice([1, 2, 3, 4, 5]);
    shown := buffer.AsSlice();
  }
}
