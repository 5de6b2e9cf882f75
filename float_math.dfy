/** The floating-point half of `StdMath`, kept to what the kernels rely on:
    the reduction sentinels, `f32::max`/`f32::min` (which ignore a NaN
    operand), equality, and the sign-clearing `f32_abs_fast`. Rounding is not
    modelled: a finite value is a real number. */
module FloatMath {

  datatype Float = Finite(v: real) | PosInf | NegInf | NaN

  /** `M::max()` for floats: `f32::INFINITY`. */
  function Max(): Float { PosInf }
  /** `M::min()` for floats: `f32::NEG_INFINITY`. */
  function Min(): Float { NegInf }

  /** The order on non-NaN floats, with the infinities at both ends. */
  predicate Less(a: Float, b: Float) {
    match (a, b)
    case (Finite(x), Finite(y)) => x < y
    case (NegInf, Finite(_)) => true
    case (NegInf, PosInf) => true
    case (Finite(_), PosInf) => true
    case _ => false
  }

  /** `a == b`: NaN is equal to nothing, not even itself. */
  predicate CmpEq(a: Float, b: Float) {
    !a.NaN? && !b.NaN? && a == b
  }

  /** `a.max(b)`: if one operand is NaN the other is returned. */
  function CmpMax(a: Float, b: Float): Float {
    if a.NaN? then b else if b.NaN? then a else if Less(a, b) then b else a
  }

  /** `a.min(b)`: if one operand is NaN the other is returned. */
  function CmpMin(a: Float, b: Float): Float {
    if a.NaN? then b else if b.NaN? then a else if Less(b, a) then b else a
  }

  /** The sentinels are the identities of the reductions that start from
      them: `min()` for `cmp_max` and `max()` for `cmp_min`, for every
      float, and NaN is never compared equal. */
  lemma SentinelIdentities(a: Float)
    ensures CmpMax(Min(), a) == (if a.NaN? then Min() else a)
    ensures CmpMin(Max(), a) == (if a.NaN? then Max() else a)
    ensures !CmpEq(a, NaN) && !CmpEq(NaN, a)
    ensures !a.NaN? ==> CmpEq(a, a)
  {
  }

  /** `cmp_max`/`cmp_min` of two non-NaN floats return the larger/smaller one. */
  lemma CmpMaxMin(a: Float, b: Float)
    requires !a.NaN? && !b.NaN?
    ensures CmpMax(a, b) == a || CmpMax(a, b) == b
    ensures !Less(CmpMax(a, b), a) && !Less(CmpMax(a, b), b)
    ensures !Less(a, CmpMin(a, b)) && !Less(b, CmpMin(a, b))
  {
  }

  const SignMask: bv32 := 0x8000_0000

  /** `f32_abs_fast`: the bit pattern with the sign bit masked off. The
      result has bit 31 clear, and putting the old sign bit back gives the
      original pattern, so no other bit changed. */
  function AbsFast(bits: bv32): (r: bv32)
    ensures r & SignMask == 0
    ensures r | (bits & SignMask) == bits
  {
    bits & 0x7FFF_FFFF
  }

  /** A pattern and its negation (bit 31 flipped) have the same absolute
      value, and a pattern whose sign bit is clear is its own. */
  lemma AbsFastSign(bits: bv32)
    ensures AbsFast(bits ^ SignMask) == AbsFast(bits)
    ensures bits & SignMask == 0 ==> AbsFast(bits) == bits
  {
  }
}
