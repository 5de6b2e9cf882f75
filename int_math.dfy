/** The integer half of `StdMath`: the scalar operations every kernel is
    instantiated with, for the eight primitive integer types. Values are
    mathematical integers kept inside the range of their type; every
    arithmetic result is brought back into range by `Wrap`, which is what
    `wrapping_add`, `wrapping_sub`, `wrapping_mul` and `wrapping_div` do. */
module IntMath {
  import Arith

  datatype IntType = I8 | I16 | I32 | I64 | U8 | U16 | U32 | U64

  predicate Signed(t: IntType) {
    t.I8? || t.I16? || t.I32? || t.I64?
  }

  /** 2 to the power of the bit width. */
  function Modulus(t: IntType): int {
    match t
    case I8 | U8 => 0x100
    case I16 | U16 => 0x1_0000
    case I32 | U32 => 0x1_0000_0000
    case I64 | U64 => 0x1_0000_0000_0000_0000
  }

  /** `T::MIN` */
  function MinValue(t: IntType): int {
    match t
    case I8 => -0x80
    case I16 => -0x8000
    case I32 => -0x8000_0000
    case I64 => -0x8000_0000_0000_0000
    case _ => 0
  }

  /** `T::MAX` */
  function MaxValue(t: IntType): int {
    match t
    case I8 => 0x7F
    case I16 => 0x7FFF
    case I32 => 0x7FFF_FFFF
    case I64 => 0x7FFF_FFFF_FFFF_FFFF
    case U8 => 0xFF
    case U16 => 0xFFFF
    case U32 => 0xFFFF_FFFF
    case U64 => 0xFFFF_FFFF_FFFF_FFFF
  }

  predicate InRange(t: IntType, x: int) {
    MinValue(t) <= x <= MaxValue(t)
  }

  predicate AllInRange(t: IntType, s: seq<int>) {
    forall i :: 0 <= i < |s| ==> InRange(t, s[i])
  }

  /** Two's-complement truncation: the value of the type congruent to x
      (see `WrapCongruent`), and x itself when x fits. */
  function Wrap(t: IntType, x: int): (r: int)
    ensures InRange(t, r)
    ensures InRange(t, x) ==> r == x
  {
    match t
    case I8 => Reduce(x, -0x80, 0x100)
    case I16 => Reduce(x, -0x8000, 0x1_0000)
    case I32 => Reduce(x, -0x8000_0000, 0x1_0000_0000)
    case I64 => Reduce(x, -0x8000_0000_0000_0000, 0x1_0000_0000_0000_0000)
    case U8 => Reduce(x, 0, 0x100)
    case U16 => Reduce(x, 0, 0x1_0000)
    case U32 => Reduce(x, 0, 0x1_0000_0000)
    case U64 => Reduce(x, 0, 0x1_0000_0000_0000_0000)
  }

  /** The representative of x modulo m in `[lo, lo + m)`. */
  function Reduce(x: int, lo: int, m: int): (r: int)
    requires m > 0
    ensures lo <= r < lo + m
    ensures lo <= x < lo + m ==> r == x
  {
    if lo <= x < lo + m then x else (x - lo) % m + lo
  }

  /** The range of a type is one full period of the modulus. */
  lemma RangeIsModulus(t: IntType)
    ensures MaxValue(t) - MinValue(t) + 1 == Modulus(t)
    ensures Signed(t) ==> MinValue(t) == -(Modulus(t) / 2)
    ensures !Signed(t) ==> MinValue(t) == 0
  {
  }

  /** Every type wraps by the same rule, with its own bounds. */
  lemma WrapIsReduce(t: IntType, x: int)
    ensures Wrap(t, x) == Reduce(x, MinValue(t), Modulus(t))
  {
  }

  /** The wrapped value differs from x by a multiple of the modulus. */
  lemma WrapCongruent(t: IntType, x: int)
    ensures Wrap(t, x) == (x - MinValue(t)) % Modulus(t) + MinValue(t)
    ensures (Wrap(t, x) - x) % Modulus(t) == 0
  {
    WrapIsReduce(t, x);
    ReduceCongruent(x, MinValue(t), Modulus(t));
  }

  lemma ReduceCongruent(x: int, lo: int, m: int)
    requires m > 0
    ensures Reduce(x, lo, m) == (x - lo) % m + lo
    ensures (Reduce(x, lo, m) - x) % m == 0
  {
    var r := (x - lo) % m + lo;
    if lo <= x < lo + m {
      Arith.ModUnique(x - lo, 0, x - lo, m);
    }
    Arith.ModDiff(r - lo, x - lo, m);
    Arith.ModUnique(r - lo, 0, r - lo, m);
  }

  /** Wrapping commutes with addition: an operand may be wrapped early. */
  lemma WrapAddLeft(t: IntType, a: int, b: int)
    ensures Wrap(t, Wrap(t, a) + b) == Wrap(t, a + b)
  {
    var lo, m := MinValue(t), Modulus(t);
    WrapIsReduce(t, a);
    WrapIsReduce(t, Wrap(t, a) + b);
    WrapIsReduce(t, a + b);
    ReduceAddLeft(a, b, lo, m);
  }

  lemma ReduceAddLeft(a: int, b: int, lo: int, m: int)
    requires m > 0
    ensures Reduce(Reduce(a, lo, m) + b, lo, m) == Reduce(a + b, lo, m)
  {
    var ra := Reduce(a, lo, m);
    ReduceCongruent(a, lo, m);
    ReduceCongruent(ra + b, lo, m);
    ReduceCongruent(a + b, lo, m);
    assert ra + b - lo == (a - lo) % m + b;
    Arith.ModAddLeft(a - lo, b, m);
  }

  /** Wrapping commutes with multiplication: a factor may be wrapped early. */
  lemma WrapMulLeft(t: IntType, a: int, b: int)
    ensures Wrap(t, Wrap(t, a) * b) == Wrap(t, a * b)
  {
    WrapIsReduce(t, a);
    WrapIsReduce(t, Wrap(t, a) * b);
    WrapIsReduce(t, a * b);
    ReduceMulLeft(a, b, MinValue(t), Modulus(t));
  }

  /** The right factor may be wrapped early too. */
  lemma WrapMulRight(t: IntType, a: int, b: int)
    ensures Wrap(t, a * Wrap(t, b)) == Wrap(t, a * b)
  {
    WrapMulLeft(t, b, a);
    Arith.MulComm(a, Wrap(t, b));
    Arith.MulComm(a, b);
  }

  lemma ReduceMulLeft(a: int, b: int, lo: int, m: int)
    requires m > 0
    ensures Reduce(Reduce(a, lo, m) * b, lo, m) == Reduce(a * b, lo, m)
  {
    var ra := Reduce(a, lo, m);
    ReduceCongruent(a, lo, m);
    var k := (ra - a) / m;
    assert ra == a + k * m;
    assert ra * b - lo == (a * b - lo) + (k * b) * m by {
      assert ra * b == a * b + (k * m) * b;
      assert (k * m) * b == (k * b) * m;
    }
    ReduceCongruent(ra * b, lo, m);
    ReduceCongruent(a * b, lo, m);
    Arith.ModAddMultiple(a * b - lo, k * b, m);
  }

  /** `wrapping_add` is associative. */
  lemma AddAssoc(t: IntType, a: int, b: int, c: int)
    ensures Add(t, Add(t, a, b), c) == Add(t, a, Add(t, b, c))
  {
    calc {
      Add(t, Add(t, a, b), c);
      Wrap(t, Wrap(t, a + b) + c);
      { WrapAddLeft(t, a + b, c); }
      Wrap(t, (a + b) + c);
      { assert (a + b) + c == a + (b + c); }
      Wrap(t, a + (b + c));
      { WrapAddRight(t, a, b + c); }
      Wrap(t, a + Wrap(t, b + c));
      Add(t, a, Add(t, b, c));
    }
  }

  /** Two wrapped partial sums add to the wrapped total. */
  lemma AddWrapped(t: IntType, x: int, y: int)
    ensures Add(t, Wrap(t, x), Wrap(t, y)) == Wrap(t, x + y)
  {
    WrapAddLeft(t, x, Wrap(t, y));
    WrapAddRight(t, x, y);
  }

  /** A wrapped right operand of an addition may be wrapped late. */
  lemma WrapAddRight(t: IntType, a: int, b: int)
    ensures Wrap(t, a + Wrap(t, b)) == Wrap(t, a + b)
  {
    var wb := Wrap(t, b);
    WrapAddLeft(t, b, a);
    assert a + wb == wb + a;
  }

  function Zero(t: IntType): int { 0 }
  function One(t: IntType): int { 1 }
  /** `M::max()`: the largest value of the type. */
  function Max(t: IntType): int { MaxValue(t) }
  /** `M::min()`: the smallest value of the type. */
  function Min(t: IntType): int { MinValue(t) }

  /** `wrapping_add` */
  function Add(t: IntType, a: int, b: int): int { Wrap(t, a + b) }
  /** `wrapping_sub` */
  function Sub(t: IntType, a: int, b: int): int { Wrap(t, a - b) }
  /** `wrapping_mul` */
  function Mul(t: IntType, a: int, b: int): int { Wrap(t, a * b) }

  /** Rust's `/` on integers: the quotient rounded toward zero. */
  function TruncDiv(a: int, b: int): int
    requires b != 0
  {
    var q := (if a < 0 then -a else a) / (if b < 0 then -b else b);
    if (a < 0) != (b < 0) then -q else q
  }

  /** `wrapping_div`; a zero divisor panics in the source, so it is excluded. */
  function Div(t: IntType, a: int, b: int): int
    requires b != 0
  {
    Wrap(t, TruncDiv(a, b))
  }

  /** `abs` for signed types (`i32::MIN.abs()` wraps to itself), identity for unsigned. */
  function Abs(t: IntType, a: int): int {
    if Signed(t) then Wrap(t, if a < 0 then -a else a) else a
  }

  function CmpEq(a: int, b: int): bool { a == b }
  /** `Ord::min` */
  function CmpMin(a: int, b: int): int { if b < a then b else a }
  /** `Ord::max` */
  function CmpMax(a: int, b: int): int { if b < a then a else b }

  /** `cast_bool`: true becomes one, false becomes zero. */
  function CastBool(t: IntType, b: bool): int { if b then One(t) else Zero(t) }

  // ---------------------------------------------------------------- properties

  /** Two concrete wrap-arounds: `i8::MAX + 1 == i8::MIN` and `0u8 - 1 == u8::MAX`. */
  lemma WrapAroundExamples()
    ensures Add(I8, 127, 1) == -128
    ensures Sub(U8, 0, 1) == 255
    ensures Mul(I16, 256, 256) == 0
  {
  }

  /** `wrapping_div` of the signed minimum by minus one is the minimum again;
      every other quotient is exact. */
  lemma DivWraps(t: IntType, a: int, b: int)
    requires InRange(t, a) && InRange(t, b) && b != 0
    ensures Signed(t) && a == MinValue(t) && b == -1 ==> Div(t, a, b) == MinValue(t)
    ensures !(Signed(t) && a == MinValue(t) && b == -1) ==> Div(t, a, b) == TruncDiv(a, b)
  {
    var q := TruncDiv(a, b);
    var na := if a < 0 then -a else a;
    var nb := if b < 0 then -b else b;
    Arith.DivLeq(na, nb);
    if Signed(t) && a == MinValue(t) && b == -1 {
      assert q == -MinValue(t);
    } else {
      assert InRange(t, q);
    }
  }

  /** zero, one, max and min are 0, 1, `T::MAX` and `T::MIN`. */
  lemma Constants()
    ensures Zero(I32) == 0 && One(I32) == 1
    ensures Max(I8) == 127 && Min(I8) == -128 && Max(U8) == 255 && Min(U8) == 0
    ensures Max(I32) == 2147483647 && Min(I32) == -2147483648
    ensures Max(U64) == 18446744073709551615 && Min(U64) == 0
    ensures Max(I64) == 9223372036854775807 && Min(I64) == -9223372036854775808
  {
  }

  /** `min()` is the identity of `cmp_max` and `max()` the identity of
      `cmp_min`, for every value of the type. */
  lemma SentinelIdentities(t: IntType, a: int)
    requires InRange(t, a)
    ensures CmpMax(Min(t), a) == a && CmpMax(a, Min(t)) == a
    ensures CmpMin(Max(t), a) == a && CmpMin(a, Max(t)) == a
  {
  }

  /** `cmp_min`/`cmp_max` return one of their arguments, the smaller/larger. */
  lemma CmpMinMax(a: int, b: int)
    ensures CmpMin(a, b) <= a && CmpMin(a, b) <= b && (CmpMin(a, b) == a || CmpMin(a, b) == b)
    ensures CmpMax(a, b) >= a && CmpMax(a, b) >= b && (CmpMax(a, b) == a || CmpMax(a, b) == b)
    ensures CmpEq(a, b) <==> a == b
  {
  }

  /** Unsigned `abs` is the identity; signed `abs` is |a| except for `T::MIN`,
      which wraps to itself. */
  lemma AbsSpec(t: IntType, a: int)
    requires InRange(t, a)
    ensures !Signed(t) ==> Abs(t, a) == a
    ensures Signed(t) && a != MinValue(t) ==> Abs(t, a) == (if a < 0 then -a else a)
    ensures Signed(t) && a == MinValue(t) ==> Abs(t, a) == MinValue(t)
  {
  }
}
