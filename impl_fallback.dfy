/** The `Fallback` backend for `i32`: its register is the scalar itself, so
    every register op is the `AutoMath` op and `elements_per_lane` is one. The
    lemma at the end shows that it is the width-one instance of the generic
    register model, which is how the kernels are verified for it. */
module ImplFallback {
  import opened IntMath
  import opened ScalarOps
  import opened Monoids
  import opened SimdApi

  /** `size_of::<i32>() / size_of::<i32>()` */
  function ElementsPerLane(): nat { 1 }

  /** `load`: reads the single element at `off`. */
  function Load(mem: seq<int>, off: nat): int
    requires off < |mem|
  {
    mem[off]
  }

  /** `write`: writes the single element at `off`. */
  function Write(mem: seq<int>, off: nat, reg: int): seq<int>
    requires off < |mem|
  {
    mem[off := reg]
  }

  function Filled(v: int): int { v }
  function Zeroed(): int { 0 }

  function Add(l1: int, l2: int): int { IntMath.Add(I32, l1, l2) }
  function Sub(l1: int, l2: int): int { IntMath.Sub(I32, l1, l2) }
  function Mul(l1: int, l2: int): int { IntMath.Mul(I32, l1, l2) }
  function Div(l1: int, l2: int): int requires l2 != 0 { IntMath.Div(I32, l1, l2) }

  /** `fmadd`: the product, then the accumulator added on its right. */
  function FmAdd(l1: int, l2: int, acc: int): int { Add(Mul(l1, l2), acc) }

  function Max(l1: int, l2: int): int { CmpMax(l1, l2) }
  function Min(l1: int, l2: int): int { CmpMin(l1, l2) }

  /** `sum_to_value`, `max_to_value`, `min_to_value` return the register. */
  function ToValue(reg: int): int { reg }

  /** The fallback backend is the generic register model at width one:
      loads and writes touch exactly one element, each op is the scalar op
      in a one-lane register, `filled`/`zeroed` are one-lane fills, and
      reducing a one-lane register returns its lane. */
  lemma FallbackIsWidthOne(mem: seq<int>, off: nat, x: int, y: int, acc: int, m: Monoid)
    requires off < |mem| && InRange(I32, x) && InRange(I32, y) && InRange(I32, acc)
    ensures SimdApi.Load(mem, off, ElementsPerLane()) == [Load(mem, off)]
    ensures Store(mem, off, [x]) == Write(mem, off, x)
    ensures SimdApi.Filled(ElementsPerLane(), x) == [Filled(x)]
    ensures SimdApi.Filled(ElementsPerLane(), IntMath.Zero(I32)) == [Zeroed()]
    ensures Zip(I32, BinOp.Add, [x], [y]) == [Add(x, y)]
    ensures Zip(I32, BinOp.Sub, [x], [y]) == [Sub(x, y)]
    ensures Zip(I32, BinOp.Mul, [x], [y]) == [Mul(x, y)]
    ensures y != 0 ==> Zip(I32, BinOp.Div, [x], [y]) == [Div(x, y)]
    ensures Zip(I32, BinOp.Max, [x], [y]) == [Max(x, y)]
    ensures Zip(I32, BinOp.Min, [x], [y]) == [Min(x, y)]
    ensures SimdApi.FmAdd(I32, [x], [y], [acc]) == [FmAdd(x, y, acc)]
    ensures SimdApi.ToValue(I32, m, [x]) == ToValue(x)
  {
    FoldSingleton(I32, m, x);
  }
}
