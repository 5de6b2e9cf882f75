/** `test_utils`: the plain sequential references the kernels are checked
    against, and the sample-vector generator. Each reference is one loop
    over `x.len()` that accumulates with the wrapping ops; each is proved
    equal to the exact sum wrapped once, the same closed form the
    three-phase kernels are proved to compute. */
module TestUtils {
  import opened Wrappers
  import opened IntMath
  import opened Monoids
  import opened AggregateOps

  /** `get_sample_vectors(size)`: `size` pairs drawn from the generator
      (here the sequences `draws1` and `draws2`), each zero replaced by
      `one()` so that no element is zero; draws of the element type give
      values of the element type. */
  method GetSampleVectors(t: IntType, size: nat, draws1: seq<int>, draws2: seq<int>) returns (x: seq<int>, y: seq<int>)
    requires |draws1| == size && |draws2| == size
    ensures |x| == size && |y| == size
    ensures forall i :: 0 <= i < size ==> x[i] != 0 && y[i] != 0
    ensures forall i :: 0 <= i < size ==>
      x[i] == (if draws1[i] == 0 then One(t) else draws1[i]) && y[i] == (if draws2[i] == 0 then One(t) else draws2[i])
    ensures AllInRange(t, draws1) && AllInRange(t, draws2) ==> AllInRange(t, x) && AllInRange(t, y)
  {
    x, y := [], [];
    for i := 0 to size
      invariant |x| == i && |y| == i
      invariant forall k :: 0 <= k < i ==> x[k] != 0 && y[k] != 0
      invariant forall k :: 0 <= k < i ==>
        x[k] == (if draws1[k] == 0 then One(t) else draws1[k]) && y[k] == (if draws2[k] == 0 then One(t) else draws2[k])
    {
      var v1, v2 := draws1[i], draws2[i];
      if CmpEq(v1, Zero(t)) {
        v1 := One(t);
      }
      if CmpEq(v2, Zero(t)) {
        v2 := One(t);
      }
      x, y := x + [v1], y + [v2];
    }
  }

  /** `simple_dot`: `acc = add(acc, mul(x[i], y[i]))` from zero over
      `x.len()`, which is the exact dot product wrapped once. */
  method SimpleDot(t: IntType, x: seq<int>, y: seq<int>) returns (dot: int)
    requires |x| <= |y|
    ensures dot == Wrap(t, Sum(Products(x, y)))
  {
    dot := Zero(t);
    for i := 0 to |x|
      invariant dot == Wrap(t, Sum(Products(x[..i], y)))
    {
      AccumulateProduct(t, dot, x, y, i);
      dot := IntMath.Add(t, dot, IntMath.Mul(t, x[i], y[i]));
    }
    assert x[..|x|] == x;
  }

  /** `simple_euclidean`: `acc = add(acc, mul(d, d))` with `d = sub(x[i],
      y[i])`, which is the exact sum of squared differences wrapped once. */
  method SimpleEuclidean(t: IntType, x: seq<int>, y: seq<int>) returns (dist: int)
    requires |x| <= |y|
    ensures dist == Wrap(t, Sum(SquaredDiffs(x, y)))
  {
    dist := Zero(t);
    for i := 0 to |x|
      invariant dist == Wrap(t, Sum(SquaredDiffs(x[..i], y)))
    {
      var diff := IntMath.Sub(t, x[i], y[i]);
      AccumulateSquaredDiff(t, dist, x, y, i);
      dist := IntMath.Add(t, dist, IntMath.Mul(t, diff, diff));
    }
    assert x[..|x|] == x;
  }

  /** `simple_cosine`: the dot product and both squared norms accumulated
      in one loop, then `cosine` of the three (`sqrt` is a parameter). */
  method SimpleCosine(t: IntType, sqrt: int -> int, x: seq<int>, y: seq<int>) returns (r: Option<int>)
    requires |x| <= |y|
    ensures r == Cosine(t, sqrt, Wrap(t, Sum(Products(x, y))), Wrap(t, Sum(Products(x, x))),
                        Wrap(t, Sum(Products(y[..|x|], y[..|x|]))))
  {
    var yx := y[..|x|];
    var dot, normX, normY := Zero(t), Zero(t), Zero(t);
    for i := 0 to |x|
      invariant dot == Wrap(t, Sum(Products(x[..i], y)))
      invariant normX == Wrap(t, Sum(Products(x[..i], x)))
      invariant normY == Wrap(t, Sum(Products(yx[..i], yx)))
    {
      AccumulateProduct(t, dot, x, y, i);
      AccumulateProduct(t, normX, x, x, i);
      AccumulateProduct(t, normY, yx, yx, i);
      dot := IntMath.Add(t, dot, IntMath.Mul(t, x[i], y[i]));
      normX := IntMath.Add(t, normX, IntMath.Mul(t, x[i], x[i]));
      normY := IntMath.Add(t, normY, IntMath.Mul(t, y[i], y[i]));
    }
    assert x[..|x|] == x && yx[..|x|] == yx;
    r := Cosine(t, sqrt, dot, normX, normY);
  }
}
