/** `co_broadcast` of `cfavml-ndarray`: the common shape two array shapes
    broadcast to under the NumPy rules. `None` stands for
    `ErrorKind::IncompatibleShape`. */
module Broadcast {
  import opened Wrappers

  /** Two dimensions aligned from the right broadcast together when they
      are equal or one of them is 1. */
  predicate Compatible(a: nat, b: nat) {
    a == b || a == 1 || b == 1
  }

  /** The dimension two compatible dimensions broadcast to: a 1 takes the
      other one (a 1 against a 0 gives 0). */
  function Join(a: nat, b: nat): (d: nat)
    requires Compatible(a, b)
    ensures d == (if a == 1 then b else a)
    ensures d == (if b == 1 then a else b)
  {
    if a == 1 then b else a
  }

  /** `s` with 1s in front, to `n` dimensions. */
  function Padded(s: seq<nat>, n: nat): (p: seq<nat>)
    requires |s| <= n
    ensures |p| == n
    ensures forall i :: 0 <= i < n - |s| ==> p[i] == 1
    ensures forall i :: n - |s| <= i < n ==> p[i] == s[i - (n - |s|)]
  {
    seq(n - |s|, _ => 1) + s
  }

  function Max(a: nat, b: nat): nat {
    if a < b then b else a
  }

  /** The NumPy rule: pad the shorter shape with leading 1s; every pair of
      dimensions must be compatible, and the result holds their joins. */
  function BroadcastShape(shape1: seq<nat>, shape2: seq<nat>): (r: Option<seq<nat>>)
    ensures r.Some? ==> |r.value| == Max(|shape1|, |shape2|)
  {
    var n := Max(|shape1|, |shape2|);
    var p1, p2 := Padded(shape1, n), Padded(shape2, n);
    if forall i :: 0 <= i < n ==> Compatible(p1[i], p2[i])
    then Some(seq(n, i requires 0 <= i < n && Compatible(p1[i], p2[i]) => Join(p1[i], p2[i])))
    else None
  }

  /** The rule does not depend on the order of the shapes. */
  lemma BroadcastCommutes(shape1: seq<nat>, shape2: seq<nat>)
    ensures BroadcastShape(shape1, shape2) == BroadcastShape(shape2, shape1)
  {
    var n := Max(|shape1|, |shape2|);
    assert n == Max(|shape2|, |shape1|);
    var p1, p2 := Padded(shape1, n), Padded(shape2, n);
    assert forall i :: 0 <= i < n ==> (Compatible(p1[i], p2[i]) <==> Compatible(p2[i], p1[i]));
    if BroadcastShape(shape1, shape2).Some? {
      assert BroadcastShape(shape1, shape2).value == BroadcastShape(shape2, shape1).value;
    }
  }

  /** A shape broadcast with the 0-d shape is itself. */
  lemma BroadcastWithScalarShape(shape: seq<nat>)
    ensures BroadcastShape(shape, []) == Some(shape)
  {
    var n := |shape|;
    assert Padded(shape, n) == shape;
    assert BroadcastShape(shape, []).value == shape;
  }

  /** A shape broadcast with itself is itself. */
  lemma BroadcastWithItself(shape: seq<nat>)
    ensures BroadcastShape(shape, shape) == Some(shape)
  {
    var n := |shape|;
    assert Padded(shape, n) == shape;
    assert BroadcastShape(shape, shape).value == shape;
  }

  /** An incompatible pair at dimension `j` of the shorter shape `shape2`
      makes the whole broadcast fail. */
  lemma Rejects(shape1: seq<nat>, shape2: seq<nat>, j: nat)
    requires |shape2| <= |shape1| && j < |shape2|
    requires !Compatible(shape1[|shape1| - |shape2| + j], shape2[j])
    ensures BroadcastShape(shape1, shape2).None?
  {
    var n := |shape1|;
    var k := n - |shape2|;
    var p1, p2 := Padded(shape1, n), Padded(shape2, n);
    assert p1 == shape1;
    assert p2[k + j] == shape2[j];
  }

  /** Dimensions that pass all the checks give the broadcast shape. */
  lemma Accepts(shape1: seq<nat>, shape2: seq<nat>, out: seq<nat>)
    requires |shape2| <= |shape1| == |out|
    requires forall i :: 0 <= i < |shape1| - |shape2| ==> out[i] == shape1[i]
    requires forall j :: 0 <= j < |shape2| ==>
      Compatible(shape1[|shape1| - |shape2| + j], shape2[j]) &&
      out[|shape1| - |shape2| + j] == Join(shape1[|shape1| - |shape2| + j], shape2[j])
    ensures BroadcastShape(shape1, shape2) == Some(out)
  {
    var n := |shape1|;
    var k := n - |shape2|;
    var p1, p2 := Padded(shape1, n), Padded(shape2, n);
    assert p1 == shape1;
    forall i | 0 <= i < n
      ensures Compatible(p1[i], p2[i]) && out[i] == Join(p1[i], p2[i])
    {
      if i >= k {
        assert p2[i] == shape2[i - k];
      }
    }
    assert Max(|shape1|, |shape2|) == n;
    assert BroadcastShape(shape1, shape2).value == out;
  }

  /** `co_broadcast`: with `shape1` the shorter it swaps the arguments;
      otherwise it copies `shape1` to `out` and then walks the trailing
      dimensions of `out` beside `shape2`, keeping equal ones, replacing a
      1 by the other dimension, and failing on any other mismatch. */
  method CoBroadcast(shape1: seq<nat>, shape2: seq<nat>) returns (r: Option<seq<nat>>)
    ensures r == BroadcastShape(shape1, shape2)
    decreases if |shape1| < |shape2| then 1 else 0
  {
    if |shape1| < |shape2| {
      r := CoBroadcast(shape2, shape1);
      BroadcastCommutes(shape2, shape1);
      return;
    }
    var k := |shape1| - |shape2|;
    var out := new nat[|shape1|];
    for i := 0 to |shape1|
      invariant forall j :: 0 <= j < i ==> out[j] == shape1[j]
    {
      out[i] := shape1[i];
    }
    for i := 0 to |shape2|
      invariant forall j :: 0 <= j < k ==> out[j] == shape1[j]
      invariant forall j :: 0 <= j < i ==>
        Compatible(shape1[k + j], shape2[j]) && out[k + j] == Join(shape1[k + j], shape2[j])
      invariant forall j :: k + i <= j < |shape1| ==> out[j] == shape1[j]
    {
      if out[k + i] != shape2[i] {
        if out[k + i] == 1 {
          out[k + i] := shape2[i];
        } else if shape2[i] != 1 {
          Rejects(shape1, shape2, i);
          return None;
        }
      }
    }
    Accepts(shape1, shape2, out[..]);
    r := Some(out[..]);
  }

  /** The crate's own cases: shapes that broadcast. */
  lemma BroadcastExamples()
    ensures BroadcastShape([2, 3], [4, 1, 3]) == Some([4, 2, 3])
    ensures BroadcastShape([3, 4, 5], []) == Some([3, 4, 5])
    ensures BroadcastShape([1, 1, 3, 1, 5, 1, 7], [2, 1, 4, 1, 6, 1]) == Some([1, 2, 3, 4, 5, 6, 7])
    ensures BroadcastShape([1, 2, 1, 3], [1, 2, 1, 3]) == Some([1, 2, 1, 3])
    ensures BroadcastShape([2, 1, 1], [0, 0, 1, 3, 4]) == Some([0, 0, 2, 3, 4])
    ensures BroadcastShape([0], [0, 0, 0]) == Some([0, 0, 0])
    ensures BroadcastShape([1], [1, 0, 0]) == Some([1, 0, 0])
  {
    Accepts([4, 1, 3], [2, 3], [4, 2, 3]);
    BroadcastCommutes([2, 3], [4, 1, 3]);
    BroadcastWithScalarShape([3, 4, 5]);
    Accepts([1, 1, 3, 1, 5, 1, 7], [2, 1, 4, 1, 6, 1], [1, 2, 3, 4, 5, 6, 7]);
    BroadcastWithItself([1, 2, 1, 3]);
    Accepts([0, 0, 1, 3, 4], [2, 1, 1], [0, 0, 2, 3, 4]);
    BroadcastCommutes([2, 1, 1], [0, 0, 1, 3, 4]);
    Accepts([0, 0, 0], [0], [0, 0, 0]);
    BroadcastCommutes([0], [0, 0, 0]);
    Accepts([1, 0, 0], [1], [1, 0, 0]);
    BroadcastCommutes([1], [1, 0, 0]);
  }

  /** The crate's own cases: shapes that do not broadcast. */
  lemma IncompatibleExamples()
    ensures BroadcastShape([1, 2, 2], [1, 3, 4]).None?
    ensures BroadcastShape([2, 1, 2], [0]).None?
    ensures BroadcastShape([1, 3, 0, 1, 1], [1, 2, 3, 1]).None?
  {
    Rejects([1, 2, 2], [1, 3, 4], 1);
    Rejects([2, 1, 2], [0], 0);
    Rejects([1, 3, 0, 1, 1], [1, 2, 3, 1], 1);
  }
}
