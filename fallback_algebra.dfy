/** The algebra behind the scalar fallback reductions. Eight accumulators
    (lanes) combined lane by lane with eight new terms and then rolled up as
    a tree equal the rolled-up lanes combined with the fold of the new
    terms. So the fold of the lanes is always the fold of what has been
    consumed, and the final tree of the lanes is that fold. */
module FallbackAlgebra {
  import opened IntMath
  import opened Monoids
  import opened ScalarOps

  // --------------------------------------------------------- accumulator algebra

  /** Seven accumulators still at the identity add nothing to the roll-up. */
  lemma Tree8Seed(t: IntType, m: Monoid, v: int)
    requires InRange(t, v)
    ensures var e := Identity(t, m); Tree8(t, m, v, e, e, e, e, e, e, e) == v
  {
    var e := Identity(t, m);
    CombineIdentity(t, m, v);
    CombineIdentity(t, m, e);
  }

  /** One more element on a running fold of a prefix. */
  lemma FoldPrefixStep(t: IntType, m: Monoid, s: seq<int>, i: nat)
    requires i < |s|
    ensures Fold(t, m, s[..i + 1]) == Combine(t, m, Fold(t, m, s[..i]), s[i])
  {
    assert s[..i + 1][..i] == s[..i];
  }

  /** One more element on a running fold of a slice. */
  lemma FoldSliceStep(t: IntType, m: Monoid, s: seq<int>, lo: nat, i: nat)
    requires lo <= i < |s|
    ensures Fold(t, m, s[lo..i + 1]) == Combine(t, m, Fold(t, m, s[lo..i]), s[i])
  {
    assert s[lo..i + 1][..i - lo] == s[lo..i];
  }

  /** The fold of the whole is the combination of the folds of a prefix and
      of the rest, in either order. */
  lemma FoldSplit(t: IntType, m: Monoid, s: seq<int>, p: nat)
    requires p <= |s| && AllInRange(t, s)
    ensures Fold(t, m, s) == Combine(t, m, Fold(t, m, s[..p]), Fold(t, m, s[p..]))
    ensures Fold(t, m, s) == Combine(t, m, Fold(t, m, s[p..]), Fold(t, m, s[..p]))
  {
    assert s[..p] + s[p..] == s;
    FoldAppend(t, m, s[..p], s[p..]);
    CombineComm(t, m, Fold(t, m, s[..p]), Fold(t, m, s[p..]));
  }

  // ------------------------------------------------------------------- lanes

  /** The eight lanes are in range and fold to the fold of `s`. */
  predicate LanesFold(t: IntType, m: Monoid, lanes: seq<int>, s: seq<int>) {
    AllInRange(t, lanes) && Fold(t, m, lanes) == Fold(t, m, s)
  }

  /** Eight in-range lanes roll up, through the pairwise tree, to their fold. */
  lemma LanesRollup(t: IntType, m: Monoid, a1: int, a2: int, a3: int, a4: int, a5: int, a6: int, a7: int, a8: int)
    requires AllInRange(t, [a1, a2, a3, a4, a5, a6, a7, a8])
    ensures Tree8(t, m, a1, a2, a3, a4, a5, a6, a7, a8) == Fold(t, m, [a1, a2, a3, a4, a5, a6, a7, a8])
  {
    var lanes := [a1, a2, a3, a4, a5, a6, a7, a8];
    assert lanes[0] == a1 && lanes[1] == a2 && lanes[2] == a3 && lanes[3] == a4;
    assert lanes[4] == a5 && lanes[5] == a6 && lanes[6] == a7 && lanes[7] == a8;
    Tree8IsFold(t, m, a1, a2, a3, a4, a5, a6, a7, a8);
  }

  /** For the sum monoid the tree is the nest of wrapping adds the kernels
      write out: lanes that fold to the fold of `s` add up to it. */
  lemma SumLanesRollup(t: IntType, s: seq<int>, a1: int, a2: int, a3: int, a4: int, a5: int, a6: int, a7: int, a8: int)
    requires LanesFold(t, SumM, [a1, a2, a3, a4, a5, a6, a7, a8], s)
    ensures IntMath.Add(t, IntMath.Add(t, IntMath.Add(t, a1, a2), IntMath.Add(t, a3, a4)),
                        IntMath.Add(t, IntMath.Add(t, a5, a6), IntMath.Add(t, a7, a8))) == Fold(t, SumM, s)
  {
    LanesRollup(t, SumM, a1, a2, a3, a4, a5, a6, a7, a8);
  }

  /** A value in the first lane and the identity in the other seven fold to
      that value. */
  lemma LanesSeed(t: IntType, m: Monoid, v: int)
    requires InRange(t, v)
    ensures var e := Identity(t, m); AllInRange(t, [v, e, e, e, e, e, e, e]) && Fold(t, m, [v, e, e, e, e, e, e, e]) == v
  {
    var e := Identity(t, m);
    Tree8Seed(t, m, v);
    Tree8IsFold(t, m, v, e, e, e, e, e, e, e);
  }

  /** One pass of the eight-wide loop over `ts[i..i + 8]`, each lane
      combined with its own term: if the lanes fold to the fold of
      `ts[lo..i]`, afterwards they fold to the fold of `ts[lo..i + 8]`. */
  lemma LanesStep(t: IntType, m: Monoid, ts: seq<int>, lo: nat, i: nat,
                  a1: int, a2: int, a3: int, a4: int, a5: int, a6: int, a7: int, a8: int)
    requires lo <= i && i + 8 <= |ts| && AllInRange(t, ts)
    requires LanesFold(t, m, [a1, a2, a3, a4, a5, a6, a7, a8], ts[lo..i])
    ensures LanesFold(t, m, [Combine(t, m, a1, ts[i]), Combine(t, m, a2, ts[i + 1]), Combine(t, m, a3, ts[i + 2]),
                             Combine(t, m, a4, ts[i + 3]), Combine(t, m, a5, ts[i + 4]), Combine(t, m, a6, ts[i + 5]),
                             Combine(t, m, a7, ts[i + 6]), Combine(t, m, a8, ts[i + 7])], ts[lo..i + 8])
  {
    var a := [a1, a2, a3, a4, a5, a6, a7, a8];
    var block := ts[i..i + 8];
    assert block == [ts[i], ts[i + 1], ts[i + 2], ts[i + 3], ts[i + 4], ts[i + 5], ts[i + 6], ts[i + 7]];
    assert AllInRange(t, block);
    LanesZip(t, m, a1, a2, a3, a4, a5, a6, a7, a8, ts[i], ts[i + 1], ts[i + 2], ts[i + 3], ts[i + 4], ts[i + 5], ts[i + 6], ts[i + 7]);
    FoldPointwise(t, m, a, block);
    assert ts[lo..i] + block == ts[lo..i + 8];
    FoldAppend(t, m, ts[lo..i], block);
  }

  /** Eight lanes combined lane by lane with eight terms are the lane-wise
      application of the monoid's op. */
  lemma LanesZip(t: IntType, m: Monoid, a1: int, a2: int, a3: int, a4: int, a5: int, a6: int, a7: int, a8: int,
                 x1: int, x2: int, x3: int, x4: int, x5: int, x6: int, x7: int, x8: int)
    ensures [Combine(t, m, a1, x1), Combine(t, m, a2, x2), Combine(t, m, a3, x3), Combine(t, m, a4, x4),
             Combine(t, m, a5, x5), Combine(t, m, a6, x6), Combine(t, m, a7, x7), Combine(t, m, a8, x8)]
         == Zip(t, OpOf(m), [a1, a2, a3, a4, a5, a6, a7, a8], [x1, x2, x3, x4, x5, x6, x7, x8])
  {
    var a, x := [a1, a2, a3, a4, a5, a6, a7, a8], [x1, x2, x3, x4, x5, x6, x7, x8];
    var b := [Combine(t, m, a1, x1), Combine(t, m, a2, x2), Combine(t, m, a3, x3), Combine(t, m, a4, x4),
              Combine(t, m, a5, x5), Combine(t, m, a6, x6), Combine(t, m, a7, x7), Combine(t, m, a8, x8)];
    var z := Zip(t, OpOf(m), a, x);
    forall k | 0 <= k < 8
      ensures z[k] == b[k]
    {
      CombineIsApply(t, m, a[k], x[k]);
    }
  }
}
