/**
 * The per-pixel inclusion depth of one spatial component: pixels are ranked
 * by descending weight, the squared weights are summed along that ranking
 * and normalised by the total, and the normalised prefix sums are scattered
 * back to pixel order. Low depth marks the pixels that carry the component's
 * energy first; the iso-line at `thr` then encloses a share `thr` of it.
 * Weights are exact reals here; the source works in floating point.
 */
module Depth {

  /** A product of reals, kept as a function so that the sign lemmas below see two factors. */
  function Mul(a: real, b: real): real { a * b }

  /** The square of one weight, `Bvec[i]**2`. */
  function Sq(x: real): real { Mul(x, x) }

  /** Every entry of `order` indexes into `w`. */
  ghost predicate Indexes(w: seq<real>, order: seq<nat>) {
    forall k :: 0 <= k < |order| ==> order[k] < |w|
  }

  /** The sum of the squared weights of the first n pixels of `order`: `np.cumsum(...)[n-1]`. */
  ghost function Energy(w: seq<real>, order: seq<nat>, n: nat): real
    requires n <= |order| && Indexes(w, order)
  {
    if n == 0 then 0.0 else Energy(w, order, n - 1) + Sq(w[order[n - 1]])
  }

  /** `order` lists each of 0 .. d-1 exactly once. */
  ghost predicate IsPermutation(order: seq<nat>, d: nat) {
    |order| == d &&
    (forall k :: 0 <= k < d ==> order[k] < d) &&
    (forall i, j :: 0 <= i < j < d ==> order[i] != order[j]) &&
    (forall p :: 0 <= p < d ==> p in order)
  }

  /** The rank of pixel p in a permutation. */
  lemma RankOf(order: seq<nat>, d: nat, p: nat) returns (k: nat)
    requires IsPermutation(order, d) && p < d
    ensures k < d && order[k] == p
  {
    assert p in order;
    k :| 0 <= k < |order| && order[k] == p;
  }

  /** The weights read along `order` never increase. */
  ghost predicate SortedDescending(w: seq<real>, order: seq<nat>)
    requires Indexes(w, order)
  {
    forall i, j :: 0 <= i < j < |order| ==> w[order[i]] >= w[order[j]]
  }

  /** The depth map: values per pixel, or undefined (0/0 in every cell) for a column of zero energy. */
  datatype DepthMap = Depths(values: seq<real>) | Undefined

  /**
   * What the depth computation promises for the weights `w`: `order` ranks
   * the pixels by descending weight, and pixel order[k] receives the energy
   * of the first k+1 ranked pixels divided by the total.
   */
  ghost predicate IsDepthMap(w: seq<real>, order: seq<nat>, depth: DepthMap) {
    IsPermutation(order, |w|) && SortedDescending(w, order) &&
    (depth.Undefined? <==> Energy(w, order, |w|) == 0.0) &&
    (depth.Depths? ==>
       |depth.values| == |w| &&
       forall k :: 0 <= k < |w| ==>
         depth.values[order[k]] == Energy(w, order, k + 1) / Energy(w, order, |w|))
  }

  // ---------------------------------------------------------------------
  // The computation, as the source does it: argsort, cumsum, /=, scatter
  // ---------------------------------------------------------------------

  function Iota(d: nat): (s: seq<nat>)
    ensures |s| == d && forall k :: 0 <= k < d ==> s[k] == k
  {
    seq(d, k requires 0 <= k < d => k)
  }

  /** `np.argsort(w)[::-1]`: pixel indices by descending weight, by selection on an index array. */
  method ArgSortDescending(w: seq<real>) returns (order: seq<nat>)
    ensures IsPermutation(order, |w|)
    ensures Indexes(w, order) && SortedDescending(w, order)
  {
    var d := |w|;
    var a := new nat[d](k => k);
    assert a[..] == Iota(d);
    for i := 0 to d
      invariant multiset(a[..]) == multiset(Iota(d))
      invariant Indexes(w, a[..]) && SelectedUpTo(w, a[..], i)
    {
      var m := HeaviestFrom(w, a, i);
      ghost var s := a[..];
      assert forall k :: i <= k < d ==> w[s[m]] >= w[s[k]];
      Swap(a, i, m);
      SelectionStep(w, s, i, m);
    }
    order := a[..];
    PermutationOfIota(order, d);
  }

  /** The first i entries of s are in descending order, and none is lighter than an entry after them. */
  ghost predicate SelectedUpTo(w: seq<real>, s: seq<nat>, i: nat)
    requires Indexes(w, s)
  {
    (forall j, k :: 0 <= j < k < i && k < |s| ==> w[s[j]] >= w[s[k]]) &&
    (forall j, k :: 0 <= j < i <= k < |s| ==> w[s[j]] >= w[s[k]])
  }

  /** Swapping a heaviest remaining entry into place i extends the selected prefix by one. */
  lemma SelectionStep(w: seq<real>, s: seq<nat>, i: nat, m: nat)
    requires Indexes(w, s) && i <= m < |s| && SelectedUpTo(w, s, i)
    requires forall k :: i <= k < |s| ==> w[s[m]] >= w[s[k]]
    ensures Indexes(w, s[i := s[m]][m := s[i]]) && SelectedUpTo(w, s[i := s[m]][m := s[i]], i + 1)
  {
    var t := s[i := s[m]][m := s[i]];
    assert forall k :: 0 <= k < |t| ==> t[k] == (if k == m then s[i] else if k == i then s[m] else s[k]);
    forall k | i < k < |t| ensures w[t[i]] >= w[t[k]] {
      assert t[i] == s[m];
    }
  }

  /** The position, at or after i, of a heaviest pixel still unranked. */
  method HeaviestFrom(w: seq<real>, a: array<nat>, i: nat) returns (m: nat)
    requires i < a.Length && Indexes(w, a[..])
    ensures i <= m < a.Length
    ensures forall k :: i <= k < a.Length ==> w[a[m]] >= w[a[k]]
  {
    m := i;
    for j := i + 1 to a.Length
      invariant i <= m < a.Length
      invariant forall k :: i <= k < j ==> w[a[m]] >= w[a[k]]
    {
      if w[a[j]] > w[a[m]] { m := j; }
    }
  }

  method Swap(a: array<nat>, i: nat, j: nat)
    requires i < a.Length && j < a.Length
    modifies a
    ensures a[..] == old(a[..])[i := old(a[j])][j := old(a[i])]
    ensures multiset(a[..]) == old(multiset(a[..]))
  {
    a[i], a[j] := a[j], a[i];
  }

  /** A sequence with the same elements as 0 .. d-1 is a permutation of them. */
  lemma PermutationOfIota(s: seq<nat>, d: nat)
    requires multiset(s) == multiset(Iota(d))
    ensures IsPermutation(s, d)
  {
    assert |s| == |multiset(s)| == |multiset(Iota(d))| == d;
    forall k | 0 <= k < d ensures s[k] < d {
      assert s[k] in multiset(Iota(d));
    }
    forall p | 0 <= p < d ensures p in s {
      assert Iota(d)[p] == p;
      assert p in multiset(Iota(d));
    }
    forall i, j | 0 <= i < j < d ensures s[i] != s[j] {
      if s[i] == s[j] {
        IotaOnce(d, s[i]);
        TwiceInMultiset(s, i, j);
      }
    }
  }

  lemma {:induction false} IotaOnce(d: nat, x: nat)
    ensures multiset(Iota(d))[x] <= 1
  {
    if d > 0 {
      IotaOnce(d - 1, x);
      assert Iota(d) == Iota(d - 1) + [d - 1];
      if x == d - 1 {
        assert x !in Iota(d - 1);
      }
    }
  }

  lemma TwiceInMultiset(s: seq<nat>, i: nat, j: nat)
    requires i < j < |s| && s[i] == s[j]
    ensures multiset(s)[s[i]] >= 2
  {
    assert s == s[..j] + [s[j]] + s[j + 1..];
    assert s[i] in s[..j];
  }

  /**
   * The inclusion depth of one column (`indx`, `cumEn` and `Bvec` of the
   * source), for a column with at least one pixel.
   */
  method InclusionDepth(w: seq<real>) returns (order: seq<nat>, depth: DepthMap)
    requires |w| > 0
    ensures IsDepthMap(w, order, depth)
  {
    var d := |w|;
    order := ArgSortDescending(w);
    var cum := CumulativeEnergy(w, order);
    var total := cum[d - 1];
    if total == 0.0 {
      // cumEn /= 0 leaves NaN in every cell
      depth := Undefined;
    } else {
      DivideInPlace(cum, total);
      var b := ScatterBack(order, cum);
      depth := Depths(b[..]);
    }
  }

  /** `cumEn = np.cumsum(A[:, i].flatten()[indx]**2)`. */
  method CumulativeEnergy(w: seq<real>, order: seq<nat>) returns (cum: array<real>)
    requires Indexes(w, order)
    ensures fresh(cum) && cum.Length == |order|
    ensures forall j :: 0 <= j < |order| ==> cum[j] == Energy(w, order, j + 1)
  {
    cum := new real[|order|];
    var acc := 0.0;
    for k := 0 to |order|
      invariant acc == Energy(w, order, k)
      invariant forall j :: 0 <= j < k ==> cum[j] == Energy(w, order, j + 1)
    {
      acc := acc + Sq(w[order[k]]);
      cum[k] := acc;
    }
  }

  /** `cumEn /= cumEn[-1]`, with the divisor read once before the division. */
  method DivideInPlace(cum: array<real>, total: real)
    requires total != 0.0
    modifies cum
    ensures forall j :: 0 <= j < cum.Length ==> cum[j] == old(cum[j]) / total
  {
    for k := 0 to cum.Length
      invariant forall j :: 0 <= j < k ==> cum[j] == old(cum[j]) / total
      invariant forall j :: k <= j < cum.Length ==> cum[j] == old(cum[j])
    {
      cum[k] := cum[k] / total;
    }
  }

  /** `Bvec = np.zeros(d); Bvec[indx] = cumEn`: pixel order[k] receives cumEn[k]. */
  method ScatterBack(order: seq<nat>, cum: array<real>) returns (b: array<real>)
    requires IsPermutation(order, cum.Length)
    ensures fresh(b) && b.Length == cum.Length
    ensures forall k :: 0 <= k < |order| ==> b[order[k]] == cum[k]
  {
    b := new real[cum.Length](_ => 0.0);
    for k := 0 to |order|
      invariant forall j :: 0 <= j < k ==> b[order[j]] == cum[j]
    {
      b[order[k]] := cum[k];
    }
  }

  // ---------------------------------------------------------------------
  // What every depth map satisfies
  // ---------------------------------------------------------------------

  lemma SqNonNegative(x: real)
    ensures Sq(x) >= 0.0 && (Sq(x) == 0.0 <==> x == 0.0)
  {
    if x > 0.0 {
      MulPositive(x, x);
    } else if x < 0.0 {
      MulNegative(x, x);
    }
  }

  lemma MulPositive(a: real, b: real)
    requires a > 0.0 && b > 0.0
    ensures Mul(a, b) > 0.0
  {}

  lemma MulNegative(a: real, b: real)
    requires a < 0.0 && b < 0.0
    ensures Mul(a, b) > 0.0
  {}

  lemma {:induction false} EnergyMonotone(w: seq<real>, order: seq<nat>, m: nat, n: nat)
    requires m <= n <= |order| && Indexes(w, order)
    ensures 0.0 <= Energy(w, order, m) <= Energy(w, order, n)
    decreases n
  {
    if n > m {
      EnergyMonotone(w, order, m, n - 1);
      SqNonNegative(w[order[n - 1]]);
    } else if m > 0 {
      EnergyMonotone(w, order, 0, m - 1);
      SqNonNegative(w[order[m - 1]]);
    }
  }

  /** The energy of a prefix vanishes exactly when every weight in it is zero. */
  lemma {:induction false} EnergyZero(w: seq<real>, order: seq<nat>, n: nat)
    requires n <= |order| && Indexes(w, order)
    ensures Energy(w, order, n) == 0.0 <==> forall k :: 0 <= k < n ==> w[order[k]] == 0.0
  {
    if n > 0 {
      EnergyZero(w, order, n - 1);
      EnergyMonotone(w, order, 0, n - 1);
      SqNonNegative(w[order[n - 1]]);
    }
  }

  /** The map is undefined exactly for an all-zero column. */
  lemma DepthUndefinedIffZero(w: seq<real>, order: seq<nat>, depth: DepthMap)
    requires IsDepthMap(w, order, depth)
    ensures depth.Undefined? <==> forall p :: 0 <= p < |w| ==> w[p] == 0.0
  {
    EnergyZero(w, order, |w|);
    if forall k :: 0 <= k < |w| ==> w[order[k]] == 0.0 {
      forall p | 0 <= p < |w| ensures w[p] == 0.0 {
        var k := RankOf(order, |w|, p);
      }
    }
  }

  /** Every pixel's depth lies in [0, 1], and the least significant pixel has depth 1. */
  lemma DepthInUnitInterval(w: seq<real>, order: seq<nat>, depth: DepthMap)
    requires IsDepthMap(w, order, depth) && depth.Depths?
    ensures forall p :: 0 <= p < |w| ==> 0.0 <= depth.values[p] <= 1.0
    ensures depth.values[order[|w| - 1]] == 1.0
  {
    var d := |w|;
    var total := Energy(w, order, d);
    EnergyMonotone(w, order, 0, d);
    forall p | 0 <= p < d ensures 0.0 <= depth.values[p] <= 1.0 {
      var k := RankOf(order, d, p);
      EnergyMonotone(w, order, k + 1, d);
      QuotientInUnit(Energy(w, order, k + 1), total);
    }
  }

  lemma QuotientInUnit(x: real, y: real)
    requires 0.0 <= x <= y && y != 0.0
    ensures 0.0 <= x / y <= 1.0
  {
  }

  /** Depth never decreases along the ranking. */
  lemma DepthAlongOrder(w: seq<real>, order: seq<nat>, depth: DepthMap, i: nat, j: nat)
    requires IsDepthMap(w, order, depth) && depth.Depths?
    requires i <= j < |w|
    ensures depth.values[order[i]] <= depth.values[order[j]]
  {
    EnergyMonotone(w, order, i + 1, j + 1);
    EnergyMonotone(w, order, j + 1, |w|);
    QuotientMonotone(Energy(w, order, i + 1), Energy(w, order, j + 1), Energy(w, order, |w|));
  }

  lemma QuotientMonotone(x: real, y: real, z: real)
    requires x <= y && z > 0.0
    ensures x / z <= y / z
  {
  }

  /** A heavier pixel is never deeper than a lighter one. */
  lemma DepthMonotoneInWeight(w: seq<real>, order: seq<nat>, depth: DepthMap, p: nat, q: nat)
    requires IsDepthMap(w, order, depth) && depth.Depths?
    requires p < |w| && q < |w| && w[p] > w[q]
    ensures depth.values[p] <= depth.values[q]
  {
    var i := RankOf(order, |w|, p);
    var j := RankOf(order, |w|, q);
    if i <= j {
      DepthAlongOrder(w, order, depth, i, j);
    }
  }
}
