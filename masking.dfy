/**
 * Frame selection of the cache conversion. A mask entry `true` EXCLUDES the
 * frame. A mask shorter than the file list is padded with `true`, so frames
 * past its end are dropped; a longer mask has its surplus ignored, because
 * the kept list is a comprehension over `zip(filenames, mask_full)`.
 */
module Masking {
  import opened Common

  /** `mask_full`: the mask, extended with `np.ones(...)` (excluded) up to n entries. */
  function PadMask(mask: seq<bool>, n: nat): (full: seq<bool>)
    ensures |full| == if n > |mask| then n else |mask|
    ensures full[..|mask|] == mask
    ensures forall k :: |mask| <= k < |full| ==> full[k]
  {
    if n > |mask| then mask + seq(n - |mask|, _ => true) else mask
  }

  /**
   * `[x for x, masked in zip(xs, ms) if not masked]`, unfolded from its last
   * zipped pair.
   */
  function Keep<T>(xs: seq<T>, ms: seq<bool>): seq<T>
    decreases |xs|
  {
    var n := if |xs| < |ms| then |xs| else |ms|;
    if n == 0 then []
    else Keep(xs[..n - 1], ms[..n - 1]) + (if ms[n - 1] then [] else [xs[n - 1]])
  }

  /** The file list handed to the TIFF reader: all files without a mask, the unmasked ones otherwise. */
  function KeptFiles<T>(files: seq<T>, mask: Option<seq<bool>>): seq<T>
  {
    match mask
    case None => files
    case Some(m) => Keep(files, PadMask(m, |files|))
  }

  /** The positions k with ms[k] == false, in increasing order. */
  function Positions(ms: seq<bool>): seq<nat>
  {
    if ms == [] then []
    else Positions(ms[..|ms| - 1]) + (if ms[|ms| - 1] then [] else [|ms| - 1])
  }

  /** The number of `false` entries. */
  function CountKept(ms: seq<bool>): nat
  {
    if ms == [] then 0 else CountKept(ms[..|ms| - 1]) + (if ms[|ms| - 1] then 0 else 1)
  }

  /**
   * Positions lists exactly the unmasked positions, each once, in increasing
   * order, and there are CountKept of them.
   */
  lemma {:induction false} PositionsExact(ms: seq<bool>)
    ensures |Positions(ms)| == CountKept(ms)
    ensures forall j :: 0 <= j < |Positions(ms)| ==> Positions(ms)[j] < |ms| && !ms[Positions(ms)[j]]
    ensures forall i, j :: 0 <= i < j < |Positions(ms)| ==> Positions(ms)[i] < Positions(ms)[j]
    ensures forall k :: 0 <= k < |ms| && !ms[k] ==> k in Positions(ms)
  {
    if ms != [] {
      var init := ms[..|ms| - 1];
      PositionsExact(init);
      assert forall k :: 0 <= k < |init| ==> init[k] == ms[k];
    }
  }

  /**
   * The kept list is the order-preserving subsequence of xs at the unmasked
   * positions among the first min(|xs|, |ms|).
   */
  lemma {:induction false} KeepSelects<T>(xs: seq<T>, ms: seq<bool>)
    ensures var n := if |xs| < |ms| then |xs| else |ms|;
            var p := Positions(ms[..n]);
            |Keep(xs, ms)| == |p| &&
            forall j :: 0 <= j < |p| ==> p[j] < |xs| && Keep(xs, ms)[j] == xs[p[j]]
  {
    var n := if |xs| < |ms| then |xs| else |ms|;
    if n > 0 {
      var xs', ms' := xs[..n - 1], ms[..n - 1];
      KeepSelects(xs', ms');
      assert ms'[..n - 1] == ms' && ms[..n][..n - 1] == ms';
      var k, k' := Keep(xs, ms), Keep(xs', ms');
      var p, p' := Positions(ms[..n]), Positions(ms');
      assert k == k' + (if ms[n - 1] then [] else [xs[n - 1]]);
      assert p == p' + (if ms[n - 1] then [] else [n - 1]);
      forall j | 0 <= j < |p| ensures p[j] < |xs| && k[j] == xs[p[j]] {
        if j < |p'| {
          assert p[j] == p'[j] && k[j] == k'[j] && xs'[p'[j]] == xs[p'[j]];
        }
      }
    }
  }

  /**
   * Padding with "excluded" means only the files under the caller's mask can
   * be kept, and zip drops a surplus: the kept list is the filter of the
   * common prefix.
   */
  lemma {:induction false} PaddedKeep<T>(xs: seq<T>, mask: seq<bool>)
    ensures var n := if |xs| < |mask| then |xs| else |mask|;
            Keep(xs, PadMask(mask, |xs|)) == Keep(xs[..n], mask[..n])
    decreases |xs|
  {
    var n := if |xs| < |mask| then |xs| else |mask|;
    if |xs| > |mask| {
      var full := PadMask(mask, |xs|);
      var xs' := xs[..|xs| - 1];
      assert full[|xs| - 1];
      assert full[..|xs| - 1] == PadMask(mask, |xs'|);
      PaddedKeep(xs', mask);
      assert xs'[..n] == xs[..n];
    } else {
      KeepPrefix(xs, mask, n);
    }
  }

  /** Keep only looks at the zipped prefix. */
  lemma KeepPrefix<T>(xs: seq<T>, ms: seq<bool>, n: nat)
    requires n == if |xs| < |ms| then |xs| else |ms|
    ensures Keep(xs, ms) == Keep(xs[..n], ms[..n])
  {
    if n > 0 {
      assert xs[..n][..n - 1] == xs[..n - 1] && ms[..n][..n - 1] == ms[..n - 1];
    }
  }

  /** Frames at or past the end of the caller's mask are never kept, whatever their name. */
  lemma TailFramesDropped<T>(xs: seq<T>, mask: seq<bool>)
    requires |mask| < |xs|
    ensures var p := Positions(PadMask(mask, |xs|));
            forall j :: 0 <= j < |p| ==> p[j] < |mask|
  {
    PositionsExact(PadMask(mask, |xs|));
  }

  /** The kept list is as long as the number of `false` entries of the (padded, zipped) mask. */
  lemma KeptCount<T>(xs: seq<T>, mask: seq<bool>)
    ensures var n := if |xs| < |mask| then |xs| else |mask|;
            |KeptFiles(xs, Some(mask))| == CountKept(mask[..n])
  {
    var n := if |xs| < |mask| then |xs| else |mask|;
    PaddedKeep(xs, mask);
    KeepSelects(xs[..n], mask[..n]);
    assert mask[..n][..n] == mask[..n];
    PositionsExact(mask[..n]);
  }
}
