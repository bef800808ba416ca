/**
 * Worker and pixel budgets of the two orchestrators. The module targets
 * Python 2 (it imports `print_function` from `__future__`), so `/` between
 * two integers is floor division; `int(...)` and `np.int(...)` of a
 * non-negative quotient are floors as well. A zero divisor raises.
 */
module Budget {
  import opened Common
  import opened Arith

  /** `NCPUS = int(mp.cpu_count()/2)`: half the processing units, rounded down. */
  function NCpus(cpuCount: nat): (n: nat)
    ensures 2 * n <= cpuCount < 2 * n + 2
    ensures n == 0 <==> cpuCount < 2
  {
    cpuCount / 2
  }

  /** `n_pixels_per_process = d1*d2/NCPUS`, both orchestrators. */
  function PixelsPerProcess(d1: nat, d2: nat, ncpus: nat): (r: Result<nat>)
    ensures r.Err? <==> ncpus == 0
    ensures r.Err? ==> r.error == ZeroDivision
  {
    if ncpus == 0 then Err(ZeroDivision) else Ok(d1 * d2 / ncpus)
  }

  /** The per-process budget is the floor quotient: the largest q with q * NCPUS <= d1*d2. */
  lemma PixelsPerProcessFloor(d1: nat, d2: nat, ncpus: nat)
    requires ncpus > 0
    ensures var q := PixelsPerProcess(d1, d2, ncpus).value;
            q * ncpus <= d1 * d2 < (q + 1) * ncpus
  {
  }

  /** `K=int(nrois_init/NCPUS/2.0)`: the initial component count of each patch. */
  function PatchComponents(nroisInit: nat, ncpus: nat): (r: Result<nat>)
    ensures r.Err? <==> ncpus == 0
    ensures r.Err? ==> r.error == ZeroDivision
  {
    if ncpus == 0 then Err(ZeroDivision) else Ok((nroisInit / ncpus) / 2)
  }

  /** `(n / a) / b == n / (a * b)` for positive a and b. */
  lemma NestedFloor(n: nat, a: nat, b: nat)
    requires a > 0 && b > 0
    ensures (n / a) / b == n / (a * b)
  {
    var q1, r1 := n / a, n % a;
    var q2, r2 := q1 / b, q1 % b;
    assert n == q1 * a + r1;
    assert q1 == q2 * b + r2;
    assert n == q2 * (a * b) + (r2 * a + r1) by {
      assert q1 * a == (q2 * b + r2) * a;
      assert (q2 * b + r2) * a == q2 * (a * b) + r2 * a;
    }
    MulMonotone(r2, b - 1, a);
    assert (b - 1) * a == a * b - a;
    DivModUnique(n, a * b, q2, r2 * a + r1);
  }

  /** Each patch starts with nrois_init / (2 * NCPUS) components, rounded down. */
  lemma PatchComponentsShare(nroisInit: nat, ncpus: nat)
    requires ncpus > 0
    ensures PatchComponents(nroisInit, ncpus) == Ok(nroisInit / (2 * ncpus))
  {
    NestedFloor(nroisInit, ncpus, 2);
  }

  /**
   * `pix_proc = min(int(d1*d2/NCPUS/(T/2000.)), int(d1*d2/NCPUS))`, the
   * per-process pixel budget of the patched path's global updates. With
   * q = d1*d2/NCPUS, the first operand is floor(q * 2000 / T) in exact
   * arithmetic; a zero NCPUS or a zero T raises.
   */
  function PixProc(d1: nat, d2: nat, t: nat, ncpus: nat): (r: Result<nat>)
    ensures r.Err? <==> ncpus == 0 || t == 0
    ensures r.Err? ==> r.error == ZeroDivision
  {
    if ncpus == 0 || t == 0 then Err(ZeroDivision)
    else
      var q := d1 * d2 / ncpus;
      var scaled := (q * 2000) / t;
      Ok(if scaled < q then scaled else q)
  }

  /** pix_proc never exceeds d1*d2/NCPUS, and pix_proc * T never exceeds 2000 * d1*d2/NCPUS. */
  lemma PixProcBounds(d1: nat, d2: nat, t: nat, ncpus: nat)
    requires ncpus > 0 && t > 0
    ensures var r := PixProc(d1, d2, t, ncpus).value;
            r <= d1 * d2 / ncpus && r * t <= (d1 * d2 / ncpus) * 2000
  {
  }

  /** For recordings of at most 2000 frames the memory divisor has no effect. */
  lemma PixProcShortRecording(d1: nat, d2: nat, t: nat, ncpus: nat)
    requires ncpus > 0 && 0 < t <= 2000
    ensures PixProc(d1, d2, t, ncpus) == Ok(d1 * d2 / ncpus)
  {
    var q := d1 * d2 / ncpus;
    MulMonotone(t, 2000, q);
    assert q * t <= q * 2000;
    DivLowerBound(q * 2000, t, q);
  }

  /** Past 2000 frames the budget shrinks with the recording length (in exact arithmetic). */
  lemma PixProcLongRecording(d1: nat, d2: nat, t: nat, ncpus: nat)
    requires ncpus > 0 && t > 2000
    ensures PixProc(d1, d2, t, ncpus) == Ok((d1 * d2 / ncpus) * 2000 / t)
  {
    var q := d1 * d2 / ncpus;
    var s := (q * 2000) / t;
    if s > q {
      MulMonotone(q + 1, s, t);
      MulMonotone(2000, t, q + 1);
    }
  }

  /** `x / d >= k` whenever `k * d <= x`. */
  lemma DivLowerBound(x: nat, d: nat, k: nat)
    requires d > 0 && k * d <= x
    ensures x / d >= k
  {
    if x / d < k {
      MulMonotone(x / d + 1, k, d);
    }
  }
}
