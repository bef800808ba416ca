/**
 * The calls into the factorisation library, as the orchestrators sequence
 * them. Each library routine is an opaque total function (a field of
 * `Library`); each call the orchestrators make is also recorded as an event,
 * carrying the option values the caller passes, so that traces can be
 * compared. The two fitting runs — the direct one and the one over patches —
 * are the pure composition of those routines.
 */
module Stages {
  import opened Common
  import opened Layout
  import opened Budget
  import opened Store
  import opened Contour

  /**
   * The option values the orchestrators set on top of `CNMFSetParms`:
   * the worker count, the initial component count K, the AR order p, the
   * neuron half-size gSig, the spatial and temporal subsampling, the pixel
   * budgets of the preprocessing, spatial and temporal stages, and the
   * initialisation's iteration settings.
   */
  datatype Settings = Settings(
    workers: nat, k: nat, p: nat, gSig: seq<nat>, ssub: nat, tsub: nat,
    prePixels: nat, spatialPixels: nat, temporalPixels: nat,
    nIter: nat, maxIter: nat, useHals: bool)

  /** `mx=100` or `mx=np.Inf`: the largest number of merges. */
  datatype MergeCap = Bounded(mx: nat) | Unbounded

  datatype Event =
    | StopServer                               // `cse.utilities.stop_server()`
    | StartServer(workers: nat)                // `cse.utilities.start_server(NCPUS)`
    | Preprocess(settings: Settings)           // `cse.preprocess_data`
    | InitComponents(settings: Settings)       // `cse.initialize_components`
    | UpdateSpatial(settings: Settings)        // `update_spatial_components`
    | UpdateTemporal(settings: Settings)       // `update_temporal_components`
    | MergeComponents(settings: Settings, thr: real, mx: MergeCap, fastMerge: Option<bool>)
    | RunPatches(settings: Settings, rf: nat, stride: nat, workers: nat, memoryFact: real)
    | OrderComponents                          // `cse.order_components`
    | Save(path: Path)                         // `np.save` or `savemat`

  /** The kind of an event, without its arguments. */
  datatype Stage =
    | KStop | KStart | KPreprocess | KInit | KSpatial | KTemporal | KMerge | KPatches | KOrder
    | KSave(path: Path)

  function Kind(e: Event): Stage {
    match e
    case StopServer => KStop
    case StartServer(_) => KStart
    case Preprocess(_) => KPreprocess
    case InitComponents(_) => KInit
    case UpdateSpatial(_) => KSpatial
    case UpdateTemporal(_) => KTemporal
    case MergeComponents(_, _, _, _) => KMerge
    case RunPatches(_, _, _, _, _) => KPatches
    case OrderComponents => KOrder
    case Save(p) => KSave(p)
  }

  function Kinds(es: seq<Event>): (ks: seq<Stage>)
    ensures |ks| == |es| && forall i {:trigger ks[i]} :: 0 <= i < |es| ==> ks[i] == Kind(es[i])
  {
    seq(|es|, i requires 0 <= i < |es| => Kind(es[i]))
  }

  /** The stages that run on the parallel backend. */
  predicate NeedsServer(k: Stage) {
    k.KPreprocess? || k.KInit? || k.KSpatial? || k.KTemporal? || k.KMerge? || k.KPatches?
  }

  /** Whether the backend is running after stage k, if it was running (`up`) before. */
  function Toggle(up: bool, k: Stage): bool {
    if k == KStart then true else if k == KStop then false else up
  }

  /** Whether the backend is running after the stages ks. */
  function After(up: bool, ks: seq<Stage>): bool
    decreases |ks|
  {
    if ks == [] then up else After(Toggle(up, ks[0]), ks[1..])
  }

  /**
   * Every backend stage of ks runs while the backend is up, and every
   * start_server comes while it is down (after a stop_server, or before any
   * start).
   */
  predicate Disciplined(up: bool, ks: seq<Stage>)
    decreases |ks|
  {
    ks == [] ||
    ((NeedsServer(ks[0]) ==> up) && (ks[0] == KStart ==> !up) && Disciplined(Toggle(up, ks[0]), ks[1..]))
  }

  /** Discipline and the backend state compose over concatenated traces. */
  lemma {:induction false} DisciplineAppend(up: bool, a: seq<Stage>, b: seq<Stage>)
    ensures Disciplined(up, a + b) <==> Disciplined(up, a) && Disciplined(After(up, a), b)
    ensures After(up, a + b) == After(After(up, a), b)
    decreases |a|
  {
    if a == [] {
      assert a + b == b;
    } else {
      assert (a + b)[1..] == a[1..] + b;
      DisciplineAppend(Toggle(up, a[0]), a[1..], b);
    }
  }

  /** A trace of file writes neither needs nor moves the backend. */
  lemma {:induction false} SavesOnly(up: bool, ks: seq<Stage>)
    requires forall i :: 0 <= i < |ks| ==> ks[i].KSave?
    ensures Disciplined(up, ks) && After(up, ks) == up
    decreases |ks|
  {
    if ks != [] {
      SavesOnly(up, ks[1..]);
    }
  }

  /** No stage of ks starts or stops the backend. */
  predicate Steady(ks: seq<Stage>) {
    forall i :: 0 <= i < |ks| ==> ks[i] != KStart && ks[i] != KStop
  }

  /** A trace that neither starts nor stops the backend is disciplined once it is up, and leaves it up. */
  lemma {:induction false} SteadyWhileUp(ks: seq<Stage>)
    requires Steady(ks)
    ensures Disciplined(true, ks) && After(true, ks)
    decreases |ks|
  {
    if ks != [] {
      SteadyWhileUp(ks[1..]);
    }
  }

  /**
   * Starting the backend and then running a steady trace is disciplined
   * exactly when the backend was down, and leaves it up.
   */
  lemma StartThenSteady(up: bool, ks: seq<Stage>)
    requires Steady(ks)
    ensures Disciplined(up, [KStart] + ks) <==> !up
    ensures After(up, [KStart] + ks)
  {
    assert ([KStart] + ks)[1..] == ks;
    SteadyWhileUp(ks);
  }

  /** A leading stop_server leaves the backend stopped, whatever it was. */
  lemma StopThen(up: bool, ks: seq<Stage>)
    ensures Disciplined(up, [KStop] + ks) == Disciplined(false, ks)
    ensures After(up, [KStop] + ks) == After(false, ks)
  {
    assert ([KStop] + ks)[1..] == ks;
  }

  /** A trailing file write changes neither discipline nor the backend state. */
  lemma ThenSave(up: bool, ks: seq<Stage>, path: Path)
    ensures Disciplined(up, ks + [KSave(path)]) == Disciplined(up, ks)
    ensures After(up, ks + [KSave(path)]) == After(up, ks)
  {
    DisciplineAppend(up, ks, [KSave(path)]);
    SavesOnly(After(up, ks), [KSave(path)]);
  }

  // ---------------------------------------------------------------------
  // What the library computes, left uninterpreted
  // ---------------------------------------------------------------------

  datatype Preprocessed = Preprocessed(yr: Matrix, sn: Matrix, g: Matrix, psx: Matrix)
  datatype Initial = Initial(a: Matrix, c: Matrix, b: Matrix, f: Matrix, center: Matrix)
  datatype Spatial = Spatial(a: Matrix, b: Matrix, c: Matrix)
  datatype Temporal = Temporal(c: Matrix, f: Matrix, s: Matrix, bl: Matrix, c1: Matrix,
                               sn: Matrix, g: Matrix, yra: Matrix)
  /** The positional and keyword data arguments of `merge_components`. */
  datatype MergeInput = MergeInput(yr: Matrix, a: Matrix, b: Matrix, c: Matrix, f: Matrix,
                                   s: Matrix, sn: Matrix, bl: Option<Matrix>, c1: Option<Matrix>,
                                   neuronsSn: Option<Matrix>, g: Option<Matrix>)
  /** `A_m` and `C_m`; the merge's other outputs are never read. */
  datatype Merged = Merged(a: Matrix, c: Matrix)
  datatype Patches = Patches(a: Matrix, c: Matrix, b: Matrix, f: Matrix, sn: Matrix)

  datatype Library = Library(
    readTiffs: seq<string> -> Option<Cube>,                                     // TiffSequence(...).asarray(); None when it raises
    preprocess: (Matrix, Settings) -> Preprocessed,
    initialize: (Cube, Settings) -> Initial,
    updateSpatial: (Matrix, Matrix, Matrix, Matrix, Matrix, Settings) -> Spatial,   // Yr, C, f, A, sn
    updateTemporal: (Matrix, Matrix, Matrix, Matrix, Matrix, Settings) -> Temporal, // Yr, A, b, C, f
    merge: (MergeInput, Settings, real, MergeCap, Option<bool>) -> Merged,
    runPatches: (Matrix, nat, nat, nat, Settings) -> Patches,                    // the Yr file, (d1, d2, T)
    orderComponents: (Matrix, Matrix) -> Matrix,
    zproject: Cube -> Matrix,                                                  // `utils.zproject`
    mergeThr: real,                                                            // `options['merging']['thr']`
    trace: Tracer)

  // ---------------------------------------------------------------------
  // The two fitting runs
  // ---------------------------------------------------------------------

  /** The events a run emitted and its bundle or the error it stopped at. */
  datatype Run = Run(events: seq<Event>, outcome: Result<Bundle>)

  /** The options dictionary after the orchestrators' edits, for a budget of `pixels` per worker. */
  function Options(workers: nat, k: nat, p: nat, sub: nat, pixels: nat): Settings
  {
    Settings(workers, k, p, [9, 9], sub, sub, pixels, pixels, pixels, 10, 10, true)
  }

  /**
   * The last two updates of both runs: the merged components are refined
   * spatially (`A2, b2, C2`) and then temporally, and the bundle keeps
   * A2 with the temporal C2, YrA, S2 and bl2.
   */
  function Refine(lib: Library, yr: Matrix, m: Merged, f: Matrix, sn: Matrix, s: Settings): Bundle
  {
    var sp2 := lib.updateSpatial(yr, m.c, f, m.a, sn, s);
    var tp2 := lib.updateTemporal(yr, sp2.a, sp2.b, sp2.c, f, s);
    Bundle(sp2.a, tp2.c, tp2.yra, tp2.s, tp2.bl)
  }

  /** The stage kinds of a successful direct run. */
  const DirectStages: seq<Stage> :=
    [KStart, KPreprocess, KInit, KSpatial, KTemporal, KMerge, KSpatial, KTemporal]

  /** The stage kinds of a successful run over patches: no separate preprocess or init. */
  const PatchedStages: seq<Stage> := [KStart, KPatches, KMerge, KSpatial, KTemporal]

  /**
   * `process_data` from `start_server` to the second temporal update: the
   * whole recording is preprocessed, initialised with K = nrois_init,
   * updated, merged (thr 0.7, at most 100 merges, fast merge) and updated
   * again, with subsampling 2 and d1*d2/NCPUS pixels per worker.
   */
  function DirectFit(lib: Library, ncpus: nat, y: Cube, yr: Matrix, p: nat, nroisInit: nat): Run
  {
    match PixelsPerProcess(y.n0, y.n1, ncpus)
    case Err(e) => Run([], Err(e))
    case Ok(npp) =>
      var s := Options(ncpus, nroisInit, p, 2, npp);
      var pre := lib.preprocess(yr, s);
      var init := lib.initialize(y, s);
      var sp := lib.updateSpatial(pre.yr, init.c, init.f, init.a, pre.sn, s);
      var tp := lib.updateTemporal(pre.yr, sp.a, sp.b, sp.c, init.f, s);
      var m := lib.merge(MergeInput(pre.yr, sp.a, sp.b, tp.c, tp.f, tp.s, pre.sn,
                                    Some(tp.bl), Some(tp.c1), Some(tp.sn), Some(tp.g)),
                         s, 0.7, Bounded(100), Some(true));
      Run(DirectEvents(ncpus, s), Ok(Refine(lib, pre.yr, m, tp.f, pre.sn, s)))
  }

  /** What the direct run logs: start_server, preprocess, init, spatial, temporal, then the merge and refinement. */
  function DirectEvents(workers: nat, s: Settings): seq<Event>
  {
    [StartServer(workers), Preprocess(s), InitComponents(s), UpdateSpatial(s), UpdateTemporal(s)] +
    MergeEvents(s, 0.7, Bounded(100), Some(true))
  }

  /** The merge and the two refining updates that end both runs, all with the same options. */
  function MergeEvents(s: Settings, thr: real, mx: MergeCap, fastMerge: Option<bool>): seq<Event>
  {
    [MergeComponents(s, thr, mx, fastMerge), UpdateSpatial(s), UpdateTemporal(s)]
  }

  /**
   * `process_data_patches` from `start_server` to the second temporal
   * update: the patch runner (rf 16, stride 2, memory factor 4) starts each
   * patch with nrois_init/NCPUS/2 components, and its union is merged and
   * refined by `MergePatches`. A zero frame count fails after the patch run.
   */
  function PatchedFit(lib: Library, ncpus: nat, y: Cube, yr: Matrix, p: nat, nroisInit: nat): Run
  {
    match PixelsPerProcess(y.n0, y.n1, ncpus)
    case Err(e) => Run([], Err(e))
    case Ok(npp) =>
      var s1 := Options(ncpus, PatchComponents(nroisInit, ncpus).value, p, 1, npp);
      var pt := lib.runPatches(yr, y.n0, y.n1, y.n2, s1);
      var rest := MergePatches(lib, ncpus, y, yr, p, pt);
      Run([StartServer(ncpus), RunPatches(s1, 16, 2, ncpus, 4.0)] + rest.events, rest.outcome)
  }

  /**
   * The patched run after `run_CNMF_patches`: the options are rebuilt with
   * K = the number of patch components and the smaller pix_proc budget for
   * the updates; the patch components are merged with the library's
   * default threshold and no cap (passing `[]` for b, f and sn and C_tot in
   * the place of S), then refined.
   */
  function MergePatches(lib: Library, ncpus: nat, y: Cube, yr: Matrix, p: nat, pt: Patches): Run
    requires ncpus > 0
  {
    match PixProc(y.n0, y.n1, y.n2, ncpus)
    case Err(e) => Run([], Err(e))
    case Ok(pix) =>
      var s := Options(ncpus, pt.a.cols, p, 1, y.n0 * y.n1 / ncpus).(spatialPixels := pix, temporalPixels := pix);
      var m := lib.merge(MergeInput(yr, pt.a, EmptyMatrix, pt.c, EmptyMatrix, pt.c, EmptyMatrix,
                                    None, None, None, None),
                         s, lib.mergeThr, Unbounded, None);
      Run(MergeEvents(s, lib.mergeThr, Unbounded, None), Ok(Refine(lib, yr, m, pt.f, pt.sn, s)))
  }

  // ---------------------------------------------------------------------
  // What the runs emit
  // ---------------------------------------------------------------------

  lemma KindsAppend(a: seq<Event>, b: seq<Event>)
    ensures Kinds(a + b) == Kinds(a) + Kinds(b)
  {
  }

  /** The merge and refinement log: merge, spatial, temporal, each with the same options. */
  lemma MergeEventsShape(s: Settings, thr: real, mx: MergeCap, fastMerge: Option<bool>)
    ensures var es := MergeEvents(s, thr, mx, fastMerge);
            Kinds(es) == [KMerge, KSpatial, KTemporal] &&
            es[0] == MergeComponents(s, thr, mx, fastMerge) &&
            forall i :: 0 <= i < |es| ==> es[i].settings == s
  {
  }

  /** The direct log: the eight stages of `DirectStages`, the backend started with the given workers, one set of options throughout. */
  lemma DirectEventsShape(workers: nat, s: Settings)
    ensures var es := DirectEvents(workers, s);
            Kinds(es) == DirectStages &&
            es[0] == StartServer(workers) &&
            (forall i :: 1 <= i < |es| ==> es[i].settings == s) &&
            es[5] == MergeComponents(s, 0.7, Bounded(100), Some(true))
  {
    var head := [StartServer(workers), Preprocess(s), InitComponents(s), UpdateSpatial(s), UpdateTemporal(s)];
    KindsAppend(head, MergeEvents(s, 0.7, Bounded(100), Some(true)));
    MergeEventsShape(s, 0.7, Bounded(100), Some(true));
  }

  /**
   * The direct run fails exactly when NCPUS is 0, before any call; otherwise
   * it starts the backend with NCPUS workers and calls preprocess, init,
   * spatial, temporal, merge (thr 0.7, mx 100, fast merge), spatial and
   * temporal, every stage with the same options: K = nrois_init,
   * subsampling 2 and d1*d2/NCPUS pixels per worker.
   */
  lemma DirectFitTrace(lib: Library, ncpus: nat, y: Cube, yr: Matrix, p: nat, nroisInit: nat)
    ensures var run := DirectFit(lib, ncpus, y, yr, p, nroisInit);
            (run.outcome.Err? <==> ncpus == 0) &&
            (run.outcome.Err? ==> run.outcome.error == ZeroDivision && run.events == []) &&
            (run.outcome.Ok? ==>
               Kinds(run.events) == DirectStages &&
               run.events[0] == StartServer(ncpus) &&
               (forall i :: 1 <= i < |run.events| ==>
                  run.events[i].settings == Options(ncpus, nroisInit, p, 2, PixelsPerProcess(y.n0, y.n1, ncpus).value)) &&
               PixelsPerProcess(y.n0, y.n1, ncpus).value == y.n0 * y.n1 / ncpus &&
               run.events[5] == MergeComponents(run.events[5].settings, 0.7, Bounded(100), Some(true)))
  {
    if ncpus > 0 {
      DirectEventsShape(ncpus, Options(ncpus, nroisInit, p, 2, PixelsPerProcess(y.n0, y.n1, ncpus).value));
    }
  }

  /**
   * The patched run: it fails when NCPUS is 0 before any call, and when
   * the recording has no frames right after the patch run; otherwise it
   * starts the backend, runs the patches and merges and refines.
   */
  lemma PatchedFitTrace(lib: Library, ncpus: nat, y: Cube, yr: Matrix, p: nat, nroisInit: nat)
    ensures var run := PatchedFit(lib, ncpus, y, yr, p, nroisInit);
            (run.outcome.Err? <==> ncpus == 0 || y.n2 == 0) &&
            (run.outcome.Err? ==> run.outcome.error == ZeroDivision) &&
            (ncpus == 0 ==> run.events == []) &&
            (ncpus > 0 && y.n2 == 0 ==> Kinds(run.events) == [KStart, KPatches]) &&
            (run.outcome.Ok? ==> Kinds(run.events) == PatchedStages)
  {
    if ncpus > 0 {
      var run := PatchedFit(lib, ncpus, y, yr, p, nroisInit);
      var s1 := Options(ncpus, PatchComponents(nroisInit, ncpus).value, p, 1, PixelsPerProcess(y.n0, y.n1, ncpus).value);
      var rest := MergePatches(lib, ncpus, y, yr, p, lib.runPatches(yr, y.n0, y.n1, y.n2, s1));
      MergePatchesTrace(lib, ncpus, y, yr, p, lib.runPatches(yr, y.n0, y.n1, y.n2, s1));
      assert run.events == [StartServer(ncpus), RunPatches(s1, 16, 2, ncpus, 4.0)] + rest.events;
      KindsAppend([StartServer(ncpus), RunPatches(s1, 16, 2, ncpus, 4.0)], rest.events);
    }
  }

  /**
   * With at least one worker the patched run begins by starting the backend
   * and running the patches: rf 16, stride 2, memory factor 4, NCPUS
   * workers, nrois_init/(2*NCPUS) components per patch, subsampling 1 and
   * d1*d2/NCPUS pixels per worker.
   */
  lemma PatchedFitStart(lib: Library, ncpus: nat, y: Cube, yr: Matrix, p: nat, nroisInit: nat)
    requires ncpus > 0
    ensures var es := PatchedFit(lib, ncpus, y, yr, p, nroisInit).events;
            var k, npp := PatchComponents(nroisInit, ncpus).value, PixelsPerProcess(y.n0, y.n1, ncpus).value;
            |es| >= 2 && es[0] == StartServer(ncpus) &&
            es[1] == RunPatches(Options(ncpus, k, p, 1, npp), 16, 2, ncpus, 4.0) &&
            k == nroisInit / (2 * ncpus) && npp == y.n0 * y.n1 / ncpus
  {
    PatchComponentsShare(nroisInit, ncpus);
  }

  /**
   * After the patch run: no frames means a zero division before any call;
   * otherwise merge, spatial and temporal run with K = the number of patch
   * components, d1*d2/NCPUS preprocessing pixels and the pix_proc budget
   * for the updates, which never exceeds it; the merge uses the library's
   * default threshold and no cap.
   */
  lemma MergePatchesTrace(lib: Library, ncpus: nat, y: Cube, yr: Matrix, p: nat, pt: Patches)
    requires ncpus > 0
    ensures var run := MergePatches(lib, ncpus, y, yr, p, pt);
            (run.outcome.Err? <==> y.n2 == 0) &&
            (run.outcome.Err? ==> run.outcome.error == ZeroDivision && run.events == []) &&
            (run.outcome.Ok? ==>
               Kinds(run.events) == [KMerge, KSpatial, KTemporal] &&
               run.events[0] == MergeComponents(run.events[0].settings, lib.mergeThr, Unbounded, None) &&
               forall i :: 0 <= i < |run.events| ==>
                 var s := run.events[i].settings;
                 s.k == pt.a.cols &&
                 s.prePixels == y.n0 * y.n1 / ncpus &&
                 s.spatialPixels == s.temporalPixels == PixProc(y.n0, y.n1, y.n2, ncpus).value &&
                 s.spatialPixels <= s.prePixels)
  {
  }
}
