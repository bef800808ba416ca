/**
 * The two orchestrators, `process_data` and `process_data_patches`. Both
 * convert the cache, load `_Y.npy`, and then either load the bundle
 * `_cnmf.mat` or compute it (stopping the backend, loading `_Yr.npy`,
 * starting the backend, running the fit, saving the bundle). Both then load
 * or compute the projection `_proj.npy`, order the components (and discard
 * the ordering), stop the backend, and trace the outlines of the unordered
 * spatial components at level 0.9.
 *
 * `Process` states what a run does as a function of the starting disk;
 * `Session` performs the same steps one call at a time on its disk and
 * event log and is proved to agree with it.
 */
module Pipeline {
  import opened Common
  import opened Layout
  import opened Budget
  import opened Depth
  import opened Contour
  import opened Store
  import opened Stages
  import opened Cache

  /** `process_data` or `process_data_patches`. */
  datatype Variant = Direct | Patched

  function FitRun(variant: Variant, lib: Library, ncpus: nat, y: Cube, yr: Matrix, p: nat, nroisInit: nat): Run
  {
    match variant
    case Direct => DirectFit(lib, ncpus, y, yr, p, nroisInit)
    case Patched => PatchedFit(lib, ncpus, y, yr, p, nroisInit)
  }

  function StagesOf(variant: Variant): seq<Stage>
  {
    match variant
    case Direct => DirectStages
    case Patched => PatchedStages
  }

  /** `if not os.path.exists(fn_cnmf): ... savemat(...) else: loadmat(...)`. */
  function Checkpoint(disk: Disk, lib: Library, ncpus: nat, base: string, y: Cube,
                      variant: Variant, p: nat, nroisInit: nat): (k: Step<Bundle>)
    requires WellKinded(disk)
    ensures WellKinded(k.disk)
  {
    if CnmfPath(base) in disk then Step(disk, [], Ok(disk[CnmfPath(base)].bundle))
    else if YrPath(base) !in disk then Step(disk, [StopServer], Err(MissingFile))
    else
      var run := FitRun(variant, lib, ncpus, y, disk[YrPath(base)].matrix, p, nroisInit);
      match run.outcome
      case Err(e) => Step(disk, [StopServer] + run.events, Err(e))
      case Ok(b) => Step(disk[CnmfPath(base) := BundleFile(b)], [StopServer] + run.events + [Save(CnmfPath(base))], Ok(b))
  }

  /** `zproj`: loaded from `_proj.npy`, or projected from the frames-first stack and saved. */
  function Project(disk: Disk, lib: Library, base: string, y: Cube): (pr: Step<Matrix>)
    requires WellKinded(disk)
    ensures WellKinded(pr.disk) && pr.out.Ok?
  {
    if ProjPath(base) in disk then Step(disk, [], Ok(disk[ProjPath(base)].matrix))
    else
      var z := lib.zproject(FramesFirst(y));
      Step(disk[ProjPath(base) := MatrixFile(z)], [Save(ProjPath(base))], Ok(z))
  }

  /** What a run has when it reaches the contour extraction. */
  datatype Fitted = Fitted(y: Cube, bundle: Bundle, zproj: Matrix)

  /** A whole run of `process_data` (Direct) or `process_data_patches` (Patched) up to the outlines. */
  function Process(disk: Disk, lib: Library, ncpus: nat, data: Dataset, mask: Option<seq<bool>>,
                   variant: Variant, p: nat, nroisInit: nat): (f: Step<Fitted>)
    requires WellKinded(disk)
    ensures WellKinded(f.disk)
  {
    var c := Convert(disk, lib, data, mask, false);
    if c.out.Err? then Step(c.disk, c.events, Err(c.out.error))
    else
      var y := c.disk[YPath(data.base)].cube;
      var k := Checkpoint(c.disk, lib, ncpus, data.base, y, variant, p, nroisInit);
      if k.out.Err? then Step(k.disk, c.events + k.events, Err(k.out.error))
      else
        var pr := Project(k.disk, lib, data.base, y);
        Step(pr.disk, c.events + k.events + pr.events + [OrderComponents, StopServer],
             Ok(Fitted(y, k.out.value, pr.out.value)))
  }

  /** `return rois, C2, zproj, S2, Y, YrA`, with the ROIs as their polygons. */
  datatype Outputs = Outputs(polygons: seq<Polygon>, c: Matrix, zproj: Matrix, s: Matrix, y: Cube, yra: Matrix)

  /**
   * What a run that reached the contour extraction returns: the unordered
   * A2 is outlined at thr 0.9 on the d1 x d2 frame and C2, zproj, S2, Y and
   * YrA are returned as they are; or the extraction raises.
   */
  ghost predicate Delivers(v: Fitted, trace: Tracer, r: Result<Outputs>)
  {
    var a, d1, d2 := v.bundle.a, v.y.n0, v.y.n1;
    match ContourError(a, d1, d2)
    case Some(e) => r == Err(e)
    case None =>
      r.Ok? &&
      r.value == Outputs(r.value.polygons, v.bundle.c, v.zproj, v.bundle.s, v.y, v.bundle.yra) &&
      Outlined(a, d1, d2, 0.9, trace, r.value.polygons)
  }

  lemma DirectLog(l: seq<Event>, w: nat, s: Settings)
    ensures l + [StartServer(w)] + [Preprocess(s)] + [InitComponents(s)] + [UpdateSpatial(s)] + [UpdateTemporal(s)] +
            [MergeComponents(s, 0.7, Bounded(100), Some(true))] + [UpdateSpatial(s), UpdateTemporal(s)] ==
            l + DirectEvents(w, s)
  {
  }

  lemma PatchedLog(l: seq<Event>, start: seq<Event>, s: Settings, thr: real)
    requires |start| == 2
    ensures l + [start[0]] + [start[1]] + [MergeComponents(s, thr, Unbounded, None)] + [UpdateSpatial(s), UpdateTemporal(s)] ==
            l + (start + MergeEvents(s, thr, Unbounded, None))
  {
  }

  lemma LogAssoc3(l: seq<Event>, a: seq<Event>, b: seq<Event>)
    ensures l + a + b == l + (a + b)
  {
  }

  lemma LogAssoc(l: seq<Event>, a: seq<Event>, b: seq<Event>, c: seq<Event>, d: seq<Event>)
    ensures l + a + b + c + d == l + (a + b + c + d)
  {
  }

  /** How a run ends after a successful conversion: at a failed checkpoint, or after the projection. */
  lemma ProcessAfterConvert(disk: Disk, lib: Library, ncpus: nat, data: Dataset, mask: Option<seq<bool>>,
                            variant: Variant, p: nat, nroisInit: nat)
    requires WellKinded(disk) && Convert(disk, lib, data, mask, false).out.Ok?
    ensures var c := Convert(disk, lib, data, mask, false);
            var y := c.disk[YPath(data.base)].cube;
            var k := Checkpoint(c.disk, lib, ncpus, data.base, y, variant, p, nroisInit);
            var f := Process(disk, lib, ncpus, data, mask, variant, p, nroisInit);
            (k.out.Err? ==> f == Step(k.disk, c.events + k.events, Err(k.out.error))) &&
            (k.out.Ok? ==>
               var pr := Project(k.disk, lib, data.base, y);
               f == Step(pr.disk, c.events + k.events + pr.events + [OrderComponents, StopServer],
                         Ok(Fitted(y, k.out.value, pr.out.value))))
  {
  }

  lemma LogAfterFit(l: seq<Event>, a: seq<Event>, b: seq<Event>, c: seq<Event>)
    ensures l + a + b + c == l + (a + b + c)
  {
  }

  /** A checkpoint that fits: its disk, log and outcome follow the fitting run's. */
  lemma CheckpointAfterFit(disk: Disk, lib: Library, ncpus: nat, base: string, y: Cube,
                           variant: Variant, p: nat, nroisInit: nat)
    requires WellKinded(disk) && CnmfPath(base) !in disk && YrPath(base) in disk
    ensures var run := FitRun(variant, lib, ncpus, y, disk[YrPath(base)].matrix, p, nroisInit);
            var k := Checkpoint(disk, lib, ncpus, base, y, variant, p, nroisInit);
            (run.outcome.Err? ==> k == Step(disk, [StopServer] + run.events, Err(run.outcome.error))) &&
            (run.outcome.Ok? ==>
               k == Step(disk[CnmfPath(base) := BundleFile(run.outcome.value)],
                         [StopServer] + run.events + [Save(CnmfPath(base))], run.outcome))
  {
  }

  // ---------------------------------------------------------------------
  // The orchestrators, one call at a time
  // ---------------------------------------------------------------------

  class Session {
    /** The files that exist and what they hold. */
    var disk: Disk
    /** Every call into the library and every file written, in order. */
    var log: seq<Event>
    const lib: Library
    /** `NCPUS`. */
    const ncpus: nat

    ghost predicate Valid()
      reads this
    {
      WellKinded(disk)
    }

    constructor(cpuCount: nat, library: Library, files: Disk)
      requires WellKinded(files)
      ensures Valid() && disk == files && log == [] && ncpus == NCpus(cpuCount)
    {
      disk := files;
      log := [];
      lib := library;
      ncpus := NCpus(cpuCount);
    }

    /** `tiffs_to_cnmf(haussio_data, mask, force)`. */
    method TiffsToCnmf(data: Dataset, mask: Option<seq<bool>>, force: bool) returns (r: Result<()>)
      requires Valid()
      modifies this
      ensures Valid()
      ensures var c := Convert(old(disk), lib, data, mask, force);
              disk == c.disk && log == old(log) + c.events && r == c.out
    {
      if Rebuilds(disk, data.base, force) {
        var stack := FrameStack(disk, lib, data, mask);
        if stack.Err? {
          return Err(stack.error);
        }
        var y := FramesLast(stack.value);
        var yr := Flatten(y);
        disk := disk[YPath(data.base) := CubeFile(y)];
        log := log + [Save(YPath(data.base))];
        disk := disk[YrPath(data.base) := MatrixFile(yr)];
        log := log + [Save(YrPath(data.base))];
      }
      r := Ok(());
    }

    /** `process_data(haussio_data, mask, p, nrois_init)`. */
    method ProcessData(data: Dataset, mask: Option<seq<bool>>, p: nat, nroisInit: nat) returns (r: Result<Outputs>)
      requires Valid()
      modifies this
      ensures Valid()
      ensures var f := Process(old(disk), lib, ncpus, data, mask, Direct, p, nroisInit);
              disk == f.disk && log == old(log) + f.events &&
              (f.out.Err? ==> r == Err(f.out.error)) &&
              (f.out.Ok? ==> Delivers(f.out.value, lib.trace, r))
    {
      r := Orchestrate(data, mask, Direct, p, nroisInit);
    }

    /** `process_data_patches(haussio_data, mask, p, nrois_init)`. */
    method ProcessDataPatches(data: Dataset, mask: Option<seq<bool>>, p: nat, nroisInit: nat) returns (r: Result<Outputs>)
      requires Valid()
      modifies this
      ensures Valid()
      ensures var f := Process(old(disk), lib, ncpus, data, mask, Patched, p, nroisInit);
              disk == f.disk && log == old(log) + f.events &&
              (f.out.Err? ==> r == Err(f.out.error)) &&
              (f.out.Ok? ==> Delivers(f.out.value, lib.trace, r))
    {
      r := Orchestrate(data, mask, Patched, p, nroisInit);
    }

    /** The body the two orchestrators share; they differ only in the fitting run. */
    method Orchestrate(data: Dataset, mask: Option<seq<bool>>, variant: Variant, p: nat, nroisInit: nat)
      returns (r: Result<Outputs>)
      requires Valid()
      modifies this
      ensures Valid()
      ensures var f := Process(old(disk), lib, ncpus, data, mask, variant, p, nroisInit);
              disk == f.disk && log == old(log) + f.events &&
              (f.out.Err? ==> r == Err(f.out.error)) &&
              (f.out.Ok? ==> Delivers(f.out.value, lib.trace, r))
    {
      var fitted := Prepare(data, mask, variant, p, nroisInit);
      if fitted.Err? {
        return Err(fitted.error);
      }
      var v := fitted.value;
      var polygons, orders, maps := ContourAll(v.bundle.a, v.y.n0, v.y.n1, 0.9, lib.trace);
      if polygons.Err? {
        return Err(polygons.error);
      }
      r := Ok(Outputs(polygons.value, v.bundle.c, v.zproj, v.bundle.s, v.y, v.bundle.yra));
    }

    /** Everything before the outlines: the cache, the checkpoint, the projection, order_components and stop_server. */
    method Prepare(data: Dataset, mask: Option<seq<bool>>, variant: Variant, p: nat, nroisInit: nat)
      returns (r: Result<Fitted>)
      requires Valid()
      modifies this
      ensures Valid()
      ensures var f := Process(old(disk), lib, ncpus, data, mask, variant, p, nroisInit);
              disk == f.disk && log == old(log) + f.events && r == f.out
    {
      ghost var d0, l0 := disk, log;
      var converted := TiffsToCnmf(data, mask, false);
      ghost var c := Convert(d0, lib, data, mask, false);
      if converted.Err? {
        return Err(converted.error);
      }
      var y := disk[YPath(data.base)].cube;
      var bundle := LoadOrFit(data.base, y, variant, p, nroisInit);
      ghost var k := Checkpoint(c.disk, lib, ncpus, data.base, y, variant, p, nroisInit);
      ProcessAfterConvert(d0, lib, ncpus, data, mask, variant, p, nroisInit);
      if bundle.Err? {
        LogAssoc3(l0, c.events, k.events);
        return Err(bundle.error);
      }
      var b := bundle.value;
      ghost var pr := Project(k.disk, lib, data.base, y);
      var zproj := ProjectAndOrder(data.base, y, b);
      LogAssoc(l0, c.events, k.events, pr.events, [OrderComponents, StopServer]);
      r := Ok(Fitted(y, b, zproj));
    }

    /** The tail of both orchestrators: the projection, then order_components and stop_server. */
    method ProjectAndOrder(base: string, y: Cube, b: Bundle) returns (z: Matrix)
      requires Valid()
      modifies this
      ensures Valid()
      ensures var pr := Project(old(disk), lib, base, y);
              disk == pr.disk && log == old(log) + pr.events + [OrderComponents, StopServer] && z == pr.out.value
    {
      z := LoadOrProject(base, y);
      log := log + [OrderComponents];
      var ordered := lib.orderComponents(b.a, b.c);
      log := log + [StopServer];
    }

    /** The bundle checkpoint. */
    method LoadOrFit(base: string, y: Cube, variant: Variant, p: nat, nroisInit: nat) returns (r: Result<Bundle>)
      requires Valid()
      modifies this
      ensures Valid()
      ensures var k := Checkpoint(old(disk), lib, ncpus, base, y, variant, p, nroisInit);
              disk == k.disk && log == old(log) + k.events && r == k.out
    {
      if CnmfPath(base) in disk {
        return Ok(disk[CnmfPath(base)].bundle);
      }
      log := log + [StopServer];
      if YrPath(base) !in disk {
        return Err(MissingFile);
      }
      ghost var run := FitRun(variant, lib, ncpus, y, disk[YrPath(base)].matrix, p, nroisInit);
      r := FitAndSave(base, y, variant, p, nroisInit);
      CheckpointAfterFit(old(disk), lib, ncpus, base, y, variant, p, nroisInit);
      LogAfterFit(old(log), [StopServer], run.events, if r.Ok? then [Save(CnmfPath(base))] else []);
    }

    /** The fitting branch of the checkpoint: the run, then `savemat` of its bundle if it succeeded. */
    method FitAndSave(base: string, y: Cube, variant: Variant, p: nat, nroisInit: nat) returns (r: Result<Bundle>)
      requires Valid() && YrPath(base) in disk
      modifies this
      ensures Valid()
      ensures var run := FitRun(variant, lib, ncpus, y, old(disk)[YrPath(base)].matrix, p, nroisInit);
              r == run.outcome &&
              log == old(log) + run.events + (if r.Ok? then [Save(CnmfPath(base))] else []) &&
              disk == (if r.Ok? then old(disk)[CnmfPath(base) := BundleFile(r.value)] else old(disk))
    {
      var yr := disk[YrPath(base)].matrix;
      r := Fit(variant, y, yr, p, nroisInit);
      if r.Ok? {
        disk := disk[CnmfPath(base) := BundleFile(r.value)];
        log := log + [Save(CnmfPath(base))];
      }
    }

    /** The fitting run of the variant. */
    method Fit(variant: Variant, y: Cube, yr: Matrix, p: nat, nroisInit: nat) returns (r: Result<Bundle>)
      modifies this
      ensures var run := FitRun(variant, lib, ncpus, y, yr, p, nroisInit);
              disk == old(disk) && log == old(log) + run.events && r == run.outcome
    {
      match variant {
        case Direct => r := FitDirect(y, yr, p, nroisInit);
        case Patched => r := FitPatches(y, yr, p, nroisInit);
      }
    }

    /** `process_data` from `start_server` to the second temporal update. */
    method FitDirect(y: Cube, yr: Matrix, p: nat, nroisInit: nat) returns (r: Result<Bundle>)
      modifies this
      ensures var run := DirectFit(lib, ncpus, y, yr, p, nroisInit);
              disk == old(disk) && log == old(log) + run.events && r == run.outcome
    {
      var npp := PixelsPerProcess(y.n0, y.n1, ncpus);
      if npp.Err? {
        return Err(npp.error);
      }
      var s := Options(ncpus, nroisInit, p, 2, npp.value);
      ghost var l0 := log;
      log := log + [StartServer(ncpus)];
      log := log + [Preprocess(s)];
      var pre := lib.preprocess(yr, s);
      log := log + [InitComponents(s)];
      var init := lib.initialize(y, s);
      log := log + [UpdateSpatial(s)];
      var sp := lib.updateSpatial(pre.yr, init.c, init.f, init.a, pre.sn, s);
      log := log + [UpdateTemporal(s)];
      var tp := lib.updateTemporal(pre.yr, sp.a, sp.b, sp.c, init.f, s);
      log := log + [MergeComponents(s, 0.7, Bounded(100), Some(true))];
      var m := lib.merge(MergeInput(pre.yr, sp.a, sp.b, tp.c, tp.f, tp.s, pre.sn,
                                    Some(tp.bl), Some(tp.c1), Some(tp.sn), Some(tp.g)),
                         s, 0.7, Bounded(100), Some(true));
      var b := Update(pre.yr, m, tp.f, pre.sn, s);
      DirectLog(l0, ncpus, s);
      r := Ok(b);
    }

    /** `process_data_patches` from `start_server` to the second temporal update. */
    method FitPatches(y: Cube, yr: Matrix, p: nat, nroisInit: nat) returns (r: Result<Bundle>)
      modifies this
      ensures var run := PatchedFit(lib, ncpus, y, yr, p, nroisInit);
              disk == old(disk) && log == old(log) + run.events && r == run.outcome
    {
      var npp := PixelsPerProcess(y.n0, y.n1, ncpus);
      if npp.Err? {
        return Err(npp.error);
      }
      var s1 := Options(ncpus, PatchComponents(nroisInit, ncpus).value, p, 1, npp.value);
      ghost var l0 := log;
      log := log + [StartServer(ncpus)];
      log := log + [RunPatches(s1, 16, 2, ncpus, 4.0)];
      var pt := lib.runPatches(yr, y.n0, y.n1, y.n2, s1);
      var pix := PixProc(y.n0, y.n1, y.n2, ncpus);
      if pix.Err? {
        return Err(pix.error);
      }
      var s := Options(ncpus, pt.a.cols, p, 1, npp.value).(spatialPixels := pix.value, temporalPixels := pix.value);
      log := log + [MergeComponents(s, lib.mergeThr, Unbounded, None)];
      var m := lib.merge(MergeInput(yr, pt.a, EmptyMatrix, pt.c, EmptyMatrix, pt.c, EmptyMatrix,
                                    None, None, None, None),
                         s, lib.mergeThr, Unbounded, None);
      var b := Update(yr, m, pt.f, pt.sn, s);
      PatchedLog(l0, [StartServer(ncpus), RunPatches(s1, 16, 2, ncpus, 4.0)], s, lib.mergeThr);
      r := Ok(b);
    }

    /** The spatial then temporal update of the merged components. */
    method Update(yr: Matrix, m: Merged, f: Matrix, sn: Matrix, s: Settings) returns (b: Bundle)
      modifies this
      ensures disk == old(disk) && log == old(log) + [UpdateSpatial(s), UpdateTemporal(s)]
      ensures b == Refine(lib, yr, m, f, sn, s)
    {
      log := log + [UpdateSpatial(s)];
      var sp2 := lib.updateSpatial(yr, m.c, f, m.a, sn, s);
      log := log + [UpdateTemporal(s)];
      var tp2 := lib.updateTemporal(yr, sp2.a, sp2.b, sp2.c, f, s);
      b := Bundle(sp2.a, tp2.c, tp2.yra, tp2.s, tp2.bl);
    }

    /** The projection checkpoint. */
    method LoadOrProject(base: string, y: Cube) returns (z: Matrix)
      requires Valid()
      modifies this
      ensures Valid()
      ensures var pr := Project(old(disk), lib, base, y);
              disk == pr.disk && log == old(log) + pr.events && z == pr.out.value
    {
      if ProjPath(base) in disk {
        return disk[ProjPath(base)].matrix;
      }
      z := lib.zproject(FramesFirst(y));
      disk := disk[ProjPath(base) := MatrixFile(z)];
      log := log + [Save(ProjPath(base))];
    }
  }
}
