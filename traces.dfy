/**
 * What a whole run of either orchestrator emits and leaves on disk, stated
 * over `Process` for every starting disk.
 */
module Traces {
  import opened Common
  import opened Layout
  import opened Store
  import opened Stages
  import opened Cache
  import opened Pipeline

  /** The kinds of a whole successful run's log, piece by piece. */
  lemma KindsOfRun(cs: seq<Event>, ks: seq<Event>, ps: seq<Event>)
    ensures Kinds(cs + ks + ps + [OrderComponents, StopServer]) ==
            Kinds(cs) + Kinds(ks) + Kinds(ps) + [KOrder, KStop]
  {
    KindsAppend(cs, ks);
    KindsAppend(cs + ks, ps);
    KindsAppend(cs + ks + ps, [OrderComponents, StopServer]);
  }

  /**
   * A log made of writes, a disciplined middle part, more writes, and then
   * order_components and stop_server is disciplined and ends with the
   * backend stopped.
   */
  lemma RunDiscipline(up: bool, cs: seq<Stage>, ks: seq<Stage>, ps: seq<Stage>)
    requires forall i :: 0 <= i < |cs| ==> cs[i].KSave?
    requires forall i :: 0 <= i < |ps| ==> ps[i].KSave?
    requires Disciplined(up, ks)
    ensures Disciplined(up, cs + ks + ps + [KOrder, KStop]) && !After(up, cs + ks + ps + [KOrder, KStop])
  {
    SavesOnly(up, cs);
    DisciplineAppend(up, cs, ks);
    var mid := After(up, ks);
    SavesOnly(mid, ps);
    DisciplineAppend(up, cs + ks, ps);
    DisciplineAppend(up, cs + ks + ps, [KOrder, KStop]);
    assert [KOrder, KStop][1..] == [KStop];
  }

  /** The writes of the cache conversion inside a run (no `force`): both arrays, or nothing when `_Y.npy` exists. */
  function CacheStages(disk: Disk, base: string): seq<Stage>
  {
    if YPath(base) in disk then [] else [KSave(YPath(base)), KSave(YrPath(base))]
  }

  /** The checkpoint's stages: nothing when the bundle exists, else stop, the fitting run and `savemat`. */
  function CheckpointStages(disk: Disk, base: string, variant: Variant): seq<Stage>
  {
    if CnmfPath(base) in disk then [] else [KStop] + StagesOf(variant) + [KSave(CnmfPath(base))]
  }

  /** The projection's stages: nothing when `_proj.npy` exists, else its write. */
  function ProjectionStages(disk: Disk, base: string): seq<Stage>
  {
    if ProjPath(base) in disk then [] else [KSave(ProjPath(base))]
  }

  /** The conversion only ever touches `_Y.npy` and `_Yr.npy`. */
  lemma ConvertKeepsOthers(disk: Disk, lib: Library, data: Dataset, mask: Option<seq<bool>>, q: Path)
    requires WellKinded(disk) && q != YPath(data.base) && q != YrPath(data.base)
    ensures var d := Convert(disk, lib, data, mask, false).disk;
            (q in d <==> q in disk) && (q in disk ==> d[q] == disk[q])
  {
    ConvertOutcome(disk, lib, data, mask, false);
  }

  /** The fitting run's stage kinds: the variant's full sequence on success; on failure, nothing or only what preceded the zero division. */
  lemma FitRunStages(variant: Variant, lib: Library, ncpus: nat, y: Cube, yr: Matrix, p: nat, nroisInit: nat)
    ensures var run := FitRun(variant, lib, ncpus, y, yr, p, nroisInit);
            var ks := Kinds(run.events);
            (run.outcome.Ok? ==> ks == StagesOf(variant)) &&
            (run.outcome.Err? ==> ks == [] || ks == [KStart, KPatches])
  {
    match variant {
      case Direct => DirectFitTrace(lib, ncpus, y, yr, p, nroisInit);
      case Patched => PatchedFitTrace(lib, ncpus, y, yr, p, nroisInit);
    }
  }

  /** The checkpoint's stage kinds: nothing when the bundle exists; else stop_server, the fitting run, and `savemat` if it succeeded. */
  lemma CheckpointStagesExact(disk: Disk, lib: Library, ncpus: nat, base: string, y: Cube,
                              variant: Variant, p: nat, nroisInit: nat)
    requires WellKinded(disk)
    ensures var k := Checkpoint(disk, lib, ncpus, base, y, variant, p, nroisInit);
            var ks := Kinds(k.events);
            (CnmfPath(base) in disk ==> ks == []) &&
            (CnmfPath(base) !in disk && YrPath(base) !in disk ==> ks == [KStop]) &&
            (CnmfPath(base) !in disk && YrPath(base) in disk ==>
               var rs := Kinds(FitRun(variant, lib, ncpus, y, disk[YrPath(base)].matrix, p, nroisInit).events);
               ks == [KStop] + rs + (if k.out.Ok? then [KSave(CnmfPath(base))] else [])) &&
            (k.out.Ok? ==> ks == CheckpointStages(disk, base, variant))
  {
    if CnmfPath(base) !in disk && YrPath(base) in disk {
      var run := FitRun(variant, lib, ncpus, y, disk[YrPath(base)].matrix, p, nroisInit);
      CheckpointFitEvents(disk, lib, ncpus, base, y, variant, p, nroisInit);
      FitRunStages(variant, lib, ncpus, y, disk[YrPath(base)].matrix, p, nroisInit);
      KindsStopSave(run.events, run.outcome.Ok?, CnmfPath(base));
    }
  }

  /** The log of a checkpoint that fits: stop_server, the run's events, and `savemat` exactly when the run succeeded. */
  lemma CheckpointFitEvents(disk: Disk, lib: Library, ncpus: nat, base: string, y: Cube,
                            variant: Variant, p: nat, nroisInit: nat)
    requires WellKinded(disk) && CnmfPath(base) !in disk && YrPath(base) in disk
    ensures var k := Checkpoint(disk, lib, ncpus, base, y, variant, p, nroisInit);
            var run := FitRun(variant, lib, ncpus, y, disk[YrPath(base)].matrix, p, nroisInit);
            (k.out.Ok? <==> run.outcome.Ok?) &&
            k.events == [StopServer] + run.events + (if run.outcome.Ok? then [Save(CnmfPath(base))] else [])
  {
  }

  lemma KindsStopSave(es: seq<Event>, ok: bool, q: Path)
    ensures Kinds([StopServer] + es + (if ok then [Save(q)] else [])) ==
            [KStop] + Kinds(es) + (if ok then [KSave(q)] else [])
  {
    KindsAppend([StopServer], es);
    KindsAppend([StopServer] + es, if ok then [Save(q)] else []);
  }

  /** A successful run's log is the conversion's, the checkpoint's and the projection's, then order_components and stop_server. */
  lemma ProcessEvents(disk: Disk, lib: Library, ncpus: nat, data: Dataset, mask: Option<seq<bool>>,
                      variant: Variant, p: nat, nroisInit: nat)
    requires WellKinded(disk) && Process(disk, lib, ncpus, data, mask, variant, p, nroisInit).out.Ok?
    ensures var c := Convert(disk, lib, data, mask, false);
            c.out.Ok? &&
            var y := c.disk[YPath(data.base)].cube;
            var k := Checkpoint(c.disk, lib, ncpus, data.base, y, variant, p, nroisInit);
            k.out.Ok? &&
            var pr := Project(k.disk, lib, data.base, y);
            Process(disk, lib, ncpus, data, mask, variant, p, nroisInit).events ==
            c.events + k.events + pr.events + [OrderComponents, StopServer]
  {
  }

  /** The conversion's writes, when it succeeds. */
  lemma ConvertStages(disk: Disk, lib: Library, data: Dataset, mask: Option<seq<bool>>)
    requires WellKinded(disk) && Convert(disk, lib, data, mask, false).out.Ok?
    ensures Kinds(Convert(disk, lib, data, mask, false).events) == CacheStages(disk, data.base)
  {
    ConvertOutcome(disk, lib, data, mask, false);
  }

  /**
   * The call trace of a successful run, stage by stage: the cache writes
   * (if `_Y.npy` was missing); then, only if `_cnmf.mat` was missing,
   * stop_server, the fitting run of the variant (start_server, preprocess,
   * init, spatial, temporal, merge, spatial, temporal for `process_data`;
   * start_server, the patch run, merge, spatial, temporal for
   * `process_data_patches`) and `savemat`; then the projection write if
   * `_proj.npy` was missing; and always order_components followed by
   * stop_server.
   */
  lemma ProcessTrace(disk: Disk, lib: Library, ncpus: nat, data: Dataset, mask: Option<seq<bool>>,
                     variant: Variant, p: nat, nroisInit: nat)
    requires WellKinded(disk) && Process(disk, lib, ncpus, data, mask, variant, p, nroisInit).out.Ok?
    ensures Kinds(Process(disk, lib, ncpus, data, mask, variant, p, nroisInit).events) ==
            CacheStages(disk, data.base) + CheckpointStages(disk, data.base, variant) +
            ProjectionStages(disk, data.base) + [KOrder, KStop]
  {
    var base := data.base;
    ProcessEvents(disk, lib, ncpus, data, mask, variant, p, nroisInit);
    var c := Convert(disk, lib, data, mask, false);
    ConvertStages(disk, lib, data, mask);
    ConvertKeepsOthers(disk, lib, data, mask, CnmfPath(base));
    ConvertKeepsOthers(disk, lib, data, mask, ProjPath(base));
    var y := c.disk[YPath(base)].cube;
    var k := Checkpoint(c.disk, lib, ncpus, base, y, variant, p, nroisInit);
    CheckpointStagesExact(c.disk, lib, ncpus, base, y, variant, p, nroisInit);
    assert CheckpointStages(c.disk, base, variant) == CheckpointStages(disk, base, variant);
    var pr := Project(k.disk, lib, base, y);
    ProjectKeeps(k.disk, disk, lib, base, y);
    KindsOfRun(c.events, k.events, pr.events);
  }

  /** The projection writes `_proj.npy` exactly when the disk the run started from lacked it. */
  lemma ProjectKeeps(disk: Disk, start: Disk, lib: Library, base: string, y: Cube)
    requires WellKinded(disk) && (ProjPath(base) in disk <==> ProjPath(base) in start)
    ensures Kinds(Project(disk, lib, base, y).events) == ProjectionStages(start, base)
  {
  }

  /**
   * Skip-on-bundle: when `_cnmf.mat` exists no backend stage, no
   * start_server and no `savemat` occurs, and the bundle the run returns is
   * the one on disk.
   */
  lemma BundleSkipsFit(disk: Disk, lib: Library, ncpus: nat, data: Dataset, mask: Option<seq<bool>>,
                       variant: Variant, p: nat, nroisInit: nat)
    requires WellKinded(disk) && CnmfPath(data.base) in disk
    ensures var f := Process(disk, lib, ncpus, data, mask, variant, p, nroisInit);
            (forall i :: 0 <= i < |f.events| ==>
               !NeedsServer(Kind(f.events[i])) && !f.events[i].StartServer? &&
               f.events[i] != Save(CnmfPath(data.base))) &&
            (f.out.Ok? ==> f.out.value.bundle == disk[CnmfPath(data.base)].bundle)
  {
    var c := Convert(disk, lib, data, mask, false);
    ConvertOutcome(disk, lib, data, mask, false);
    ConvertKeepsOthers(disk, lib, data, mask, CnmfPath(data.base));
    if c.out.Ok? {
      ProcessAfterConvert(disk, lib, ncpus, data, mask, variant, p, nroisInit);
      var y := c.disk[YPath(data.base)].cube;
      var pr := Project(c.disk, lib, data.base, y);
      assert Checkpoint(c.disk, lib, ncpus, data.base, y, variant, p, nroisInit) ==
             Step(c.disk, [], Ok(disk[CnmfPath(data.base)].bundle));
      assert c.events + [] == c.events;
      QuietRun(c.events, pr.events, CnmfPath(data.base));
    }
  }

  /** A log of writes to other files, order_components and stop_server calls no backend stage and never starts it. */
  lemma QuietRun(cs: seq<Event>, ps: seq<Event>, q: Path)
    requires forall i :: 0 <= i < |cs| ==> cs[i].Save? && cs[i].path != q
    requires forall i :: 0 <= i < |ps| ==> ps[i].Save? && ps[i].path != q
    ensures var es := cs + ps + [OrderComponents, StopServer];
            forall i :: 0 <= i < |es| ==> !NeedsServer(Kind(es[i])) && !es[i].StartServer? && es[i] != Save(q)
  {
    var es := cs + ps + [OrderComponents, StopServer];
    forall i | 0 <= i < |es| ensures !NeedsServer(Kind(es[i])) && !es[i].StartServer? && es[i] != Save(q) {
      if i < |cs| {
        assert es[i] == cs[i];
      } else if i < |cs| + |ps| {
        assert es[i] == ps[i - |cs|];
      }
    }
  }

  lemma ProcessDisk(disk: Disk, lib: Library, ncpus: nat, data: Dataset, mask: Option<seq<bool>>,
                    variant: Variant, p: nat, nroisInit: nat)
    requires WellKinded(disk) && Process(disk, lib, ncpus, data, mask, variant, p, nroisInit).out.Ok?
    ensures var f := Process(disk, lib, ncpus, data, mask, variant, p, nroisInit);
            var v := f.out.value;
            CnmfPath(data.base) in f.disk && f.disk[CnmfPath(data.base)] == BundleFile(v.bundle) &&
            ProjPath(data.base) in f.disk && f.disk[ProjPath(data.base)] == MatrixFile(v.zproj) &&
            (ProjPath(data.base) !in disk ==> v.zproj == lib.zproject(FramesFirst(v.y))) &&
            YPath(data.base) in f.disk && f.disk[YPath(data.base)] == CubeFile(v.y)
  {
    var c := Convert(disk, lib, data, mask, false);
    ProcessEvents(disk, lib, ncpus, data, mask, variant, p, nroisInit);
    ProcessAfterConvert(disk, lib, ncpus, data, mask, variant, p, nroisInit);
    ConvertOutcome(disk, lib, data, mask, false);
    ConvertKeepsOthers(disk, lib, data, mask, ProjPath(data.base));
    var y := c.disk[YPath(data.base)].cube;
    var k := Checkpoint(c.disk, lib, ncpus, data.base, y, variant, p, nroisInit);
    CheckpointStores(c.disk, lib, ncpus, data.base, y, variant, p, nroisInit);
    ProjectStores(k.disk, lib, data.base, y);
  }

  /** A successful checkpoint leaves the bundle it returns in `_cnmf.mat` and touches no other file. */
  lemma CheckpointStores(disk: Disk, lib: Library, ncpus: nat, base: string, y: Cube,
                         variant: Variant, p: nat, nroisInit: nat)
    requires WellKinded(disk) && Checkpoint(disk, lib, ncpus, base, y, variant, p, nroisInit).out.Ok?
    ensures var k := Checkpoint(disk, lib, ncpus, base, y, variant, p, nroisInit);
            CnmfPath(base) in k.disk && k.disk[CnmfPath(base)] == BundleFile(k.out.value) &&
            (forall q :: q != CnmfPath(base) ==> (q in k.disk <==> q in disk) && (q in disk ==> k.disk[q] == disk[q]))
  {
  }

  /** The projection leaves the matrix it returns in `_proj.npy`, a new one projected from the frames-first stack, and touches no other file. */
  lemma ProjectStores(disk: Disk, lib: Library, base: string, y: Cube)
    requires WellKinded(disk)
    ensures var pr := Project(disk, lib, base, y);
            ProjPath(base) in pr.disk && pr.disk[ProjPath(base)] == MatrixFile(pr.out.value) &&
            (ProjPath(base) !in disk ==> pr.out.value == lib.zproject(FramesFirst(y))) &&
            (forall q :: q != ProjPath(base) ==> (q in pr.disk <==> q in disk) && (q in disk ==> pr.disk[q] == disk[q]))
  {
  }

  /**
   * When a run fails: the conversion's failures; after them, a missing
   * `_Yr.npy` when the bundle must be computed, and the zero divisions of
   * the budget arithmetic (no worker, or a patched run over no frames). A
   * run that finds the bundle fails only in the conversion.
   */
  lemma ProcessFailure(disk: Disk, lib: Library, ncpus: nat, data: Dataset, mask: Option<seq<bool>>,
                       variant: Variant, p: nat, nroisInit: nat)
    requires WellKinded(disk)
    ensures var f := Process(disk, lib, ncpus, data, mask, variant, p, nroisInit);
            var c := Convert(disk, lib, data, mask, false);
            (c.out.Err? ==> f.out == Err(c.out.error)) &&
            (c.out.Ok? && CnmfPath(data.base) in disk ==> f.out.Ok?) &&
            (c.out.Ok? && CnmfPath(data.base) !in disk ==>
               var y := c.disk[YPath(data.base)].cube;
               (YrPath(data.base) !in c.disk ==> f.out == Err(MissingFile)) &&
               (YrPath(data.base) in c.disk ==>
                  (f.out.Err? <==> ncpus == 0 || (variant.Patched? && y.n2 == 0)) &&
                  (f.out.Err? ==> f.out.error == ZeroDivision)))
  {
    var c := Convert(disk, lib, data, mask, false);
    ConvertKeepsOthers(disk, lib, data, mask, CnmfPath(data.base));
    if c.out.Ok? && CnmfPath(data.base) !in disk && YrPath(data.base) in c.disk {
      var y := c.disk[YPath(data.base)].cube;
      var yr := c.disk[YrPath(data.base)].matrix;
      DirectFitTrace(lib, ncpus, y, yr, p, nroisInit);
      PatchedFitTrace(lib, ncpus, y, yr, p, nroisInit);
    }
  }

  /**
   * Each stage sequence a fitting run can emit opens with start_server and
   * then neither starts nor stops the backend, so it is disciplined exactly
   * when the backend was down. A complete one leaves the backend running.
   */
  lemma FitStagesDisciplined(variant: Variant, up: bool)
    ensures (Disciplined(up, StagesOf(variant)) <==> !up) && After(up, StagesOf(variant))
    ensures Disciplined(up, [KStart, KPatches]) <==> !up
  {
    match variant {
      case Direct => DirectStagesDisciplined(up);
      case Patched => PatchedStagesDisciplined(up);
    }
    assert [KStart, KPatches] == [KStart] + [KPatches];
    StartThenSteady(up, [KPatches]);
  }

  lemma DirectStagesDisciplined(up: bool)
    ensures (Disciplined(up, DirectStages) <==> !up) && After(up, DirectStages)
  {
    var work := [KPreprocess, KInit, KSpatial, KTemporal, KMerge, KSpatial, KTemporal];
    assert DirectStages == [KStart] + work;
    StartThenSteady(up, work);
  }

  lemma PatchedStagesDisciplined(up: bool)
    ensures (Disciplined(up, PatchedStages) <==> !up) && After(up, PatchedStages)
  {
    var work := [KPatches, KMerge, KSpatial, KTemporal];
    assert PatchedStages == [KStart] + work;
    StartThenSteady(up, work);
  }

  /**
   * When the checkpoint computes the bundle, `savemat` runs after the last
   * temporal update and before any stop_server: the backend is still up
   * while the bundle is written, whatever its state before the run.
   */
  lemma BundleSavedWhileRunning(up: bool, variant: Variant)
    ensures After(up, [KStop] + StagesOf(variant))
  {
    FitStagesDisciplined(variant, false);
    DisciplineAppend(up, [KStop], StagesOf(variant));
  }

  /**
   * The checkpoint is disciplined from any backend state. When it computes
   * the bundle it begins with stop_server and leaves the backend running
   * after a successful fit; when it loads the bundle it leaves the state as
   * it was.
   */
  lemma CheckpointDiscipline(disk: Disk, lib: Library, ncpus: nat, base: string, y: Cube,
                             variant: Variant, p: nat, nroisInit: nat, up: bool)
    requires WellKinded(disk)
    ensures var k := Checkpoint(disk, lib, ncpus, base, y, variant, p, nroisInit);
            Disciplined(up, Kinds(k.events)) &&
            (CnmfPath(base) in disk ==> After(up, Kinds(k.events)) == up)
  {
    var k := Checkpoint(disk, lib, ncpus, base, y, variant, p, nroisInit);
    CheckpointStagesExact(disk, lib, ncpus, base, y, variant, p, nroisInit);
    if CnmfPath(base) !in disk && YrPath(base) !in disk {
      StopThen(up, []);
      assert [KStop] + [] == [KStop];
    } else if CnmfPath(base) !in disk {
      var yr := disk[YrPath(base)].matrix;
      var rs := Kinds(FitRun(variant, lib, ncpus, y, yr, p, nroisInit).events);
      FitRunStages(variant, lib, ncpus, y, yr, p, nroisInit);
      FitStagesDisciplined(variant, false);
      assert Disciplined(false, rs);
      StopThen(up, rs);
      if k.out.Ok? {
        ThenSave(up, [KStop] + rs, CnmfPath(base));
      } else {
        assert [KStop] + rs + [] == [KStop] + rs;
      }
    }
  }

  /** The stages of a checkpoint that computes the bundle are disciplined from any backend state. */
  lemma ComputedCheckpointDisciplined(up: bool, disk: Disk, base: string, variant: Variant)
    ensures Disciplined(up, CheckpointStages(disk, base, variant))
  {
    if CnmfPath(base) !in disk {
      FitStagesDisciplined(variant, false);
      StopThen(up, StagesOf(variant));
      ThenSave(up, [KStop] + StagesOf(variant), CnmfPath(base));
    }
  }

  /** A failed run's log is disciplined too: it ends inside the conversion or the checkpoint. */
  lemma FailedRunDisciplined(disk: Disk, lib: Library, ncpus: nat, data: Dataset, mask: Option<seq<bool>>,
                             variant: Variant, p: nat, nroisInit: nat, up: bool)
    requires WellKinded(disk) && Process(disk, lib, ncpus, data, mask, variant, p, nroisInit).out.Err?
    ensures Disciplined(up, Kinds(Process(disk, lib, ncpus, data, mask, variant, p, nroisInit).events))
  {
    var base := data.base;
    var c := Convert(disk, lib, data, mask, false);
    ConvertOutcome(disk, lib, data, mask, false);
    if c.out.Ok? {
      var cs := Kinds(c.events);
      SavesOnly(up, cs);
      var y := c.disk[YPath(base)].cube;
      var k := Checkpoint(c.disk, lib, ncpus, base, y, variant, p, nroisInit);
      CheckpointDiscipline(c.disk, lib, ncpus, base, y, variant, p, nroisInit, up);
      KindsAppend(c.events, k.events);
      DisciplineAppend(up, cs, Kinds(k.events));
    }
  }

  /** A successful run's log is disciplined and ends with the backend stopped. */
  lemma SuccessfulRunDisciplined(disk: Disk, lib: Library, ncpus: nat, data: Dataset, mask: Option<seq<bool>>,
                                 variant: Variant, p: nat, nroisInit: nat, up: bool)
    requires WellKinded(disk) && Process(disk, lib, ncpus, data, mask, variant, p, nroisInit).out.Ok?
    ensures var ks := Kinds(Process(disk, lib, ncpus, data, mask, variant, p, nroisInit).events);
            Disciplined(up, ks) && !After(up, ks)
  {
    ProcessTrace(disk, lib, ncpus, data, mask, variant, p, nroisInit);
    StagesDiscipline(up, disk, data.base, variant);
  }

  /** The stage sequence `ProcessTrace` describes is disciplined and ends with the backend stopped. */
  lemma StagesDiscipline(up: bool, disk: Disk, base: string, variant: Variant)
    ensures var ks := CacheStages(disk, base) + CheckpointStages(disk, base, variant) +
                      ProjectionStages(disk, base) + [KOrder, KStop];
            Disciplined(up, ks) && !After(up, ks)
  {
    ComputedCheckpointDisciplined(up, disk, base, variant);
    RunDiscipline(up, CacheStages(disk, base), CheckpointStages(disk, base, variant), ProjectionStages(disk, base));
  }

  /**
   * Server discipline: whatever the backend's state when a run begins,
   * every backend stage of the run executes between a start_server and the
   * next stop_server, every start_server comes while the backend is down,
   * and a successful run leaves the backend stopped.
   */
  lemma ServerDiscipline(disk: Disk, lib: Library, ncpus: nat, data: Dataset, mask: Option<seq<bool>>,
                         variant: Variant, p: nat, nroisInit: nat, up: bool)
    requires WellKinded(disk)
    ensures var ks := Kinds(Process(disk, lib, ncpus, data, mask, variant, p, nroisInit).events);
            Disciplined(up, ks) &&
            (Process(disk, lib, ncpus, data, mask, variant, p, nroisInit).out.Ok? ==> !After(up, ks))
  {
    if Process(disk, lib, ncpus, data, mask, variant, p, nroisInit).out.Ok? {
      SuccessfulRunDisciplined(disk, lib, ncpus, data, mask, variant, p, nroisInit, up);
    } else {
      FailedRunDisciplined(disk, lib, ncpus, data, mask, variant, p, nroisInit, up);
    }
  }
}
