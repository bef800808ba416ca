# CNMF pipeline around sima datasets — a Dafny model

This project models the orchestration layer `haussmeister/cnmf.py`, which
extracts regions of interest (ROIs) from a two-photon calcium-imaging
recording with constrained non-negative matrix factorisation (CNMF). The
layer does four things, and the model covers each:

* **The frame cache.** `tiffs_to_cnmf` selects the frames a boolean mask
  leaves in. It reads them from per-frame TIFF files or from the raw
  recording, then stores them twice:
  * frames-last as `_Y.npy`;
  * flattened column-major to a pixels x time matrix as `_Yr.npy`.

  Only a missing `_Y.npy` (or `force`) triggers the conversion.
* **The two orchestrators.** `process_data` runs the monolithic fit.
  `process_data_patches` runs the fit over patches and then merges. Both
  share these steps:
  * a bundle checkpoint: load `_cnmf.mat` if it exists, otherwise fit and
    `savemat`;
  * a projection cache in `_proj.npy`;
  * `order_components`, then `stop_server`;
  * contour extraction on the unordered spatial components at threshold
    0.9.
* **The budget arithmetic.** The code is Python 2, so `/` between
  integers floors. This covers:
  * `NCPUS`;
  * pixels per process;
  * components per patch;
  * the `pix_proc` memory budget;
  * the zero divisions that occur when there is no worker or no frame.
* **`contour`.** For each component, the pixels are ranked by descending
  weight. Cumulative squared weight, normalised by the total, gives each
  pixel's *inclusion depth*. The depth map is reshaped column-major to the
  frame, and the iso-line at `thr` is traced. If nothing is traced, the
  fixed placeholder triangle is used.

The model has these shapes:

* **Library calls as parameters.** Numerical routines, the TIFF decoder,
  the projection and the iso-line tracer are functions stored in a
  `Library` value.
* **Files as a map.** The file system is a map from path to content.
* **Sessions as objects.** A session is a `class` with two fields, the disk
  and a log of every library call and file write, which its methods update
  step by step.
* **Specification functions.** `Cache.Convert`, `Pipeline.Checkpoint`,
  `Pipeline.Project` and `Pipeline.Process` state what a call does as a
  function of the starting disk. Each method of the class is proved to
  follow them.
* **Arrays and loops for the depth map.** The depth-map computation works
  on arrays with `argsort`, `cumsum`, in-place division and scatter. It is
  proved against the predicate `Depth.IsDepthMap`.

Modules, in dependency order:
* `Common`: Option, Result and the errors;
* `Arith`;
* `Layout`: cubes, matrices, transposes, column-major flattening;
* `Masking`;
* `Budget`;
* `Depth`;
* `Contour`;
* `Store`: paths, artifacts, disk;
* `Stages`: events, the backend discipline, library calls, the two fitting
  runs;
* `Cache`;
* `Pipeline`: the checkpoint, the whole run and the `Session` class;
* `Traces`: properties of whole runs.

Two behaviours of the source worth noting:

* **Mask padding.** A mask shorter than the file list is padded with
  `np.ones(...)`. Since `True` means excluded, the frames past the mask's
  end are dropped. The padding is not "keep" values.
* **Backend during bundle I/O.** The backend is not stopped before
  `savemat`, the projection or `order_components`. The bundle is written
  while the backend is running (`Traces.BundleSavedWhileRunning`), and the
  final `stop_server` comes only after `order_components`.

## Model

| member | source | states |
|---|---|---|
| Budget.NCpus | haussmeister/cnmf.py:42 | NCPUS is the floor of half the CPU count, and is 0 exactly on a machine with fewer than two CPUs |
| Budget.PixelsPerProcess | haussmeister/cnmf.py:104 | `d1*d2/NCPUS` raises ZeroDivision exactly when NCPUS is 0 |
| Budget.PixelsPerProcessFloor | haussmeister/cnmf.py:104 | with at least one worker the budget q is the floor quotient: q*NCPUS <= d1*d2 < (q+1)*NCPUS |
| Budget.PatchComponents | haussmeister/cnmf.py:251 | `int(nrois_init/NCPUS/2.0)` raises ZeroDivision exactly when NCPUS is 0 |
| Budget.PatchComponentsShare | haussmeister/cnmf.py:251 | with at least one worker, the per-patch component count is nrois_init / (2*NCPUS), floored once |
| Budget.NestedFloor | haussmeister/cnmf.py:251 | two successive floor divisions equal one floor division by the product |
| Budget.PixProc | haussmeister/cnmf.py:279-281 | pix_proc raises ZeroDivision exactly when NCPUS or T is 0 |
| Budget.PixProcBounds | haussmeister/cnmf.py:279-281 | otherwise pix_proc never exceeds d1*d2/NCPUS, and pix_proc * T never exceeds 2000 * d1*d2/NCPUS |
| Budget.PixProcShortRecording | haussmeister/cnmf.py:279-281 | for 0 < T <= 2000 the minimum is the plain per-process budget d1*d2/NCPUS |
| Budget.PixProcLongRecording | haussmeister/cnmf.py:279-281 | for T > 2000 pix_proc is (d1*d2/NCPUS)*2000/T, floored, in exact arithmetic |
| Masking.PadMask | haussmeister/cnmf.py:56-62 | `mask_full` keeps the mask as its prefix, reaches the file count, and every padded entry is True (excluded) |
| Masking.PositionsExact | haussmeister/cnmf.py:63-64 | the unmasked positions are listed once each in increasing order, are exactly the False entries, and there are as many as False entries |
| Masking.KeepSelects | haussmeister/cnmf.py:63-64 | the kept list is the order-preserving subsequence of the items at the unmasked positions of the zipped prefix |
| Masking.PaddedKeep | haussmeister/cnmf.py:56-64 | filtering against the padded mask equals filtering the common prefix of files and mask: a surplus of either side is ignored |
| Masking.KeepPrefix | haussmeister/cnmf.py:63 | the comprehension over `zip` reads only the common prefix |
| Masking.TailFramesDropped | haussmeister/cnmf.py:56-60 | no frame at or beyond the end of a short mask is kept |
| Masking.KeptCount | haussmeister/cnmf.py:63-64 | the number of files read is the number of False entries in the zipped part of the mask |
| Layout.FramesLast | haussmeister/cnmf.py:72 | `np.transpose(tiff_data, (1, 2, 0))` moves the frame axis last: Y[r][c][t] is pixel (r, c) of frame t |
| Layout.FramesFirst | haussmeister/cnmf.py:207 | `np.transpose(Y, (2, 0, 1))` moves the frame axis first again |
| Layout.FramesFirstLast | haussmeister/cnmf.py:72 | FramesFirst undoes FramesLast, so the projection sees the frames as read |
| Layout.Flatten | haussmeister/cnmf.py:73-74 | the F-order reshape has d1*d2 rows and T columns, and row r + c*d1 is the time course of pixel (r, c) |
| Layout.FlattenIndex | haussmeister/cnmf.py:74 | Yr[r + c*d1][t] == Y[r][c][t] for every in-range pixel and frame |
| Layout.Unflatten | haussmeister/cnmf.py:379 | the F-order reshape back to d1 x d2 places row r + c*d1 at pixel (r, c) |
| Layout.UnflattenFlatten | haussmeister/cnmf.py:74 | reshaping the flattened stack back gives the original cube |
| Layout.FlattenUnflatten | haussmeister/cnmf.py:74 | flattening a reshaped matrix gives the original matrix: the two reshapes are mutually inverse |
| Layout.FlatIndexSplit | haussmeister/cnmf.py:74 | the column-major index r + c*d1 decodes back to (r, c) |
| Layout.FlatIndexRecombine | haussmeister/cnmf.py:379 | every flat index below d1*d2 splits into an in-range (row, column) that recombines to it |
| Layout.Reshape | haussmeister/cnmf.py:379 | `np.reshape(Bvec, (d1, d2), order='F')` is a d1 x d2 grid whose cell (r, c) is entry r + c*d1 |
| Layout.ReshapeColumnIsFrame | haussmeister/cnmf.py:74 | reshaping column t of Yr gives back frame t of Y |
| Depth.ArgSortDescending | haussmeister/cnmf.py:374 | `np.argsort(A[:, i])[::-1]` is a permutation of the pixel indices along which the weights never increase |
| Depth.CumulativeEnergy | haussmeister/cnmf.py:375 | entry j of `cumEn` is the sum of the squared weights of the first j+1 ranked pixels |
| Depth.DivideInPlace | haussmeister/cnmf.py:376 | `cumEn /= cumEn[-1]` divides every entry by the total read before the loop |
| Depth.ScatterBack | haussmeister/cnmf.py:377-378 | `Bvec[indx] = cumEn` gives pixel indx[k] the value cumEn[k] |
| Depth.InclusionDepth | haussmeister/cnmf.py:374-378 | the computed map is a depth map of the column: a descending ranking, and each pixel's normalised cumulative energy, or undefined when the energy is zero |
| Depth.DepthUndefinedIffZero | haussmeister/cnmf.py:376 | the depth map is undefined (0/0) exactly when every weight of the column is zero |
| Depth.DepthInUnitInterval | haussmeister/cnmf.py:375-378 | every depth lies in [0, 1], and the lightest-ranked pixel has depth 1 |
| Depth.DepthAlongOrder | haussmeister/cnmf.py:374-378 | depths never decrease along the ranking |
| Depth.DepthMonotoneInWeight | haussmeister/cnmf.py:374-378 | a strictly heavier pixel never has a greater depth than a lighter one |
| Depth.EnergyMonotone | haussmeister/cnmf.py:375 | cumulative energy is non-negative and grows with the prefix |
| Depth.EnergyZero | haussmeister/cnmf.py:375 | a prefix has zero energy exactly when all its weights are zero |
| Depth.PermutationOfIota | haussmeister/cnmf.py:374 | a sequence with the multiset of 0..d-1 is a permutation of 0..d-1 |
| Depth.RankOf | haussmeister/cnmf.py:378 | every pixel has a rank in the permutation, so the scatter reaches every pixel |
| Contour.GridOf | haussmeister/cnmf.py:376-379 | the grid handed to the tracer is NaN (d1 x d2) for an undefined map, otherwise the F-order reshape of the depths |
| Contour.ContourAll | haussmeister/cnmf.py:360-387 | `contour` fails with ContourError exactly: on no pixel rows (`cumEn[-1]`), or on a pixel count other than d1*d2 (the reshape), and never without columns; otherwise one outline per column in column order, each the first polygon traced at thr on that column's depth grid, or `[[0,0,0],[0,0,0],[0,0,0]]` |
| Contour.GridLevelsInUnitInterval | haussmeister/cnmf.py:376-381 | every level the tracer sees for a defined map lies in [0, 1] |
| Contour.ZeroComponentGrid | haussmeister/cnmf.py:376-381 | the tracer receives an all-NaN grid exactly for a component whose weights are all zero |
| Stages.DirectFitTrace | haussmeister/cnmf.py:104-196 | the direct fit fails (ZeroDivision, before any call) exactly when NCPUS is 0; otherwise it starts the backend with NCPUS workers and calls preprocess, init, spatial, temporal, merge (thr 0.7, mx 100, fast merge), spatial, temporal with K = nrois_init, subsampling 2 and d1*d2/NCPUS pixels per worker |
| Stages.PatchedFitTrace | haussmeister/cnmf.py:248-328 | the patched fit fails exactly when NCPUS is 0 (before any call) or T is 0 (after the patch run, so only start_server and the patch run are logged); otherwise its stages are start_server, the patch run, merge, spatial and temporal, in that order |
| Stages.PatchedFitStart | haussmeister/cnmf.py:248-274 | with at least one worker the patched fit first starts the backend with NCPUS workers and then runs the patches with rf 16, stride 2, memory factor 4, NCPUS workers, nrois_init/(2*NCPUS) components per patch, subsampling 1 and d1*d2/NCPUS pixels per worker |
| Stages.MergePatchesTrace | haussmeister/cnmf.py:277-319 | after the patch run: K is the number of patch components, the merge uses the library's default threshold with no cap, and the updates get the pix_proc budget, which never exceeds the preprocessing budget |
| Stages.DisciplineAppend | haussmeister/cnmf.py:96-121 | backend discipline (backend stages only while up, start_server only while down) and the backend state compose over concatenated traces |
| Stages.SavesOnly | haussmeister/cnmf.py:75-76 | a trace of file writes neither needs nor changes the backend |
| Cache.SelectFrames | haussmeister/cnmf.py:69-70 | `raw[np.invert(mask), :, :]` keeps, in order, exactly the frames whose mask entry is False |
| Cache.FrameStack | haussmeister/cnmf.py:51-70 | the TIFF branch reads the filtered file list (failing when decoding fails); the raw branch fails without a mask or with a mask whose length differs from the frame count, and otherwise selects the frames |
| Cache.Convert | haussmeister/cnmf.py:45-76 | the conversion keeps every artifact well typed, and leaves `_Y.npy` present whenever it succeeds |
| Cache.ConvertOutcome | haussmeister/cnmf.py:45-76 | it fails exactly when it rebuilds and the frames cannot be read, writing nothing; without a rebuild it writes nothing; a rebuild saves `_Y.npy` then `_Yr.npy`, holding the frames-last stack and its F-order flattening |
| Cache.ConvertedLayout | haussmeister/cnmf.py:72-76 | after a rebuild, `_Yr.npy`[r + c*d1][t] == `_Y.npy`[r][c][t], which is pixel (r, c) of the t-th selected frame |
| Cache.ConvertTwice | haussmeister/cnmf.py:46 | a second call right after a successful one (without force) writes nothing and changes nothing |
| Cache.YrNeverConsulted | haussmeister/cnmf.py:46 | while `_Y.npy` exists, a missing or stale `_Yr.npy` does not trigger a rebuild |
| Pipeline.Checkpoint | haussmeister/cnmf.py:94-203 | the checkpoint keeps the artifacts well typed |
| Pipeline.Project | haussmeister/cnmf.py:205-210 | the projection step keeps the artifacts well typed and never fails |
| Pipeline.Process | haussmeister/cnmf.py:85-222 | a run keeps the artifacts well typed |
| Pipeline.Session.constructor | haussmeister/cnmf.py:42 | a session starts from the given files with an empty log and NCPUS fixed from the CPU count |
| Pipeline.Session.TiffsToCnmf | haussmeister/cnmf.py:45-82 | the new disk, the appended log entries and the result are exactly those of `Convert` on the old disk |
| Pipeline.Session.ProcessData | haussmeister/cnmf.py:85-225 | disk and log follow `Process` (direct variant); a failure returns its error; a success returns ROIs outlined from the unordered A2 at thr 0.9 on the d1 x d2 frame, with C2, zproj, S2, Y and YrA, or the contour's error |
| Pipeline.Session.ProcessDataPatches | haussmeister/cnmf.py:228-357 | the same for the patched variant |
| Pipeline.Session.Orchestrate | haussmeister/cnmf.py:88-225 | the shared body: disk and log follow `Process`, a failure returns its error, and a success delivers the outlines of the unordered A2 with C2, zproj, S2, Y and YrA (`Delivers`) |
| Pipeline.Session.Prepare | haussmeister/cnmf.py:88-220 | conversion, checkpoint, projection, order_components and stop_server: disk, log and result follow `Process` |
| Pipeline.Session.ProjectAndOrder | haussmeister/cnmf.py:205-220 | the projection follows `Project`, then order_components and stop_server are logged; the result of order_components is not used |
| Pipeline.Session.LoadOrFit | haussmeister/cnmf.py:94-203 | disk, log and result follow `Checkpoint`: load the bundle if present, else stop the backend, load `_Yr.npy` (MissingFile without it), fit, and save the bundle |
| Pipeline.Session.FitAndSave | haussmeister/cnmf.py:99-196 | the fitting branch of the checkpoint: the log and result follow the variant's fitting run, and on success `_cnmf.mat` is written with its bundle and `savemat` is logged |
| Pipeline.Session.Fit | haussmeister/cnmf.py:104-196 | the log and result follow the variant's fitting run, and the disk is unchanged |
| Pipeline.Session.FitDirect | haussmeister/cnmf.py:104-196 | the log and result follow `DirectFit`, and the disk is unchanged |
| Pipeline.Session.FitPatches | haussmeister/cnmf.py:248-328 | the log and result follow `PatchedFit`, and the disk is unchanged |
| Pipeline.Session.Update | haussmeister/cnmf.py:172-190 | one spatial and one temporal update are logged, and the refined bundle takes A2, C2, YrA, S2 and bl2 |
| Pipeline.Session.LoadOrProject | haussmeister/cnmf.py:205-210 | disk, log and projection follow `Project` |
| Traces.ProcessTrace | haussmeister/cnmf.py:85-225 | a successful run's stage sequence is exactly: the cache writes if `_Y.npy` was missing; if `_cnmf.mat` was missing, stop_server, the variant's full fitting sequence and `savemat`; the projection write if `_proj.npy` was missing; then order_components and stop_server |
| Traces.BundleSkipsFit | haussmeister/cnmf.py:94-203 | with `_cnmf.mat` present a run calls no backend stage, never starts the backend, never writes the bundle, and returns the stored bundle |
| Traces.ProcessDisk | haussmeister/cnmf.py:196-210 | after a successful run `_cnmf.mat` holds the returned bundle, `_proj.npy` the returned projection (a new one is the projection of the frames-first stack), and `_Y.npy` the returned Y |
| Traces.ProcessFailure | haussmeister/cnmf.py:88-104 | a run fails with the conversion's error; with a bundle present nothing else fails; otherwise it fails with MissingFile when `_Yr.npy` is absent, and with ZeroDivision exactly when NCPUS is 0 or a patched run has no frames |
| Traces.ServerDiscipline | haussmeister/cnmf.py:96-220 | from any backend state, every backend stage of a run runs while the backend is up, every start_server is issued while it is down (after the stop_server at line 96 or 239), and a successful run leaves it stopped |
| Traces.CheckpointDiscipline | haussmeister/cnmf.py:94-203 | the checkpoint alone is disciplined from any backend state, and loading the bundle leaves the state as it was |
| Traces.FailedRunDisciplined | haussmeister/cnmf.py:88-196 | a failed run is disciplined from any backend state too: it stops inside the conversion or the checkpoint |
| Traces.BundleSavedWhileRunning | haussmeister/cnmf.py:184-196 | when the bundle is computed, `savemat` runs while the backend is up |
| Traces.CheckpointStagesExact | haussmeister/cnmf.py:94-196 | the checkpoint's stages: none with a bundle; only stop_server without `_Yr.npy`; otherwise stop_server, the fitting run's stages and, on success, `savemat` |
| Traces.CheckpointFitEvents | haussmeister/cnmf.py:94-196 | a checkpoint that fits succeeds exactly when its run does, and logs stop_server, the run's events and `savemat` exactly on success |
| Traces.CheckpointStores | haussmeister/cnmf.py:94-203 | a successful checkpoint leaves its bundle in `_cnmf.mat` and changes no other file |
| Traces.ProjectStores | haussmeister/cnmf.py:205-210 | the projection leaves the returned matrix in `_proj.npy`, a new one being the projection of the frames-first stack, and changes no other file |
| Traces.FitStagesDisciplined | haussmeister/cnmf.py:121-196 | each fitting run's stage sequence, complete or cut short after the patch run, is disciplined exactly when the backend is down before it (it opens with start_server), and a complete one leaves the backend running |
| Traces.SuccessfulRunDisciplined | haussmeister/cnmf.py:85-220 | a successful run is disciplined from any backend state and leaves the backend stopped |
| Traces.FitRunStages | haussmeister/cnmf.py:104-328 | a fitting run emits its variant's full stage sequence on success, and on failure nothing or only start_server and the patch run |
| Traces.ConvertKeepsOthers | haussmeister/cnmf.py:75-76 | the conversion writes only `_Y.npy` and `_Yr.npy` |

## Left out

- Floating point. Weights, depths and projections are exact reals. `float32` rounding, and the NaN arithmetic of `0/0`, are not modelled. A column of zero energy is modelled as a grid that is NaN in every cell (`Contour.Grid.NaNGrid`), which is handed to the tracer.
- The numerical library: preprocess, initialise, the spatial and temporal updates, merge, the patch runner, `order_components`, the projection, the TIFF decoder and the iso-line tracer. They are uninterpreted functions stored in a `Library` value. What they compute is not part of this model, except for the arguments they are given and the order in which they are called. The library's default merge threshold is a field `mergeThr`.
- Budget.PixProc, Budget.PixProcLongRecording: the first operand of `pix_proc` is computed in exact arithmetic, as floor(2000q/T) with q = d1*d2/NCPUS. The source divides in double precision, by `T/2000.`. When 2000q/T is a whole number the float quotient can fall just below it, and `np.int` then gives one less: q 43690 with T 2720 gives 32124 where the model gives 32125. The bounds in `Budget.PixProcBounds` and the short-recording case still hold of the float value, but the equality of `Budget.PixProcLongRecording` can be one too high.
- Ill-typed cache files. `Cache.Convert`, `Pipeline.Checkpoint`, `Pipeline.Project` and `Pipeline.Process` require `WellKinded(disk)`: `_Y.npy` holds a cube, `_Yr.npy` and `_proj.npy` a matrix and `_cnmf.mat` a bundle. The source raises on such a file instead: a ValueError from `d1, d2, T = Y.shape` on a `_Y.npy` that is not 3-D (lines 92 and 235), or a KeyError from `resdict["A"]` on a `_cnmf.mat` without the keys (lines 199 and 331). Those failures are not modelled.
- Default arguments. `tiffs_to_cnmf(haussio_data, mask=None, force=False)` and the orchestrators' `mask=None, p=2, nrois_init=400` (lines 45, 85 and 228) are not modelled as defaults: the `Session` methods take every argument explicitly.
- `CNMFSetParms` defaults other than the fields the code sets explicitly are not modelled.
- Re-reading the library's outputs: the stages are total functions and none of them fails. An exception raised inside the library is a failure this model does not have.
- `np.load`, `np.save`, `savemat` and `loadmat`: a file is a value in a map, and memory mapping is not modelled. Only the existence tests and the contents written or read are modelled.
- Standard output, timing and `sys.stdout.flush`: they have no observable effect on results, so they are left out.
- The server's own lifecycle (`start_server` and `stop_server` internals, `ipyparallel`). These calls appear only as events in the log.
- Sparse input to `contour` (`issparse` and `todense`) and `squeeze` of the raw recording. Every array is a dense `Layout.Matrix` or `Layout.Cube`.
- `ROIList` and `sima.ROI.ROI` construction: the ROIs are returned as their polygons. The `np.mgrid` coordinate grids passed to the tracer are fixed by d1 and d2, and the tracer receives those two numbers.
- The tie order of `np.argsort`. The source does not fix an order for equal weights, so `Depth.ArgSortDescending` promises a descending permutation, not a particular one. `Contour.ContourAll` exposes the rankings it used as ghost outputs.
- Depth.InclusionDepth: requires a column with at least one pixel. The `cumEn[-1]` IndexError of an empty column is modelled by `Contour.ContourError`, which `Contour.ContourAll` checks before the loop.
- Cache.Convert: its own contract states only well-typed artifacts and the presence of `_Y.npy`. The full outcome is stated by `Cache.ConvertOutcome`. The same split applies to `Pipeline.Checkpoint`, `Pipeline.Process` and `Traces.ProcessTrace`.
- A raw mask whose length differs from the frame count is an error (`MaskLengthMismatch`), which is how numpy's boolean indexing rejects it. A missing mask on the raw branch is `MaskRequired`, standing for `np.invert(None)`.
- Concurrent invocations on the same dataset, and the resulting races on the cache files, are not modelled: a session is single-threaded.
- `setup.py` and packaging are not part of this model.
