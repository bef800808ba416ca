/**
 * The files the pipeline reads and writes. A dataset owns four artifacts
 * next to its `dirname_comp` prefix: the frames-last cube `_Y.npy`, its
 * flattened pixels x time matrix `_Yr.npy`, the factorisation bundle
 * `_cnmf.mat` and the projection image `_proj.npy`. Other files (the TIFF
 * frames, the raw recording) are only ever tested for existence. The disk is
 * a map from path to content; a path exists when it is a key.
 */
module Store {
  import opened Common
  import opened Layout

  datatype ArtifactKind = YCube | YrMatrix | CnmfBundle | Projection

  datatype Path =
    | Artifact(base: string, kind: ArtifactKind)  // `dirname_comp + '_Y.npy'` and so on
    | External(name: string)                      // a TIFF frame or the raw recording

  /** `savemat(fn_cnmf, {"A": A2, "C": C2, "YrA": YrA, "S": S2, "bl": bl2})`. */
  datatype Bundle = Bundle(a: Matrix, c: Matrix, yra: Matrix, s: Matrix, bl: Matrix)

  datatype Content =
    | CubeFile(cube: Cube)
    | MatrixFile(matrix: Matrix)
    | BundleFile(bundle: Bundle)
    | Foreign  // a file whose content the pipeline never reads itself

  type Disk = map<Path, Content>

  /** Each artifact holds what its writer stores there. */
  ghost predicate WellKinded(disk: Disk) {
    forall p :: p in disk && p.Artifact? ==>
      match p.kind
      case YCube => disk[p].CubeFile?
      case YrMatrix => disk[p].MatrixFile?
      case CnmfBundle => disk[p].BundleFile?
      case Projection => disk[p].MatrixFile?
  }

  /** The recording a pipeline run works on (`haussio_data`). */
  datatype Dataset = Dataset(
    base: string,              // `dirname_comp`
    filenames: seq<string>,    // one TIFF file per frame
    rawfile: Option<string>,   // `rawfile`, None when the recording is TIFF only
    rawFrames: Cube)           // `read_raw().squeeze()`: frames x height x width
}
