/**
 * The frame cache of `tiffs_to_cnmf`: the frames-first stack is read from
 * the TIFF files (the unmasked ones) or from the raw recording (boolean
 * indexed by the inverted mask), transposed frames-last and written as
 * `_Y.npy`, then flattened column-major and written as `_Yr.npy`. Only the
 * existence of `_Y.npy` decides whether the cache is rebuilt.
 */
module Cache {
  import opened Common
  import opened Layout
  import opened Masking
  import opened Store
  import opened Stages

  /** What a step of the pipeline leaves behind: the new disk, the events it emitted, and its value or error. */
  datatype Step<T> = Step(disk: Disk, events: seq<Event>, out: Result<T>)

  function YPath(base: string): Path { Artifact(base, YCube) }
  function YrPath(base: string): Path { Artifact(base, YrMatrix) }
  function CnmfPath(base: string): Path { Artifact(base, CnmfBundle) }
  function ProjPath(base: string): Path { Artifact(base, Projection) }

  /** `raw[np.invert(mask), :, :]`: the frames whose mask entry is false, in order. */
  function SelectFrames(raw: Cube, mask: seq<bool>): (s: Cube)
    requires |mask| == raw.n0
    ensures s.n0 == CountKept(mask) && s.n1 == raw.n1 && s.n2 == raw.n2
    ensures |Positions(mask)| == s.n0
    ensures forall j :: 0 <= j < s.n0 ==>
              Positions(mask)[j] < raw.n0 && !mask[Positions(mask)[j]] && s.v[j] == raw.v[Positions(mask)[j]]
  {
    KeepSelects(raw.v, mask);
    PositionsExact(mask);
    assert mask[..|mask|] == mask;
    Array3(CountKept(mask), raw.n1, raw.n2, Keep(raw.v, mask))
  }

  /** Whether the TIFF branch is taken: no raw recording, or one that does not exist. */
  predicate FromTiffs(disk: Disk, data: Dataset) {
    data.rawfile.None? || External(data.rawfile.value) !in disk
  }

  /** The frames-first stack `tiff_data` before the transpose, or why reading it raises. */
  function FrameStack(disk: Disk, lib: Library, data: Dataset, mask: Option<seq<bool>>): (r: Result<Cube>)
    ensures FromTiffs(disk, data) ==>
              r == (match lib.readTiffs(KeptFiles(data.filenames, mask))
                    case Some(s) => Ok(s)
                    case None => Err(DecodeFailed))
    ensures !FromTiffs(disk, data) && mask.None? ==> r == Err(MaskRequired)
    ensures !FromTiffs(disk, data) && mask.Some? && |mask.value| != data.rawFrames.n0 ==>
              r == Err(MaskLengthMismatch)
    ensures !FromTiffs(disk, data) && r.Ok? ==>
              mask.Some? && |mask.value| == data.rawFrames.n0 &&
              r.value == SelectFrames(data.rawFrames, mask.value)
  {
    if FromTiffs(disk, data) then
      match lib.readTiffs(KeptFiles(data.filenames, mask))
      case Some(s) => Ok(s)
      case None => Err(DecodeFailed)
    else if mask.None? then Err(MaskRequired)
    else if |mask.value| != data.rawFrames.n0 then Err(MaskLengthMismatch)
    else Ok(SelectFrames(data.rawFrames, mask.value))
  }

  /** Whether `tiffs_to_cnmf` converts: `force`, or no `_Y.npy` yet. `_Yr.npy` is not consulted. */
  predicate Rebuilds(disk: Disk, base: string, force: bool) {
    YPath(base) !in disk || force
  }

  /** `tiffs_to_cnmf(haussio_data, mask, force)`. */
  function Convert(disk: Disk, lib: Library, data: Dataset, mask: Option<seq<bool>>, force: bool): (c: Step<()>)
    requires WellKinded(disk)
    ensures WellKinded(c.disk)
    ensures c.out.Ok? ==> YPath(data.base) in c.disk
  {
    if !Rebuilds(disk, data.base, force) then Step(disk, [], Ok(()))
    else
      match FrameStack(disk, lib, data, mask)
      case Err(e) => Step(disk, [], Err(e))
      case Ok(stack) =>
        var y := FramesLast(stack);
        var d := disk[YPath(data.base) := CubeFile(y)][YrPath(data.base) := MatrixFile(Flatten(y))];
        Step(d, [Save(YPath(data.base)), Save(YrPath(data.base))], Ok(()))
  }

  /**
   * The conversion fails exactly when it rebuilds and the frames cannot be
   * read, and then writes nothing; when it does not rebuild it writes
   * nothing either; a successful rebuild saves `_Y.npy` then `_Yr.npy`,
   * holding the frames-last stack and its column-major flattening.
   */
  lemma ConvertOutcome(disk: Disk, lib: Library, data: Dataset, mask: Option<seq<bool>>, force: bool)
    requires WellKinded(disk)
    ensures var c := Convert(disk, lib, data, mask, force);
            var stack := FrameStack(disk, lib, data, mask);
            (c.out.Err? <==> Rebuilds(disk, data.base, force) && stack.Err?) &&
            (c.out.Err? ==> c.out.error == stack.error) &&
            (!Rebuilds(disk, data.base, force) || c.out.Err? ==> c.disk == disk && c.events == []) &&
            (Rebuilds(disk, data.base, force) && c.out.Ok? ==>
               var y := FramesLast(stack.value);
               c.events == [Save(YPath(data.base)), Save(YrPath(data.base))] &&
               c.disk == disk[YPath(data.base) := CubeFile(y)][YrPath(data.base) := MatrixFile(Flatten(y))])
  {
  }

  /**
   * A rebuilt cache is consistent: `_Yr.npy` holds the column-major
   * flattening of `_Y.npy`, so Yr[r + c*d1][t] == Y[r][c][t], and Y[r][c][t]
   * is pixel (r, c) of the t-th selected frame.
   */
  lemma ConvertedLayout(disk: Disk, lib: Library, data: Dataset, mask: Option<seq<bool>>, force: bool,
                        r: nat, c: nat, t: nat)
    requires WellKinded(disk) && Convert(disk, lib, data, mask, force).events != []
    ensures var d := Convert(disk, lib, data, mask, force).disk;
            var stack := FrameStack(disk, lib, data, mask).value;
            var y := d[YPath(data.base)].cube;
            var yr := d[YrPath(data.base)].matrix;
            y.n0 == stack.n1 && y.n1 == stack.n2 && y.n2 == stack.n0 &&
            (r < y.n0 && c < y.n1 && t < y.n2 ==>
               r + c * y.n0 < yr.rows && yr.v[r + c * y.n0][t] == y.v[r][c][t] == stack.v[t][r][c])
  {
    var y := FramesLast(FrameStack(disk, lib, data, mask).value);
    assert YPath(data.base) != YrPath(data.base);
    if r < y.n0 && c < y.n1 && t < y.n2 {
      FlattenIndex(y, r, c, t);
    }
  }

  /** Right after a successful call, a second call without `force` writes nothing and changes nothing. */
  lemma ConvertTwice(disk: Disk, lib: Library, data: Dataset, mask: Option<seq<bool>>, force: bool,
                     mask2: Option<seq<bool>>)
    requires WellKinded(disk) && Convert(disk, lib, data, mask, force).out.Ok?
    ensures var d := Convert(disk, lib, data, mask, force).disk;
            Convert(d, lib, data, mask2, false) == Step(d, [], Ok(()))
  {
  }

  /** A stale `_Yr.npy` (or none at all) does not trigger a rebuild while `_Y.npy` exists. */
  lemma YrNeverConsulted(disk: Disk, lib: Library, data: Dataset, mask: Option<seq<bool>>, content: Content)
    requires WellKinded(disk) && YPath(data.base) in disk && content.MatrixFile?
    ensures Convert(disk - {YrPath(data.base)}, lib, data, mask, false).events == []
    ensures Convert(disk[YrPath(data.base) := content], lib, data, mask, false).events == []
  {
    assert YPath(data.base) != YrPath(data.base);
  }
}
