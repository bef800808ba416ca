/**
 * Array shapes and the two layout conversions of the frame cache: the
 * frames-first stack read from disk is transposed to frames-last
 * (height x width x time) and then linearised column-major (Fortran
 * order) into a pixels x time matrix. Pixel (r, c) of a height-d1 frame
 * lives at flat index r + c * d1; the inverse reshape used by the contour
 * extractor reads the same index back.
 */
module Layout {
  import opened Arith

  /** A two-dimensional numeric array with its shape. */
  datatype Array2 = Array2(rows: nat, cols: nat, v: seq<seq<real>>) {
    predicate Shaped() {
      |v| == rows && forall i :: 0 <= i < rows ==> |v[i]| == cols
    }
  }

  /** A three-dimensional numeric array with its shape (n0 x n1 x n2). */
  datatype Array3 = Array3(n0: nat, n1: nat, n2: nat, v: seq<seq<seq<real>>>) {
    predicate Shaped() {
      |v| == n0 &&
      (forall i :: 0 <= i < n0 ==> |v[i]| == n1) &&
      (forall i, j :: 0 <= i < n0 && 0 <= j < n1 ==> |v[i][j]| == n2)
    }
  }

  /** A numpy array is never ragged: every matrix and cube of the model is shaped. */
  type Matrix = m: Array2 | m.Shaped() witness Array2(0, 0, [])
  type Cube = c: Array3 | c.Shaped() witness Array3(0, 0, 0, [])

  /** The empty list `[]` that the patched merge call passes for b, f and sn. */
  const EmptyMatrix: Matrix := Array2(0, 0, [])

  // ---------------------------------------------------------------------
  // Index arithmetic of the column-major linearisation
  // ---------------------------------------------------------------------

  lemma FlatIndexInRange(r: nat, c: nat, d1: nat, d2: nat)
    requires r < d1 && c < d2
    ensures r + c * d1 < d1 * d2
  {
    MulMonotone(c, d2 - 1, d1);
    assert (d2 - 1) * d1 == d1 * d2 - d1;
  }

  lemma FlatIndexSplit(r: nat, c: nat, d1: nat)
    requires r < d1
    ensures (r + c * d1) % d1 == r && (r + c * d1) / d1 == c
  {
    DivModUnique(r + c * d1, d1, c, r);
  }

  lemma FlatIndexRecombine(p: nat, d1: nat, d2: nat)
    requires p < d1 * d2
    ensures d1 > 0 && p % d1 < d1 && p / d1 < d2 && p == p % d1 + (p / d1) * d1
  {
    if d1 > 0 && d2 <= p / d1 {
      MulMonotone(d2, p / d1, d1);
    }
  }

  // ---------------------------------------------------------------------
  // Frames-first <-> frames-last
  // ---------------------------------------------------------------------

  /** `np.transpose(tiff_data, (1, 2, 0))`: a T x d1 x d2 stack becomes d1 x d2 x T. */
  function FramesLast(s: Cube): (y: Cube)
    ensures y.n0 == s.n1 && y.n1 == s.n2 && y.n2 == s.n0
    ensures forall r, c, t :: 0 <= r < s.n1 && 0 <= c < s.n2 && 0 <= t < s.n0 ==>
              y.v[r][c][t] == s.v[t][r][c]
  {
    Array3(s.n1, s.n2, s.n0,
      seq(s.n1, r requires 0 <= r < s.n1 =>
        seq(s.n2, c requires 0 <= c < s.n2 =>
          seq(s.n0, t requires 0 <= t < s.n0 => s.v[t][r][c]))))
  }

  /** `np.transpose(Y, (2, 0, 1))`: a d1 x d2 x T cube back to T x d1 x d2. */
  function FramesFirst(y: Cube): (s: Cube)
    ensures s.n0 == y.n2 && s.n1 == y.n0 && s.n2 == y.n1
    ensures forall t, r, c :: 0 <= t < y.n2 && 0 <= r < y.n0 && 0 <= c < y.n1 ==>
              s.v[t][r][c] == y.v[r][c][t]
  {
    Array3(y.n2, y.n0, y.n1,
      seq(y.n2, t requires 0 <= t < y.n2 =>
        seq(y.n0, r requires 0 <= r < y.n0 =>
          seq(y.n1, c requires 0 <= c < y.n1 => y.v[r][c][t]))))
  }

  lemma {:induction false} FramesFirstLast(s: Cube)
    ensures FramesFirst(FramesLast(s)) == s
  {
    var u := FramesFirst(FramesLast(s));
    assert forall t :: 0 <= t < s.n0 ==> u.v[t] == s.v[t] by {
      forall t | 0 <= t < s.n0 ensures u.v[t] == s.v[t] {
        assert forall r :: 0 <= r < s.n1 ==> u.v[t][r] == s.v[t][r];
      }
    }
  }

  // ---------------------------------------------------------------------
  // Column-major flatten and reshape
  // ---------------------------------------------------------------------

  /** Element r + c*d1 of a flat sequence of length d1*d2: the column-major position of pixel (r, c). */
  function AtPixel<T>(vec: seq<T>, r: nat, c: nat, d1: nat, d2: nat): T
    requires |vec| == d1 * d2 && r < d1 && c < d2
  {
    FlatIndexInRange(r, c, d1, d2);
    vec[r + c * d1]
  }

  /** The time course of the pixel at flat index p = r + c*d1 of a frames-last cube. */
  function PixelAt(y: Cube, p: nat): (row: seq<real>)
    requires p < y.n0 * y.n1
    ensures |row| == y.n2
  {
    FlatIndexRecombine(p, y.n0, y.n1);
    y.v[p % y.n0][p / y.n0]
  }

  /** `np.reshape(Y, (d1*d2, T), order='F')`: row r + c*d1 of the result is pixel (r, c). */
  function Flatten(y: Cube): (m: Matrix)
    ensures m.rows == y.n0 * y.n1 && m.cols == y.n2
    ensures forall r, c :: 0 <= r < y.n0 && 0 <= c < y.n1 ==>
              AtPixel(m.v, r, c, y.n0, y.n1) == y.v[r][c]
  {
    var m := Array2(y.n0 * y.n1, y.n2, seq(y.n0 * y.n1, p requires 0 <= p < y.n0 * y.n1 => PixelAt(y, p)));
    assert forall r, c :: 0 <= r < y.n0 && 0 <= c < y.n1 ==> AtPixel(m.v, r, c, y.n0, y.n1) == y.v[r][c] by {
      forall r, c | 0 <= r < y.n0 && 0 <= c < y.n1 ensures AtPixel(m.v, r, c, y.n0, y.n1) == y.v[r][c] {
        FlatIndexInRange(r, c, y.n0, y.n1);
        FlatIndexSplit(r, c, y.n0);
      }
    }
    m
  }

  /** Entry [r + c*d1][t] of the flattened cube is Y[r][c][t], for every pixel and frame. */
  lemma FlattenIndex(y: Cube, r: nat, c: nat, t: nat)
    requires r < y.n0 && c < y.n1 && t < y.n2
    ensures r + c * y.n0 < Flatten(y).rows && Flatten(y).v[r + c * y.n0][t] == y.v[r][c][t]
  {
    FlatIndexInRange(r, c, y.n0, y.n1);
    assert AtPixel(Flatten(y).v, r, c, y.n0, y.n1) == y.v[r][c];
  }

  /** The inverse view of a pixels x time matrix as a d1 x d2 x T cube, reading row r + c*d1. */
  function Unflatten(m: Matrix, d1: nat, d2: nat): (y: Cube)
    requires m.rows == d1 * d2
    ensures y.n0 == d1 && y.n1 == d2 && y.n2 == m.cols
    ensures forall r, c :: 0 <= r < d1 && 0 <= c < d2 ==> y.v[r][c] == AtPixel(m.v, r, c, d1, d2)
  {
    var y := Array3(d1, d2, m.cols,
      seq(d1, r requires 0 <= r < d1 =>
        seq(d2, c requires 0 <= c < d2 => AtPixel(m.v, r, c, d1, d2))));
    assert y.Shaped() by {
      forall r, c | 0 <= r < d1 && 0 <= c < d2 ensures |y.v[r][c]| == m.cols {
        FlatIndexInRange(r, c, d1, d2);
      }
    }
    y
  }

  /** Flattening and reading back the cube gives the cube. */
  lemma {:induction false} UnflattenFlatten(y: Cube)
    ensures Unflatten(Flatten(y), y.n0, y.n1) == y
  {
    var u := Unflatten(Flatten(y), y.n0, y.n1);
    forall r | 0 <= r < y.n0 ensures u.v[r] == y.v[r] {
      assert forall c :: 0 <= c < y.n1 ==> u.v[r][c] == y.v[r][c];
    }
  }

  /** Reading a flat matrix as a cube and flattening it again gives the matrix. */
  lemma {:induction false} FlattenUnflatten(m: Matrix, d1: nat, d2: nat)
    requires m.rows == d1 * d2
    ensures Flatten(Unflatten(m, d1, d2)) == m
  {
    var f := Flatten(Unflatten(m, d1, d2));
    forall p | 0 <= p < m.rows ensures f.v[p] == m.v[p] {
      FlattenUnflattenAt(m, d1, d2, p);
    }
    assert f.v == m.v;
  }

  /** One row of `FlattenUnflatten`: row p = r + c*d1 comes back from pixel (r, c). */
  lemma FlattenUnflattenAt(m: Matrix, d1: nat, d2: nat, p: nat)
    requires m.rows == d1 * d2 && p < m.rows
    ensures p < Flatten(Unflatten(m, d1, d2)).rows && Flatten(Unflatten(m, d1, d2)).v[p] == m.v[p]
  {
    var y := Unflatten(m, d1, d2);
    var f := Flatten(y);
    FlatIndexRecombine(p, d1, d2);
    var r, c := p % d1, p / d1;
    assert p == r + c * d1;
    assert AtPixel(f.v, r, c, d1, d2) == y.v[r][c] == AtPixel(m.v, r, c, d1, d2);
  }

  /** `np.reshape(vec, (d1, d2), order='F')` for one spatial column: cell (r, c) is element r + c*d1. */
  function Reshape(vec: seq<real>, d1: nat, d2: nat): (g: seq<seq<real>>)
    requires |vec| == d1 * d2
    ensures |g| == d1 && forall r :: 0 <= r < d1 ==> |g[r]| == d2
    ensures forall r, c :: 0 <= r < d1 && 0 <= c < d2 ==> g[r][c] == AtPixel(vec, r, c, d1, d2)
  {
    seq(d1, r requires 0 <= r < d1 =>
      seq(d2, c requires 0 <= c < d2 => AtPixel(vec, r, c, d1, d2)))
  }

  /** Column t of a matrix. */
  function Column(m: Matrix, t: nat): (col: seq<real>)
    requires t < m.cols
    ensures |col| == m.rows && forall p :: 0 <= p < m.rows ==> col[p] == m.v[p][t]
  {
    seq(m.rows, p requires 0 <= p < m.rows => m.v[p][t])
  }

  /** Frame t of a frames-last cube. */
  function Frame(y: Cube, t: nat): (f: seq<seq<real>>)
    requires t < y.n2
    ensures |f| == y.n0 && forall r :: 0 <= r < y.n0 ==> |f[r]| == y.n1
    ensures forall r, c :: 0 <= r < y.n0 && 0 <= c < y.n1 ==> f[r][c] == y.v[r][c][t]
  {
    seq(y.n0, r requires 0 <= r < y.n0 => seq(y.n1, c requires 0 <= c < y.n1 => y.v[r][c][t]))
  }

  /**
   * The contour extractor's reshape agrees with the cache's flatten: reshaping
   * any time column of the flattened cube gives back that frame, so ROI
   * geometry is neither transposed nor garbled.
   */
  lemma {:induction false} ReshapeColumnIsFrame(y: Cube, t: nat)
    requires t < y.n2
    ensures Reshape(Column(Flatten(y), t), y.n0, y.n1) == Frame(y, t)
  {
    var g := Reshape(Column(Flatten(y), t), y.n0, y.n1);
    var f := Frame(y, t);
    forall r | 0 <= r < y.n0 ensures g[r] == f[r] {
      forall c | 0 <= c < y.n1 ensures g[r][c] == f[r][c] {
        FlatIndexInRange(r, c, y.n0, y.n1);
      }
    }
  }
}
