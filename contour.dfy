/**
 * ROI outlines from the spatial components: for each column of A the depth
 * map is reshaped column-major to the d1 x d2 frame and handed to the
 * iso-line tracer at level `thr`; the first polygon it returns becomes the
 * component's outline, and a fixed placeholder triangle stands in when it
 * returns none. The tracer itself is matplotlib's `_cntr`, which is not part
 * of this model: it is a parameter.
 */
module Contour {
  import opened Common
  import opened Layout
  import opened Depth

  /** A polygon as the tracer returns it: a list of vertices. */
  type Polygon = seq<seq<real>>

  /** `[[0, 0, 0], [0, 0, 0], [0, 0, 0]]`, the outline of a component the tracer finds nothing for. */
  const Placeholder: Polygon := [[0.0, 0.0, 0.0], [0.0, 0.0, 0.0], [0.0, 0.0, 0.0]]

  /** The level grid handed to the tracer: the reshaped depths, or NaN in every cell of a zero-energy column. */
  datatype Grid = Levels(cells: seq<seq<real>>) | NaNGrid(rows: nat, cols: nat)

  /** `_cntr.Cntr(y, x, Bmat).trace(thr)` over the `np.mgrid[:d1, :d2]` coordinates. */
  type Tracer = (nat, nat, Grid, real) -> seq<Polygon>

  /** The outline kept for one component: the first traced polygon, else the placeholder. */
  function FirstOr(cs: seq<Polygon>): Polygon
  {
    if |cs| > 0 then cs[0] else Placeholder
  }

  /** `np.reshape(Bvec, (d1, d2), order='F')` of a depth map whose length is d1 * d2. */
  function GridOf(depth: DepthMap, d1: nat, d2: nat): (g: Grid)
    requires depth.Depths? ==> |depth.values| == d1 * d2
    ensures depth.Undefined? <==> g.NaNGrid?
    ensures g.NaNGrid? ==> g.rows == d1 && g.cols == d2
    ensures g.Levels? ==>
              |g.cells| == d1 && (forall r :: 0 <= r < d1 ==> |g.cells[r]| == d2) &&
              forall r, c :: 0 <= r < d1 && 0 <= c < d2 ==>
                g.cells[r][c] == AtPixel(depth.values, r, c, d1, d2)
  {
    match depth
    case Undefined => NaNGrid(d1, d2)
    case Depths(v) => Levels(Reshape(v, d1, d2))
  }

  /**
   * What `contour(A, d1, d2, thr)` raises, if anything: the first column
   * already fails, on `cumEn[-1]` when A has no pixel rows, and otherwise on
   * the reshape when the pixel count is not d1 * d2. Without columns the loop
   * never runs and nothing fails.
   */
  function ContourError(a: Matrix, d1: nat, d2: nat): Option<Error>
  {
    if a.cols == 0 then None
    else if a.rows == 0 then Some(EmptyColumn)
    else if a.rows != d1 * d2 then Some(ReshapeMismatch)
    else None
  }

  /**
   * One polygon per column of A, in column order: entry i is the first
   * iso-line at `thr` of the depth map of column i, reshaped to the frame, or
   * the placeholder. `orders` and `maps` are the rankings and depth maps
   * used; the source does not fix the order among equal weights, so the
   * contract states what every such ranking satisfies.
   */
  method ContourAll(a: Matrix, d1: nat, d2: nat, thr: real, trace: Tracer)
    returns (r: Result<seq<Polygon>>, ghost orders: seq<seq<nat>>, ghost maps: seq<DepthMap>)
    ensures r.Err? <==> ContourError(a, d1, d2).Some?
    ensures r.Err? ==> r.error == ContourError(a, d1, d2).value
    ensures r.Ok? ==> |r.value| == a.cols && TracedWith(a, d1, d2, thr, trace, r.value, orders, maps)
  {
    var err := ContourError(a, d1, d2);
    if err.Some? {
      return Err(err.value), [], [];
    }
    var coordinates: seq<Polygon> := [];
    orders, maps := [], [];
    for i := 0 to a.cols
      invariant |coordinates| == i && |orders| == i && |maps| == i
      invariant forall j :: 0 <= j < i ==>
                  IsDepthMap(Column(a, j), orders[j], maps[j]) &&
                  coordinates[j] == FirstOr(trace(d1, d2, GridOf(maps[j], d1, d2), thr))
    {
      var order, depth := InclusionDepth(Column(a, i));
      var cs := trace(d1, d2, GridOf(depth, d1, d2), thr);
      if |cs| > 0 {
        coordinates := coordinates + [cs[0]];
      } else {
        coordinates := coordinates + [[[0.0, 0.0, 0.0], [0.0, 0.0, 0.0], [0.0, 0.0, 0.0]]];
      }
      orders, maps := orders + [order], maps + [depth];
    }
    r := Ok(coordinates);
  }

  /**
   * `polys` are the outlines of the columns of A when column i is ranked by
   * orders[i] into the depth map maps[i]: one entry per column, in column
   * order, each the first iso-line of that map's grid or the placeholder.
   */
  ghost predicate TracedWith(a: Matrix, d1: nat, d2: nat, thr: real, trace: Tracer,
                             polys: seq<Polygon>, orders: seq<seq<nat>>, maps: seq<DepthMap>)
  {
    (a.cols > 0 ==> a.rows == d1 * d2) &&
    |polys| == a.cols && |orders| == a.cols && |maps| == a.cols &&
    forall i :: 0 <= i < a.cols ==>
      IsDepthMap(Column(a, i), orders[i], maps[i]) &&
      polys[i] == FirstOr(trace(d1, d2, GridOf(maps[i], d1, d2), thr))
  }

  /** `polys` are the outlines of A for some ranking of every column by descending weight. */
  ghost predicate Outlined(a: Matrix, d1: nat, d2: nat, thr: real, trace: Tracer, polys: seq<Polygon>)
  {
    exists orders, maps :: TracedWith(a, d1, d2, thr, trace, polys, orders, maps)
  }

  /**
   * Every level in a grid of a defined depth map lies in [0, 1]: the tracer
   * sees cumulative energy shares, and the pixel with the least weight sits
   * at level 1.
   */
  lemma GridLevelsInUnitInterval(w: seq<real>, order: seq<nat>, depth: DepthMap, d1: nat, d2: nat)
    requires IsDepthMap(w, order, depth) && depth.Depths? && |w| == d1 * d2
    ensures GridOf(depth, d1, d2).Levels?
    ensures forall r, c :: 0 <= r < d1 && 0 <= c < d2 ==> 0.0 <= GridOf(depth, d1, d2).cells[r][c] <= 1.0
  {
    DepthInUnitInterval(w, order, depth);
    forall r, c | 0 <= r < d1 && 0 <= c < d2
      ensures 0.0 <= GridOf(depth, d1, d2).cells[r][c] <= 1.0
    {
      FlatIndexInRange(r, c, d1, d2);
    }
  }

  /** A component whose weights are all zero is traced on a grid that is NaN everywhere. */
  lemma ZeroComponentGrid(w: seq<real>, order: seq<nat>, depth: DepthMap, d1: nat, d2: nat)
    requires IsDepthMap(w, order, depth) && |w| == d1 * d2
    ensures GridOf(depth, d1, d2).NaNGrid? <==> forall p :: 0 <= p < |w| ==> w[p] == 0.0
  {
    DepthUndefinedIffZero(w, order, depth);
  }
}
