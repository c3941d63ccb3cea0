/** The point selection and transform of `plot_xy_plot`, as functions on the
    list of points read from the xylist. */
module XyPoints {
  import opened XyTypes

  /** `Nxy`: the number of points read, capped by `nobjs` when that is not 0. */
  function WorkingCount(n: nat, nobjs: int): (nxy: int)
    ensures nxy <= n
    ensures nobjs != 0 ==> nxy <= nobjs
    ensures nxy == n || (nobjs != 0 && nxy == nobjs)
  {
    if nobjs != 0 then (if n < nobjs then n else nobjs) else n
  }

  function Shift(p: Point, xoff: real, yoff: real): Point {
    Point(p.x - xoff, p.y - yoff)
  }

  function Scale(p: Point, scale: real): Point {
    Point(scale * p.x, scale * p.y)
  }

  /** `pts` with its first `nxy` entries shifted by the offsets. */
  function Shifted(pts: seq<Point>, nxy: int, xoff: real, yoff: real): (r: seq<Point>)
    ensures |r| == |pts|
  {
    seq(|pts|, i requires 0 <= i < |pts| => if i < nxy then Shift(pts[i], xoff, yoff) else pts[i])
  }

  /** `pts` with its first `nxy` entries multiplied by `scale`. */
  function Scaled(pts: seq<Point>, nxy: int, scale: real): (r: seq<Point>)
    ensures |r| == |pts|
  {
    seq(|pts|, i requires 0 <= i < |pts| => if i < nxy then Scale(pts[i], scale) else pts[i])
  }

  /** The first `nxy` points shifted by the offsets, then scaled. */
  function ShiftScaled(pts: seq<Point>, nxy: int, xoff: real, yoff: real, scale: real): seq<Point> {
    Scaled(Shifted(pts, nxy, xoff, yoff), nxy, scale)
  }

  /** A point taken through the plotter's WCS to the sky and back through the
      plot's WCS, in 1-based FITS pixel coordinates on both calls. */
  function Reprojected(p: Point, wcs: Wcs, libs: Libs): Point {
    var (ra, dec) := libs.pixelToRadec(wcs, p.x + 1.0, p.y + 1.0);
    var (x, y) := libs.radecToPixel(ra, dec);
    Point(x - 1.0, y - 1.0)
  }

  /** `pts` with its first `nxy` entries reprojected through `wcs`. */
  function ReprojectedPrefix(pts: seq<Point>, nxy: int, wcs: Wcs, libs: Libs): (r: seq<Point>)
    ensures |r| == |pts|
  {
    seq(|pts|, i requires 0 <= i < |pts| => if i < nxy then Reprojected(pts[i], wcs, libs) else pts[i])
  }

  /** The points as they are drawn: shifted and scaled, then reprojected when
      a WCS was given; entries at or past `nxy` are left as read. */
  function PreparedPoints(pts: seq<Point>, nxy: int, xoff: real, yoff: real, scale: real,
                          wcs: Option<Wcs>, libs: Libs): (r: seq<Point>)
    ensures |r| == |pts|
    ensures forall i :: 0 <= i < |pts| && nxy <= i ==> r[i] == pts[i]
    ensures wcs.None? ==> r == ShiftScaled(pts, nxy, xoff, yoff, scale)
  {
    var moved := ShiftScaled(pts, nxy, xoff, yoff, scale);
    if wcs.Some? then ReprojectedPrefix(moved, nxy, wcs.value, libs) else moved
  }

  /** Entry `i` after the shift and scale: `scale * (x - xoff)` (and so for
      y) inside the working range, the point itself outside it. */
  lemma ShiftScaledAt(pts: seq<Point>, nxy: int, xoff: real, yoff: real, scale: real, i: int)
    requires 0 <= i < |pts|
    ensures |ShiftScaled(pts, nxy, xoff, yoff, scale)| == |pts|
    ensures ShiftScaled(pts, nxy, xoff, yoff, scale)[i]
         == if i < nxy then Point(scale * (pts[i].x - xoff), scale * (pts[i].y - yoff)) else pts[i]
  {
  }

  /** No offset and unit scale leave every point where it is. */
  lemma ShiftScaledIdentity(pts: seq<Point>, nxy: int)
    ensures ShiftScaled(pts, nxy, 0.0, 0.0, 1.0) == pts
  {
    var r := ShiftScaled(pts, nxy, 0.0, 0.0, 1.0);
    forall i | 0 <= i < |pts| ensures r[i] == pts[i] {
      ShiftScaledAt(pts, nxy, 0.0, 0.0, 1.0, i);
    }
  }

  /** The values of `i` in `for (i = lo; i < hi; i++)`, in order. */
  function Range(lo: int, hi: int): (r: seq<int>)
    ensures |r| == if lo < hi then hi - lo else 0
    ensures forall k :: 0 <= k < |r| ==> r[k] == lo + k
    decreases hi - lo
  {
    if lo < hi then [lo] + Range(lo + 1, hi) else []
  }

  /** The indices the marker loops of `plot_xy_plot` visit, as written. */
  function AsWrittenMarkerIndices(firstobj: int, nxy: int): seq<int> {
    Range(firstobj, nxy)
  }

  /** With `firstobj == -1` (`atoi("-1")`) and one point read, the loops as
      written visit index -1, which is not a position of the point list. */
  lemma NegativeFirstObjVisitsIndexMinusOne()
    ensures var nxy := WorkingCount(1, 0);
            var idx := AsWrittenMarkerIndices(-1, nxy);
            nxy == 1 && idx == [-1, 0] && !(0 <= idx[0] < 1)
  {
    assert Range(-1, 1) == [-1] + Range(0, 1);
  }

  /** The indices the plotter draws: `firstobj .. nxy-1`, starting at 0 when
      `firstobj` is negative. */
  function MarkerIndices(firstobj: int, nxy: int): seq<int> {
    Range(if firstobj < 0 then 0 else firstobj, nxy)
  }

  /** The drawn indices are exactly those `i` with `firstobj <= i < nxy` that
      are positions of the list, in increasing order; none when
      `firstobj >= nxy`; the same as the loops as written when `firstobj >= 0`. */
  lemma {:induction false} MarkerIndicesExact(firstobj: int, nxy: int)
    ensures forall i :: i in MarkerIndices(firstobj, nxy) <==> 0 <= i && firstobj <= i < nxy
    ensures forall j, k :: 0 <= j < k < |MarkerIndices(firstobj, nxy)| ==>
              MarkerIndices(firstobj, nxy)[j] < MarkerIndices(firstobj, nxy)[k]
    ensures firstobj >= nxy ==> MarkerIndices(firstobj, nxy) == []
    ensures 0 <= firstobj ==> MarkerIndices(firstobj, nxy) == AsWrittenMarkerIndices(firstobj, nxy)
  {
    var lo := if firstobj < 0 then 0 else firstobj;
    var r := MarkerIndices(firstobj, nxy);
    forall i | 0 <= i && firstobj <= i < nxy ensures i in r {
      assert r[i - lo] == i;
    }
  }

  /** A marker as `plot_xy_plot` draws it: at the point plus half a pixel. */
  datatype Marker = Marker(index: int, x: real, y: real)

  /** The markers for the indices `idx` of `pts`, in that order. */
  function MarkersAt(pts: seq<Point>, idx: seq<int>): (ms: seq<Marker>)
    requires forall k :: 0 <= k < |idx| ==> 0 <= idx[k] < |pts|
  {
    seq(|idx|, k requires 0 <= k < |idx| => Marker(idx[k], pts[idx[k]].x + 0.5, pts[idx[k]].y + 0.5))
  }

  /** The indices of a sequence of markers, in order. */
  function DrawnIndices(ms: seq<Marker>): (r: seq<int>)
    ensures |r| == |ms|
  {
    seq(|ms|, k requires 0 <= k < |ms| => ms[k].index)
  }

  /** The markers drawn for `pts` with the working count `nxy`. */
  function Markers(pts: seq<Point>, firstobj: int, nxy: int): (ms: seq<Marker>)
    requires nxy <= |pts|
  {
    MarkerIndicesExact(firstobj, nxy);
    MarkersAt(pts, MarkerIndices(firstobj, nxy))
  }
}
