/** The "xy" plotter of blind/plotxy.c: a settings object that commands
    update in place, and the plotting pass that selects, transforms and draws
    the points of an xylist. Drawing is recorded as the passes of markers the
    plotter strokes. */
module PlotXY {
  import opened XyTypes
  import opened XySettings
  import opened XyPoints

  /** One loop of `cairoutils_draw_marker` calls: the background pass with its
      own line width and colour, or the pass in the plot's current style. */
  datatype Pass =
    | Background(lineWidth: real, color: Rgba, markers: seq<Marker>)
    | Foreground(markers: seq<Marker>)

  /** The passes drawn for the prepared points `pts`: a background pass when
      the background colour is not transparent, then the marker pass. */
  function Passes(s: Settings, pts: seq<Point>, nxy: int, lw: real): seq<Pass>
    requires nxy <= |pts|
  {
    var ms := Markers(pts, s.firstobj, nxy);
    var width := if s.bglw != 0.0 then s.bglw else lw + 2.0;
    (if s.bgrgba.a != 0.0 then [Background(width, s.bgrgba, ms)] else []) + [Foreground(ms)]
  }

  /** The return code of `plot_xy_plot` and what it draws, for settings `s`
      and a plot line width `lw`. It fails, drawing nothing, when no file was
      named or the xylist cannot be opened or read. */
  function PlotOutcome(s: Settings, libs: Libs, lw: real): (r: (int, seq<Pass>))
    ensures r.0 == 0 || r.0 == -1
    ensures r.0 == -1 <==> s.fn.None? || !libs.readXylist(s.fn.value, s.ext, s.xcol, s.ycol).Field?
    ensures r.0 == -1 ==> r.1 == []
  {
    if s.fn.None? then (-1, [])
    else match libs.readXylist(s.fn.value, s.ext, s.xcol, s.ycol)
      case Field(pts) =>
        var nxy := WorkingCount(|pts|, s.nobjs);
        (0, Passes(s, PreparedPoints(pts, nxy, s.xoff, s.yoff, s.scale, s.wcs, libs), nxy, lw))
      case _ => (-1, [])
  }

  /** On success the last pass draws exactly the indices `firstobj .. Nxy-1`
      of the list read (none before 0, none at or past `Nxy`), in increasing
      order, each at its prepared position plus half a pixel; a background
      pass comes first exactly when the background alpha is not 0, and draws
      the same markers. */
  lemma {:induction false} PlotDrawsSelectedPoints(s: Settings, libs: Libs, lw: real)
    requires s.fn.Some? && libs.readXylist(s.fn.value, s.ext, s.xcol, s.ycol).Field?
    ensures var pts := libs.readXylist(s.fn.value, s.ext, s.xcol, s.ycol).points;
            var nxy := WorkingCount(|pts|, s.nobjs);
            var prepared := PreparedPoints(pts, nxy, s.xoff, s.yoff, s.scale, s.wcs, libs);
            var (rc, passes) := PlotOutcome(s, libs, lw);
            var drawn := passes[|passes| - 1].markers;
            && rc == 0
            && |passes| == (if s.bgrgba.a != 0.0 then 2 else 1)
            && passes[|passes| - 1].Foreground?
            && (|passes| == 2 ==> passes[0].Background? && passes[0].color == s.bgrgba
                                  && passes[0].markers == drawn)
            && (forall i :: i in DrawnIndices(drawn) <==> 0 <= i && s.firstobj <= i < nxy)
            && (forall j, k :: 0 <= j < k < |drawn| ==> drawn[j].index < drawn[k].index)
            && (forall k :: 0 <= k < |drawn| ==>
                  0 <= drawn[k].index < |pts|
                  && drawn[k].x == prepared[drawn[k].index].x + 0.5
                  && drawn[k].y == prepared[drawn[k].index].y + 0.5)
  {
    var pts := libs.readXylist(s.fn.value, s.ext, s.xcol, s.ycol).points;
    var nxy := WorkingCount(|pts|, s.nobjs);
    var prepared := PreparedPoints(pts, nxy, s.xoff, s.yoff, s.scale, s.wcs, libs);
    MarkerIndicesExact(s.firstobj, nxy);
    assert DrawnIndices(Markers(prepared, s.firstobj, nxy)) == MarkerIndices(s.firstobj, nxy);
  }

  /** With no offset, unit scale and no WCS, the markers sit on the points
      read, moved by half a pixel. */
  lemma UntransformedPointsDrawnInPlace(s: Settings, libs: Libs, lw: real)
    requires s.fn.Some? && libs.readXylist(s.fn.value, s.ext, s.xcol, s.ycol).Field?
    requires s.xoff == 0.0 && s.yoff == 0.0 && s.scale == 1.0 && s.wcs.None?
    ensures var pts := libs.readXylist(s.fn.value, s.ext, s.xcol, s.ycol).points;
            var passes := PlotOutcome(s, libs, lw).1;
            forall m :: m in passes[|passes| - 1].markers ==>
              0 <= m.index < |pts| && m.x == pts[m.index].x + 0.5 && m.y == pts[m.index].y + 0.5
  {
    var pts := libs.readXylist(s.fn.value, s.ext, s.xcol, s.ycol).points;
    PlotDrawsSelectedPoints(s, libs, lw);
    ShiftScaledIdentity(pts, WorkingCount(|pts|, s.nobjs));
  }

  /** `plotxy_t` with the operations of blind/plotxy.c that act on it. */
  class XyPlotter {
    var fn: Option<string>
    var ext: CInt
    var xcol: Option<string>
    var ycol: Option<string>
    var xoff: real
    var yoff: real
    var firstobj: CInt
    var nobjs: CInt
    var scale: real
    var bgrgba: Rgba
    var bglw: real
    var wcs: Option<Wcs>

    /** The current settings as a value. */
    function Snapshot(): Settings
      reads this
    {
      Settings(fn, ext, xcol, ycol, xoff, yoff, firstobj, nobjs, scale, bgrgba, bglw, wcs)
    }

    /** `plot_xy_init`: every field zero or NULL (calloc), then `ext` 1 and `scale` 1. */
    constructor ()
      ensures ext == 1 && scale == 1.0
      ensures fn.None? && xcol.None? && ycol.None? && wcs.None?
      ensures xoff == 0.0 && yoff == 0.0 && firstobj == 0 && nobjs == 0 && bglw == 0.0
      ensures bgrgba == Rgba(0.0, 0.0, 0.0, 0.0)
    {
      fn, xcol, ycol, wcs := None, None, None, None;
      xoff, yoff, firstobj, nobjs, bglw := 0.0, 0.0, 0, 0, 0.0;
      bgrgba := Rgba(0.0, 0.0, 0.0, 0.0);
      ext := 1;
      scale := 1.0;
    }

    /** `plot_xy_set_filename`: the stored name becomes a copy of `name`. */
    method SetFilename(name: Option<string>)
      modifies this
      ensures Snapshot() == old(Snapshot()).(fn := name)
    {
      fn := name;
    }

    /** `plot_xy_set_xcol`. */
    method SetXCol(col: Option<string>)
      modifies this
      ensures Snapshot() == old(Snapshot()).(xcol := col)
    {
      xcol := col;
    }

    /** `plot_xy_set_ycol`. */
    method SetYCol(col: Option<string>)
      modifies this
      ensures Snapshot() == old(Snapshot()).(ycol := col)
    {
      ycol := col;
    }

    /** `plot_xy_set_bg`: the colour parser writes the rgba buffer and its
        status is returned. */
    method SetBg(color: string, libs: Libs) returns (rc: int)
      modifies this
      ensures (rc, bgrgba) == libs.parseColorRgba(color, old(bgrgba))
      ensures Snapshot() == old(Snapshot()).(bgrgba := bgrgba)
    {
      var parsed := libs.parseColorRgba(color, bgrgba);
      bgrgba := parsed.1;
      rc := parsed.0;
    }

    /** `plot_xy_set_wcs_filename`: the old header is dropped; -1 when the
        new file cannot be read, which leaves no header. */
    method SetWcsFilename(name: string, libs: Libs) returns (rc: int)
      modifies this
      ensures Snapshot() == old(Snapshot()).(wcs := libs.readWcs(name))
      ensures rc == (if wcs.None? then -1 else 0)
    {
      wcs := libs.readWcs(name);
      if wcs.None? {
        return -1;
      }
      return 0;
    }

    /** `plot_xy_command`: dispatch on the command name. */
    method Command(cmd: string, arg: string, libs: Libs) returns (rc: int)
      modifies this
      ensures (rc, Snapshot()) == ApplyCommand(old(Snapshot()), cmd, arg, libs)
    {
      if cmd == "xy_file" {
        SetFilename(Some(arg));
      } else if cmd == "xy_ext" {
        ext := libs.atoi(arg);
      } else if cmd == "xy_xcol" {
        SetXCol(Some(arg));
      } else if cmd == "xy_ycol" {
        SetYCol(Some(arg));
      } else if cmd == "xy_xoff" {
        xoff := libs.atof(arg);
      } else if cmd == "xy_yoff" {
        yoff := libs.atof(arg);
      } else if cmd == "xy_firstobj" {
        firstobj := libs.atoi(arg);
      } else if cmd == "xy_nobjs" {
        nobjs := libs.atoi(arg);
      } else if cmd == "xy_scale" {
        scale := libs.atof(arg);
      } else if cmd == "xy_bgcolor" {
        var _ := SetBg(arg, libs);
      } else if cmd == "xy_bglw" {
        bglw := libs.atof(arg);
      } else if cmd == "xy_wcs" {
        rc := SetWcsFilename(arg, libs);
        return;
      } else {
        return -1;
      }
      return 0;
    }

    /** The shift loop of `plot_xy_plot` on the first `nxy` entries of `xy`,
        skipped when both offsets are 0. */
    method ShiftPoints(xy: array<Point>, nxy: int)
      requires nxy <= xy.Length
      modifies xy
      ensures xy[..] == Shifted(old(xy[..]), nxy, xoff, yoff)
    {
      ghost var original := xy[..];
      if xoff != 0.0 || yoff != 0.0 {
        var i := 0;
        while i < nxy
          invariant 0 <= i && (i <= nxy || i == 0)
          invariant forall k :: 0 <= k < i ==> xy[k] == Shift(original[k], xoff, yoff)
          invariant forall k :: i <= k < xy.Length ==> xy[k] == original[k]
        {
          xy[i] := Point(xy[i].x - xoff, xy[i].y - yoff);
          i := i + 1;
        }
      }
      assert forall k :: 0 <= k < xy.Length ==> xy[k] == Shifted(original, nxy, xoff, yoff)[k];
    }

    /** The scale loop of `plot_xy_plot` on the first `nxy` entries of `xy`,
        skipped when the scale is 1. */
    method ScalePoints(xy: array<Point>, nxy: int)
      requires nxy <= xy.Length
      modifies xy
      ensures xy[..] == Scaled(old(xy[..]), nxy, scale)
    {
      ghost var original := xy[..];
      if scale != 1.0 {
        var i := 0;
        while i < nxy
          invariant 0 <= i && (i <= nxy || i == 0)
          invariant forall k :: 0 <= k < i ==> xy[k] == Scale(original[k], scale)
          invariant forall k :: i <= k < xy.Length ==> xy[k] == original[k]
        {
          xy[i] := Point(scale * xy[i].x, scale * xy[i].y);
          i := i + 1;
        }
      }
      assert forall k :: 0 <= k < xy.Length ==> xy[k] == Scaled(original, nxy, scale)[k];
    }

    /** The WCS loop of `plot_xy_plot`: the first `nxy` entries are moved from
        the plotter's WCS to the plot's. */
    method Reproject(xy: array<Point>, nxy: int, w: Wcs, libs: Libs)
      requires nxy <= xy.Length
      modifies xy
      ensures xy[..] == ReprojectedPrefix(old(xy[..]), nxy, w, libs)
    {
      ghost var original := xy[..];
      var i := 0;
      while i < nxy
        invariant 0 <= i && (i <= nxy || i == 0)
        invariant forall k :: 0 <= k < i ==> xy[k] == Reprojected(original[k], w, libs)
        invariant forall k :: i <= k < xy.Length ==> xy[k] == original[k]
      {
        var (ra, dec) := libs.pixelToRadec(w, xy[i].x + 1.0, xy[i].y + 1.0);
        var (x, y) := libs.radecToPixel(ra, dec);
        xy[i] := Point(x - 1.0, y - 1.0);
        i := i + 1;
      }
      assert forall k :: 0 <= k < xy.Length ==> xy[k] == ReprojectedPrefix(original, nxy, w, libs)[k];
    }

    /** One marker loop of `plot_xy_plot`: a marker per index from `firstobj`
        (from 0 when that is negative) up to `nxy`, in order. */
    method DrawMarkers(xy: array<Point>, nxy: int) returns (ms: seq<Marker>)
      requires nxy <= xy.Length
      ensures ms == Markers(xy[..], firstobj, nxy)
    {
      var start := if firstobj < 0 then 0 else firstobj;
      var i := start;
      ms := [];
      while i < nxy
        invariant start <= i && (i <= nxy || i == start)
        invariant ms == MarkersAt(xy[..], Range(start, i))
      {
        ms := ms + [Marker(i, xy[i].x + 0.5, xy[i].y + 0.5)];
        i := i + 1;
      }
    }

    /** `plot_xy_plot`: read the xylist named by the settings, cap, shift,
        scale and reproject its points, and draw them. */
    method Plot(libs: Libs, lw: real) returns (rc: int, passes: seq<Pass>)
      ensures (rc, passes) == PlotOutcome(Snapshot(), libs, lw)
    {
      if fn.None? {
        return -1, [];
      }
      var read := libs.readXylist(fn.value, ext, xcol, ycol);
      if !read.Field? {
        return -1, [];
      }
      var pts := read.points;
      var xy := new Point[|pts|](i requires 0 <= i < |pts| => pts[i]);
      assert xy[..] == pts;
      var nxy := WorkingCount(|pts|, nobjs);
      ShiftPoints(xy, nxy);
      ScalePoints(xy, nxy);
      if wcs.Some? {
        Reproject(xy, nxy, wcs.value, libs);
      }
      assert xy[..] == PreparedPoints(pts, nxy, xoff, yoff, scale, wcs, libs);
      passes := [];
      if bgrgba.a != 0.0 {
        var width := if bglw != 0.0 then bglw else lw + 2.0;
        var background := DrawMarkers(xy, nxy);
        passes := [Background(width, bgrgba, background)];
      }
      var foreground := DrawMarkers(xy, nxy);
      passes := passes + [Foreground(foreground)];
      rc := 0;
    }
  }
}
