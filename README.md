# The "xy" plotter of astrometry.net, modelled in Dafny

astrometry.net's plotting tool is built from plotters. Each plotter is a
named table of callbacks. The "xy" plotter (`blind/plotxy.c`) draws the stars
of an xylist file as markers. Its settings record, `plotxy_t`, holds:

- the file name and its FITS extension;
- the names of the x and y columns;
- a pixel offset and a scale;
- the index of the first object to draw and a cap on the number drawn;
- a background colour and line width;
- a WCS header to reproject the points through.

`plot_xy_init` creates the record. `plot_xy_command` interprets keyword
commands (`xy_file`, `xy_ext`, … `xy_wcs`) that each set one field.
`plot_xy_plot` reads the points, caps their number, shifts, scales and
reprojects the kept ones in place, and strokes a marker for each one from
`firstobj` on. It does this twice when the background colour's alpha is non-zero: once
in that colour, then in the plot's style.

The model has four modules:

- `XyTypes` (xy_types.dfy): value types. The C library and the other
  astrometry.net libraries that the plotter calls are a record of functions,
  `Libs`, passed to the operations that need them: `atoi`, `atof`,
  `parse_color_rgba`, `sip_read_tan_or_sip_header_file_ext`, the xylist
  reader, `sip_pixelxy2radec` and `sip_radec2pixelxy`.
- `XySettings` (xy_settings.dfy): `plotxy_t` as a value, and
  `ApplyCommand`, the meaning of one command on it, with lemmas that relate
  commands to each other.
- `XyPoints` (xy_points.dfy): the count cap, the shift, scale and WCS
  transforms, and the drawn index ranges, as functions on the list of points.
- `PlotXY` (plotxy.dfy): the class `XyPlotter`, whose fields are those of
  `plotxy_t`. Its methods update the fields in place. It also has
  `PlotOutcome` (what a plot returns and draws) and lemmas about it.
  `Plot` copies the points read into a fresh array. It then runs the
  source's loops on that array: shift, scale, reproject, markers.

Coordinates, offsets, scale and colours are `real`, so arithmetic is exact.
A NULL `char*` is `None`. `strdup_safe` is modelled as a copy of the value.
Drawing is recorded as a list of passes, and each pass lists its markers:
index, then position.

## Model

| member | source | states |
|---|---|---|
| `PlotXY.XyPlotter.constructor` | blind/plotxy.c:38-43 | after `plot_xy_init`, `ext` is 1 and `scale` is 1; every other field is zero or NULL, because `calloc` zeroes them |
| `PlotXY.XyPlotter.SetFilename` | blind/plotxy.c:171-174 | the file name is replaced by a copy of the argument, and no other field changes |
| `PlotXY.XyPlotter.SetXCol` | blind/plotxy.c:161-164 | the x column name is replaced by a copy of the argument, and no other field changes |
| `PlotXY.XyPlotter.SetYCol` | blind/plotxy.c:166-169 | the y column name is replaced by a copy of the argument, and no other field changes |
| `PlotXY.XyPlotter.SetBg` | blind/plotxy.c:157-159 | the colour parser writes `bgrgba`, its status is returned, and no other field changes |
| `PlotXY.XyPlotter.SetWcsFilename` | blind/plotxy.c:176-184 | the old header is replaced by the one read; -1 exactly when it cannot be read, which leaves no header |
| `PlotXY.XyPlotter.Command` | blind/plotxy.c:186-218 | the return code and new settings are those `ApplyCommand` gives for the old settings |
| `XySettings.ApplyCommand` | blind/plotxy.c:186-218 | each recognised command stores the argument (or `atoi`, `atof`, the colour parser or the WCS reader applied to it) in its own field; returns 0 or -1; every field other than the one the command names is unchanged; an unknown name returns -1 and changes nothing; -1 exactly for an unknown name or an unreadable WCS file; `xy_bgcolor` returns 0 whatever the parser says; `xy_wcs` stores what was read, NULL on failure |
| `XySettings.LastWriteWins` | blind/plotxy.c:189-212 | for every command but `xy_bgcolor`, giving it twice has the effect of the second alone |
| `XySettings.RepeatIsIdempotent` | blind/plotxy.c:161-174 | giving the same such command twice (a string setter among them) gives the same state and code as once |
| `XySettings.DistinctFieldsCommute` | blind/plotxy.c:186-218 | two commands on different fields, or with one of them unknown, leave the same settings in either order |
| `XyPoints.WorkingCount` | blind/plotxy.c:93-96 | `Nxy` is at most the number of points read and at most a non-zero `nobjs`, and equals one of them (the count read when `nobjs` is 0) |
| `XyPoints.PreparedPoints` | blind/plotxy.c:98-125 | the transformed list has the length of the list read; entries at or past `Nxy` are as read; without a WCS it is the shifted and scaled list |
| `XyPoints.ShiftScaledAt` | blind/plotxy.c:98-110 | entry `i < Nxy` becomes `scale * (x - xoff)`, `scale * (y - yoff)`; an entry at or past `Nxy` is unchanged |
| `XyPoints.ShiftScaledIdentity` | blind/plotxy.c:98-110 | zero offsets and unit scale leave every point unchanged |
| `XyPoints.Range` | blind/plotxy.c:135-145 | the counter values of `for (i = lo; i < hi; i++)`: `hi - lo` of them (none when `lo >= hi`), the k-th equal to `lo + k` |
| `XyPoints.NegativeFirstObjVisitsIndexMinusOne` | blind/plotxy.c:145-147 | as written, `firstobj = -1` with one point read makes the marker loop visit index -1, outside the point list |
| `XyPoints.MarkerIndicesExact` | blind/plotxy.c:135-150 | the drawn indices are exactly the list positions `i` with `firstobj <= i < Nxy`, in increasing order; none when `firstobj >= Nxy`; the loop as written when `firstobj >= 0` |
| `PlotXY.XyPlotter.ShiftPoints` | blind/plotxy.c:98-104 | the first `Nxy` entries of the array are shifted by the offsets, in place; the rest are untouched |
| `PlotXY.XyPlotter.ScalePoints` | blind/plotxy.c:105-110 | the first `Nxy` entries of the array are multiplied by the scale, in place; the rest are untouched |
| `PlotXY.XyPlotter.Reproject` | blind/plotxy.c:112-125 | the first `Nxy` entries go through the plotter's WCS to the sky and back through the plot's WCS, with 1-based pixels on both calls; the rest are untouched |
| `PlotXY.XyPlotter.DrawMarkers` | blind/plotxy.c:144-150 | one marker per drawn index, in order, at the point plus half a pixel |
| `PlotXY.PlotOutcome` | blind/plotxy.c:58-155 | returns 0 or -1; -1 exactly when no file is named or the xylist cannot be opened or read, and then nothing is drawn |
| `PlotXY.XyPlotter.Plot` | blind/plotxy.c:58-155 | the code and the passes drawn are those `PlotOutcome` gives for the current settings |
| `PlotXY.PlotDrawsSelectedPoints` | blind/plotxy.c:127-150 | on success the last pass draws exactly indices `firstobj .. Nxy-1` of the list read, in increasing order, at their transformed positions plus half a pixel; a background pass comes first exactly when the background alpha is non-zero; it uses `bgrgba` and draws the same markers |
| `PlotXY.UntransformedPointsDrawnInPlace` | blind/plotxy.c:98-150 | with no offset, unit scale and no WCS, every marker sits on the point read plus half a pixel |

## Left out

- net/urls.py is a Django routing table. Django's resolver does the matching, and that resolver is not part of this model.
- compat/win32/sys/resource.h, compat/win32/sys/time.h and compat/win32/unistd.h are platform shims with no behaviour of their own.
- `plot_xy_setsize` and the xylist calls in `plot_xy_plot` are file I/O. The model receives the outcome of opening and reading the file, through `Libs.readXylist`.
- `atoi`, `atof`, `parse_color_rgba`, `sip_read_tan_or_sip_header_file_ext`, `sip_pixelxy2radec` and `sip_radec2pixelxy` are given functions, and their parsing and trigonometry are not modelled. The source ignores the status that `sip_radec2pixelxy` returns. A failing call may leave `x` and `y` holding the previous point's values, or uninitialised values for the first point. `Libs.radecToPixel(ra, dec)` always gives a value that depends on `ra` and `dec` alone, so the model does not capture that.
- IEEE floating-point rounding is not modelled: the numbers are exact reals.
- `plot_xy_free`, `free`, `starxy_free`, `cairo_save` and `cairo_restore` only release memory or graphics state.
- The marker shape, the marker size and the stroke calls belong to the plot as a whole, not to this plotter. A pass records its markers and, for the background pass, its line width and colour.
- The `ERROR` log messages are left out.
- The `assert(pargs->wcs)` check is left out: the plot's WCS is the function `Libs.radecToPixel`.
- The `plotter_xy` callback table is left out.
- PlotXY.XyPlotter.DrawMarkers starts at index 0 when `firstobj` is negative, where the source reads before the start of the point list (see Findings).
- PlotXY.PlotOutcome, PlotXY.XyPlotter.Plot and PlotXY.PlotDrawsSelectedPoints draw through `XyPoints.Markers`, so they also start at index 0 when `firstobj` is negative (see Findings).
- PlotXY.XyPlotter.Command, XySettings.ApplyCommand: the command argument `cmdargs` is taken to be non-NULL. `atoi` and `atof` of NULL are undefined, so `xy_file`, `xy_xcol` or `xy_ycol` with a NULL argument, which would clear the stored string, is not modelled. The setters themselves accept NULL (`None`).

## Findings

| source | as written | input that shows it | evidently intended | confidence | as-written member | corrected member |
|---|---|---|---|---|---|---|
| blind/plotxy.c:135-147 | both marker loops start at `i = firstobj` with no lower bound, then read `starxy_getx(xy, i)` | `xy_firstobj -1` with one point read: the loop visits index -1, outside the list | draw only positions that exist: from `max(firstobj, 0)` to `Nxy - 1` | medium; not executed | `XyPoints.NegativeFirstObjVisitsIndexMinusOne` | `XyPoints.MarkerIndicesExact` |
