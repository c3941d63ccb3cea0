/** The settings record of the "xy" plotter (`plotxy_t`) as a value, and the
    meaning of the plotter's commands (`plot_xy_command`) on that value. */
module XySettings {
  import opened XyTypes

  /** `plotxy_t`: a NULL pointer is `None`; `wcs` is the header read from the
      file named by the `xy_wcs` command. */
  datatype Settings = Settings(
    fn: Option<string>,
    ext: CInt,
    xcol: Option<string>,
    ycol: Option<string>,
    xoff: real,
    yoff: real,
    firstobj: CInt,
    nobjs: CInt,
    scale: real,
    bgrgba: Rgba,
    bglw: real,
    wcs: Option<Wcs>)

  /** The fields of `plotxy_t`, one per command. */
  datatype Field =
    | FileName | Extension | XColumn | YColumn | XOffset | YOffset
    | FirstObject | ObjectCount | ScaleFactor | BgColor | BgLineWidth | WcsFile

  /** The field a command name sets, `None` for a name the plotter does not know. */
  function FieldOf(cmd: string): Option<Field> {
    if cmd == "xy_file" then Some(FileName)
    else if cmd == "xy_ext" then Some(Extension)
    else if cmd == "xy_xcol" then Some(XColumn)
    else if cmd == "xy_ycol" then Some(YColumn)
    else if cmd == "xy_xoff" then Some(XOffset)
    else if cmd == "xy_yoff" then Some(YOffset)
    else if cmd == "xy_firstobj" then Some(FirstObject)
    else if cmd == "xy_nobjs" then Some(ObjectCount)
    else if cmd == "xy_scale" then Some(ScaleFactor)
    else if cmd == "xy_bgcolor" then Some(BgColor)
    else if cmd == "xy_bglw" then Some(BgLineWidth)
    else if cmd == "xy_wcs" then Some(WcsFile)
    else None
  }

  /** `s` and `t` hold the same value in field `f`. */
  predicate SameField(s: Settings, t: Settings, f: Field) {
    match f
    case FileName => s.fn == t.fn
    case Extension => s.ext == t.ext
    case XColumn => s.xcol == t.xcol
    case YColumn => s.ycol == t.ycol
    case XOffset => s.xoff == t.xoff
    case YOffset => s.yoff == t.yoff
    case FirstObject => s.firstobj == t.firstobj
    case ObjectCount => s.nobjs == t.nobjs
    case ScaleFactor => s.scale == t.scale
    case BgColor => s.bgrgba == t.bgrgba
    case BgLineWidth => s.bglw == t.bglw
    case WcsFile => s.wcs == t.wcs
  }

  /** The return code of `plot_xy_command(cmd, arg)` and the settings it leaves.
      Each recognised command stores a copy of `arg`, or what `atoi`, `atof`,
      the colour parser or the WCS reader make of it, in its own field, and
      only that field may change; every recognised command
      but `xy_wcs` returns 0, whatever its argument; an unknown name returns -1
      and changes nothing. `xy_bgcolor` discards the status of the colour
      parser; `xy_wcs` returns -1 exactly when the header cannot be read. */
  function ApplyCommand(s: Settings, cmd: string, arg: string, libs: Libs): (r: (int, Settings))
    ensures r.0 == 0 || r.0 == -1
    ensures forall f :: Some(f) != FieldOf(cmd) ==> SameField(s, r.1, f)
    ensures FieldOf(cmd).None? ==> r == (-1, s)
    ensures r.0 == -1 <==> FieldOf(cmd).None? || (cmd == "xy_wcs" && libs.readWcs(arg).None?)
    ensures cmd == "xy_file" ==> r.1.fn == Some(arg)
    ensures cmd == "xy_ext" ==> r.1.ext == libs.atoi(arg)
    ensures cmd == "xy_xcol" ==> r.1.xcol == Some(arg)
    ensures cmd == "xy_ycol" ==> r.1.ycol == Some(arg)
    ensures cmd == "xy_xoff" ==> r.1.xoff == libs.atof(arg)
    ensures cmd == "xy_yoff" ==> r.1.yoff == libs.atof(arg)
    ensures cmd == "xy_firstobj" ==> r.1.firstobj == libs.atoi(arg)
    ensures cmd == "xy_nobjs" ==> r.1.nobjs == libs.atoi(arg)
    ensures cmd == "xy_scale" ==> r.1.scale == libs.atof(arg)
    ensures cmd == "xy_bgcolor" ==> r.1.bgrgba == libs.parseColorRgba(arg, s.bgrgba).1
    ensures cmd == "xy_bglw" ==> r.1.bglw == libs.atof(arg)
    ensures cmd == "xy_wcs" ==> r.1.wcs == libs.readWcs(arg)
  {
    match FieldOf(cmd)
    case None => (-1, s)
    case Some(f) => SetField(s, f, arg, libs)
  }

  /** What a recognised command does to its own field `f`. */
  function SetField(s: Settings, f: Field, arg: string, libs: Libs): (int, Settings) {
    match f
    case FileName => (0, s.(fn := Some(arg)))
    case Extension => (0, s.(ext := libs.atoi(arg)))
    case XColumn => (0, s.(xcol := Some(arg)))
    case YColumn => (0, s.(ycol := Some(arg)))
    case XOffset => (0, s.(xoff := libs.atof(arg)))
    case YOffset => (0, s.(yoff := libs.atof(arg)))
    case FirstObject => (0, s.(firstobj := libs.atoi(arg)))
    case ObjectCount => (0, s.(nobjs := libs.atoi(arg)))
    case ScaleFactor => (0, s.(scale := libs.atof(arg)))
    case BgColor => (0, s.(bgrgba := libs.parseColorRgba(arg, s.bgrgba).1))
    case BgLineWidth => (0, s.(bglw := libs.atof(arg)))
    case WcsFile =>
      var w := libs.readWcs(arg);
      (if w.None? then -1 else 0, s.(wcs := w))
  }

  /** Every command but `xy_bgcolor` overwrites its field with a value that
      depends on the argument alone, so the second of two such commands wins. */
  lemma LastWriteWins(s: Settings, cmd: string, first: string, second: string, libs: Libs)
    requires cmd != "xy_bgcolor"
    ensures ApplyCommand(ApplyCommand(s, cmd, first, libs).1, cmd, second, libs)
         == ApplyCommand(s, cmd, second, libs)
  {
  }

  /** Repeating such a command, a string setter among them, changes nothing more. */
  lemma RepeatIsIdempotent(s: Settings, cmd: string, arg: string, libs: Libs)
    requires cmd != "xy_bgcolor"
    ensures var once := ApplyCommand(s, cmd, arg, libs);
            ApplyCommand(once.1, cmd, arg, libs) == once
  {
    LastWriteWins(s, cmd, arg, arg, libs);
  }

  /** `SetField` field by field: field `f` takes its new value, which for
      the colour depends on the old colour only, and every other field keeps
      its value. */
  lemma SetFieldByComponent(s: Settings, f: Field, arg: string, libs: Libs)
    ensures SetField(s, f, arg, libs).1 == Settings(
      if f == FileName then Some(arg) else s.fn,
      if f == Extension then libs.atoi(arg) else s.ext,
      if f == XColumn then Some(arg) else s.xcol,
      if f == YColumn then Some(arg) else s.ycol,
      if f == XOffset then libs.atof(arg) else s.xoff,
      if f == YOffset then libs.atof(arg) else s.yoff,
      if f == FirstObject then libs.atoi(arg) else s.firstobj,
      if f == ObjectCount then libs.atoi(arg) else s.nobjs,
      if f == ScaleFactor then libs.atof(arg) else s.scale,
      if f == BgColor then libs.parseColorRgba(arg, s.bgrgba).1 else s.bgrgba,
      if f == BgLineWidth then libs.atof(arg) else s.bglw,
      if f == WcsFile then libs.readWcs(arg) else s.wcs)
  {
  }

  /** Commands on different fields (or an unknown one) may be given in either order. */
  lemma DistinctFieldsCommute(s: Settings, c1: string, a1: string, c2: string, a2: string, libs: Libs)
    requires FieldOf(c1).None? || FieldOf(c1) != FieldOf(c2)
    ensures ApplyCommand(ApplyCommand(s, c1, a1, libs).1, c2, a2, libs).1
         == ApplyCommand(ApplyCommand(s, c2, a2, libs).1, c1, a1, libs).1
  {
    match FieldOf(c2)
    case None =>
    case Some(f2) =>
      match FieldOf(c1)
      case None =>
      case Some(f1) =>
        var t1 := SetField(s, f1, a1, libs).1;
        var t2 := SetField(s, f2, a2, libs).1;
        SetFieldByComponent(s, f1, a1, libs);
        SetFieldByComponent(s, f2, a2, libs);
        SetFieldByComponent(t1, f2, a2, libs);
        SetFieldByComponent(t2, f1, a1, libs);
  }
}
