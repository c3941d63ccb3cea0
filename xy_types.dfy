/** Value types shared by the model of the "xy" plotter (blind/plotxy.c), and
    the functions of other libraries that the plotter calls. Those functions
    are not modelled; they are fields of `Libs`, which every operation that
    needs one receives as a parameter. */
module XyTypes {

  datatype Option<+T> = None | Some(value: T)

  /** A C `int`; `atoi` and the integer fields of `plotxy_t` have this range. */
  type CInt = x: int | -0x8000_0000 <= x < 0x8000_0000

  /** The four floats of `plotxy_t.bgrgba`; `a` (index 3) is the alpha. */
  datatype Rgba = Rgba(r: real, g: real, b: real, a: real)

  /** One entry of a `starxy_t` list: a star position in pixels. */
  datatype Point = Point(x: real, y: real)

  /** An opaque handle to a TAN or SIP header read from a WCS file. */
  datatype Wcs = Wcs(handle: nat)

  /** What opening an xylist file and reading one of its FITS extensions gives. */
  datatype XyRead = OpenFailed | ReadFailed | Field(points: seq<Point>)

  /** The calls into code outside the plotter, as total functions:
      - `atoi`, `atof`: the C library's number parsers;
      - `parseColorRgba(colour, current)`: `parse_color_rgba`, giving its
        return code and the contents of the rgba buffer afterwards;
      - `readWcs(file)`: `sip_read_tan_or_sip_header_file_ext`, `None` for NULL;
      - `readXylist(file, ext, xcol, ycol)`: `xylist_open` followed by
        `xylist_read_field_num`, with the column names set when given;
      - `pixelToRadec(wcs, x, y)`: `sip_pixelxy2radec` on the plotter's WCS;
      - `radecToPixel(ra, dec)`: `sip_radec2pixelxy` on the plot's own WCS. */
  datatype Libs = Libs(
    atoi: string -> CInt,
    atof: string -> real,
    parseColorRgba: (string, Rgba) -> (int, Rgba),
    readWcs: string -> Option<Wcs>,
    readXylist: (string, CInt, Option<string>, Option<string>) -> XyRead,
    pixelToRadec: (Wcs, real, real) -> (real, real),
    radecToPixel: (real, real) -> (real, real))
}
