/** The ImageJ 1.x shape records the adaptation layer wraps and builds: a
    straight line, a polygon-type shape (polyline, angle, freeline, ...), a
    point selection, an oval and a plain rectangle. Each is a mutable object
    whose fields the wrappers read afresh on every call. Coordinates are exact
    reals; the attached display (an ImagePlus) is reduced to a flag. */
module LegacyRois {

  import opened Geometry

  /** The shape type tags of ImageJ 1.x (`Roi.RECTANGLE` ... `Roi.POINT`);
      `StraightLine` is `Roi.LINE` and `PointSelection` is `Roi.POINT`. */
  datatype RoiType =
    | Rectangle | Oval | Polygon | FreeRoi | TracedRoi | StraightLine
    | Polyline | FreeLine | Angle | Composite | PointSelection

  /** Which class a rectangle-typed shape really is: image and text overlays
      carry the RECTANGLE tag too. */
  datatype RoiKind = Plain | ImageOverlay | TextOverlay

  /** A straight line with real endpoints (x1d, y1d) and (x2d, y2d). */
  class Line {
    var x1d: real
    var y1d: real
    var x2d: real
    var y2d: real

    constructor (x1: real, y1: real, x2: real, y2: real)
      ensures x1d == x1 && y1d == y1 && x2d == x2 && y2d == y2
    {
      x1d, y1d, x2d, y2d := x1, y1, x2, y2;
    }
  }

  /** A shape given by a vertex list: polygon, polyline, angle, freeline and
      the like, with its stroke width, spline flag and display flag. */
  class PolygonRoi {
    var roiType: RoiType
    var xs: seq<real>
    var ys: seq<real>
    var strokeWidth: real
    var splineFit: bool
    var hasImage: bool

    /** The two coordinate sequences describe the same vertices. */
    ghost predicate Valid()
      reads this
    {
      |xs| == |ys|
    }

    /** A new shape of type `t` over the given vertices: no stroke width, not
        spline fitted, not shown in any image. */
    constructor (xs: seq<real>, ys: seq<real>, t: RoiType)
      requires |xs| == |ys|
      ensures Valid()
      ensures this.xs == xs && this.ys == ys && roiType == t
      ensures strokeWidth == 0.0 && !splineFit && !hasImage
    {
      this.xs, this.ys, roiType := xs, ys, t;
      strokeWidth, splineFit, hasImage := 0.0, false, false;
    }

    /** Removes vertex `i` in place (the display's handle deletion). */
    method DeleteVertex(i: nat)
      requires Valid() && i < |xs|
      modifies this`xs, this`ys
      ensures Valid()
      ensures xs == RemoveAt(old(xs), i) && ys == RemoveAt(old(ys), i)
    {
      xs, ys := RemoveAt(xs, i), RemoveAt(ys, i);
    }
  }

  /** A point selection: a list of points and a display flag. */
  class PointRoi {
    var roiType: RoiType
    var xs: seq<real>
    var ys: seq<real>
    var hasImage: bool

    ghost predicate Valid()
      reads this
    {
      |xs| == |ys|
    }

    constructor (xs: seq<real>, ys: seq<real>)
      requires |xs| == |ys|
      ensures Valid()
      ensures this.xs == xs && this.ys == ys && roiType == PointSelection && !hasImage
    {
      this.xs, this.ys, roiType, hasImage := xs, ys, PointSelection, false;
    }
  }

  /** An oval inscribed in the rectangle with base (x, y) and size
      width x height. */
  class OvalRoi {
    var roiType: RoiType
    var x: real
    var y: real
    var width: real
    var height: real

    constructor (x: real, y: real, width: real, height: real)
      ensures this.x == x && this.y == y && this.width == width && this.height == height
      ensures roiType == Oval
    {
      this.x, this.y, this.width, this.height, roiType := x, y, width, height, Oval;
    }
  }

  /** A rectangle with base (x, y), size width x height and corner diameter
      (non-zero for a rounded rectangle). */
  class Roi {
    var roiType: RoiType
    var x: real
    var y: real
    var width: real
    var height: real
    var cornerDiameter: int
    const kind: RoiKind

    /** A plain, square-cornered rectangle. */
    constructor (x: real, y: real, width: real, height: real)
      ensures this.x == x && this.y == y && this.width == width && this.height == height
      ensures roiType == Rectangle && cornerDiameter == 0 && kind == Plain
    {
      this.x, this.y, this.width, this.height := x, y, width, height;
      roiType, cornerDiameter, kind := Rectangle, 0, Plain;
    }

    /** An image or text overlay: a rectangle-typed shape of another class. */
    constructor Overlay(k: RoiKind, x: real, y: real, width: real, height: real)
      ensures this.x == x && this.y == y && this.width == width && this.height == height
      ensures roiType == Rectangle && cornerDiameter == 0 && kind == k
    {
      this.x, this.y, this.width, this.height := x, y, width, height;
      roiType, cornerDiameter, kind := Rectangle, 0, k;
    }
  }
}
