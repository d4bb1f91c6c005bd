/** RoiToBoxConverter: a square-cornered ImageJ 1.x rectangle that is not an
    image or text overlay is exposed as a box mask backed by the rectangle
    itself. */
module RoiToBox {

  import opened Errors
  import opened Geometry
  import opened LegacyRois

  /** The converter's guard: the RECTANGLE tag, corner diameter 0, and not an
      image or text overlay (both of which carry the RECTANGLE tag). */
  predicate SupportedType(src: Roi): (b: bool)
    reads src
    ensures b <==> src.roiType == Rectangle && src.cornerDiameter == 0 && src.kind == Plain
  {
    src.roiType == Rectangle && src.cornerDiameter == 0 &&
    src.kind != ImageOverlay && src.kind != TextOverlay
  }

  /** The box view of a rectangle: bounds [x, x + width] x [y, y + height],
      read from the rectangle on every call, and closed containment. */
  class RoiWrapper {
    const roi: Roi

    constructor (src: Roi)
      ensures roi == src
    {
      roi := src;
    }

    function RealMin(d: int): (r: Result<real>)
      reads roi
      ensures r.Err? <==> d != 0 && d != 1
      ensures r.Ok? ==> r.value == if d == 0 then roi.x else roi.y
    {
      if d == 0 then Ok(roi.x) else if d == 1 then Ok(roi.y) else Err(InvalidDimension(d))
    }

    function RealMax(d: int): (r: Result<real>)
      reads roi
      ensures r.Err? <==> d != 0 && d != 1
      ensures r.Ok? ==> r.value == if d == 0 then roi.x + roi.width else roi.y + roi.height
    {
      if d == 0 then Ok(roi.x + roi.width)
      else if d == 1 then Ok(roi.y + roi.height)
      else Err(InvalidDimension(d))
    }

    /** p lies in the closed interval between the two bound corners. */
    function Test(p: Point): (b: bool)
      reads roi
      ensures b <==> (RealMin(0).value <= p.x <= RealMax(0).value &&
                      RealMin(1).value <= p.y <= RealMax(1).value)
    {
      InInterval(Point(roi.x, roi.y), Point(roi.x + roi.width, roi.y + roi.height), p)
    }

    /** Unwrapping gives back the rectangle itself. */
    function GetRoi(): (r: Roi)
      ensures r == roi
    {
      roi
    }
  }

  /** The box is a live view of `src`, not a copy. */
  method Convert(src: Roi) returns (box: RoiWrapper)
    ensures box.roi == src
    ensures box.GetRoi() == src
  {
    box := new RoiWrapper(src);
  }

  /** The guard accepts exactly the plain, square-cornered rectangles. */
  lemma SupportedExactly(src: Roi)
    ensures SupportedType(src) <==> src.roiType == Rectangle && src.cornerDiameter == 0 && src.kind == Plain
  {
  }

  /** A rounded rectangle is rejected. */
  lemma RoundedRejected(src: Roi)
    requires src.cornerDiameter != 0
    ensures !SupportedType(src)
  {
  }

  /** Image and text overlays are rejected although their tag is RECTANGLE. */
  lemma OverlaysRejected(src: Roi)
    requires src.kind == ImageOverlay || src.kind == TextOverlay
    ensures !SupportedType(src)
  {
  }

  /** A rectangle of non-negative size contains both of its bound corners. */
  lemma CornersContained(w: RoiWrapper)
    requires w.roi.width >= 0.0 && w.roi.height >= 0.0
    ensures w.Test(Point(w.roi.x, w.roi.y))
    ensures w.Test(Point(w.roi.x + w.roi.width, w.roi.y + w.roi.height))
  {
  }
}
