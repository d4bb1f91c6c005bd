/** BoxToRoiConverter: any two-dimensional box mask becomes a fresh, plain
    ImageJ 1.x rectangle with the box's lower corner as base and its side
    lengths as size. The rectangle has no notion of an open or closed
    boundary, so that part of the box is dropped and the conversion is
    declared lossy. */
module BoxToRoi {

  import opened Errors
  import opened Geometry
  import opened LegacyRois
  import RoiToBox

  /** Whether the box's faces belong to it. */
  datatype BoundaryType = Open | Closed

  /** An axis-aligned box between two corners. */
  datatype Box = Box(min: Point, max: Point, boundary: BoundaryType)
  {
    /** The extent along d. */
    function SideLength(d: int): (r: real)
      requires d == 0 || d == 1
      ensures Coord(min, d) + r == Coord(max, d)
    {
      Coord(max, d) - Coord(min, d)
    }

    /** Membership: between the corners, strictly so for an open box. */
    predicate Contains(p: Point)
    {
      match boundary
      case Closed => InInterval(min, max, p)
      case Open => min.x < p.x < max.x && min.y < p.y < max.y
    }
  }

  /** The converter admits that it loses information: two different boxes,
      differing only in their boundary, give the same rectangle. */
  function IsLossy(): (lossy: bool)
    ensures lossy <==> exists b1: Box, b2: Box :: b1 != b2 && b1.min == b2.min && b1.max == b2.max
  {
    var o := Point(0.0, 0.0);
    assert Box(o, o, Open) != Box(o, o, Closed);
    true
  }

  /** `roi` is the rectangle the converter builds from `box`. */
  predicate ConvertedFrom(roi: Roi, box: Box)
    reads roi
  {
    roi.x == box.min.x && roi.y == box.min.y &&
    roi.width == box.SideLength(0) && roi.height == box.SideLength(1) &&
    roi.roiType == Rectangle && roi.cornerDiameter == 0 && roi.kind == Plain
  }

  /** Base from realMin, size from sideLength; the boundary is not read. */
  method Convert(box: Box) returns (roi: Roi)
    ensures fresh(roi)
    ensures ConvertedFrom(roi, box)
  {
    roi := new Roi(box.min.x, box.min.y, box.SideLength(0), box.SideLength(1));
  }

  /** Boxes that differ only in their boundary give the same rectangle. */
  lemma BoundaryDiscarded(roi: Roi, b1: Box, b2: Box)
    requires b1.min == b2.min && b1.max == b2.max
    ensures ConvertedFrom(roi, b1) <==> ConvertedFrom(roi, b2)
  {
  }

  /** The converted rectangle is accepted back by the rectangle-to-box
      guard, and the box view of it reports the original box's corners. */
  lemma RoundTripBounds(box: Box, w: RoiToBox.RoiWrapper)
    requires ConvertedFrom(w.roi, box)
    ensures RoiToBox.SupportedType(w.roi)
    ensures w.RealMin(0) == Ok(box.min.x) && w.RealMin(1) == Ok(box.min.y)
    ensures w.RealMax(0) == Ok(box.max.x) && w.RealMax(1) == Ok(box.max.y)
  {
    assert box.min.x + box.SideLength(0) == box.max.x;
    assert box.min.y + box.SideLength(1) == box.max.y;
  }

  /** A closed box survives the round trip: the box view of the converted
      rectangle contains exactly the points the box contains. */
  lemma ClosedRoundTrip(box: Box, w: RoiToBox.RoiWrapper, p: Point)
    requires box.boundary == Closed && ConvertedFrom(w.roi, box)
    ensures w.Test(p) <==> box.Contains(p)
  {
    RoundTripBounds(box, w);
  }

  /** Why the converter is lossy: the box view of the rectangle built from a
      non-empty open box contains the box's lower corner, which the open box
      does not. */
  lemma OpenBoundaryLost(box: Box, w: RoiToBox.RoiWrapper)
    requires box.boundary == Open && box.min.x <= box.max.x && box.min.y <= box.max.y
    requires ConvertedFrom(w.roi, box)
    ensures w.Test(box.min) && !box.Contains(box.min)
  {
    RoundTripBounds(box, w);
  }
}
