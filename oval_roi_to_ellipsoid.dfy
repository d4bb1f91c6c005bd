/** OvalRoiToEllipsoidConverter: an ImageJ 1.x oval is exposed as a closed
    two-dimensional ellipsoid backed by the oval itself. The center is the
    middle of the oval's bounding rectangle and the semi-axes are half its
    width and height; moving the center moves the oval, while the semi-axes
    cannot be changed through the view. */
module OvalRoiToEllipsoid {

  import opened Errors
  import opened Geometry
  import opened LegacyRois

  /** The converter's guard: the OVAL tag. */
  predicate SupportedType(src: OvalRoi): (b: bool)
    reads src
    ensures b <==> src.roiType == Oval
  {
    src.roiType == Oval
  }

  class OvalRoiWrapper {
    const roi: OvalRoi

    constructor (src: OvalRoi)
      ensures roi == src
    {
      roi := src;
    }

    /** The middle of the oval's bounding rectangle. */
    function Center(): (c: Point)
      reads roi
      ensures c.x - roi.x == roi.width / 2.0 && c.y - roi.y == roi.height / 2.0
    {
      Point(roi.x + roi.width / 2.0, roi.y + roi.height / 2.0)
    }

    /** Half the width along x, half the height along y. */
    function SemiAxisLength(d: int): (r: Result<real>)
      reads roi
      ensures r.Err? <==> d != 0 && d != 1
      ensures r.Err? ==> r.error == InvalidDimension(d)
      ensures r.Ok? ==> 2.0 * r.value == if d == 0 then roi.width else roi.height
    {
      if d == 0 then Ok(roi.width / 2.0)
      else if d == 1 then Ok(roi.height / 2.0)
      else Err(InvalidDimension(d))
    }

    /** The lower bound along d: the center minus the semi-axis, which is
        the oval's base coordinate. */
    function RealMin(d: int): (r: Result<real>)
      reads roi
      ensures r.Err? <==> d != 0 && d != 1
      ensures r.Ok? ==> r.value == Coord(Center(), d) - SemiAxisLength(d).value
      ensures r.Ok? ==> r.value == if d == 0 then roi.x else roi.y
    {
      if d == 0 then Ok(roi.x) else if d == 1 then Ok(roi.y) else Err(InvalidDimension(d))
    }

    /** The upper bound along d: the center plus the semi-axis, which is the
        far edge of the oval's bounding rectangle. */
    function RealMax(d: int): (r: Result<real>)
      reads roi
      ensures r.Err? <==> d != 0 && d != 1
      ensures r.Ok? ==> r.value == Coord(Center(), d) + SemiAxisLength(d).value
    {
      if d == 0 then Ok(roi.x + roi.width)
      else if d == 1 then Ok(roi.y + roi.height)
      else Err(InvalidDimension(d))
    }

    /** Closed containment in the ellipse with this center and these
        semi-axes; every contained point lies within the bounds. */
    function Test(p: Point): (b: bool)
      reads roi
      ensures b <==> EllipseContains(Center(), SemiAxisLength(0).value, SemiAxisLength(1).value, p)
      ensures b ==> roi.width > 0.0 && roi.height > 0.0
      ensures b ==> RealMin(0).value <= p.x <= RealMax(0).value &&
                    RealMin(1).value <= p.y <= RealMax(1).value
    {
      var c := Center();
      var a := roi.width / 2.0;
      var e := roi.height / 2.0;
      if EllipseContains(c, a, e, p) then
        EllipseWithinBox(c, a, e, p);
        true
      else
        false
    }

    /** Moves the oval so that its center is `c`; its size is kept, and a
        point is contained afterwards exactly when the point shifted back by
        the same offset was contained before. */
    method SetCenter(c: Point)
      modifies roi`x, roi`y
      ensures Center() == c
      ensures roi.width == old(roi.width) && roi.height == old(roi.height)
      ensures roi.x - old(roi.x) == c.x - old(Center()).x
      ensures roi.y - old(roi.y) == c.y - old(Center()).y
      ensures forall p :: Test(p) == old(Test(Translate(p, Point(Center().x - c.x, Center().y - c.y))))
    {
      ghost var c0 := Center();
      roi.x := c.x - roi.width / 2.0;
      roi.y := c.y - roi.height / 2.0;
      MoveShiftsAll(c0, c, roi.width / 2.0, roi.height / 2.0);
    }

    /** The semi-axes are fixed by the oval: every request is refused and
        the oval is left as it is. */
    method SetSemiAxisLength(d: int, length: real) returns (o: Outcome)
      ensures o == Fail(UnsupportedMutation("setSemiAxisLength"))
    {
      o := Fail(UnsupportedMutation("setSemiAxisLength"));
    }

    /** Unwrapping gives back the oval itself. */
    function GetRoi(): (r: OvalRoi)
      ensures r == roi
    {
      roi
    }
  }

  /** The ellipsoid is a live view of `src`, not a copy. */
  method Convert(src: OvalRoi) returns (w: OvalRoiWrapper)
    ensures w.roi == src && w.GetRoi() == src
  {
    w := new OvalRoiWrapper(src);
  }

  /** Moving the center moves membership with it: after the center goes
      from c0 to c, p is contained exactly when p - (c - c0) was before. */
  lemma MoveShiftsMembership(c0: Point, c: Point, a: real, b: real, p: Point)
    ensures EllipseContains(c, a, b, p) ==
            EllipseContains(c0, a, b, Translate(p, Point(c0.x - c.x, c0.y - c.y)))
  {
    var delta := Point(c0.x - c.x, c0.y - c.y);
    EllipseTranslation(c, a, b, p, delta);
    assert Translate(c, delta) == c0;
  }

  /** MoveShiftsMembership for every point at once. */
  lemma MoveShiftsAll(c0: Point, c: Point, a: real, b: real)
    ensures forall p :: EllipseContains(c, a, b, p) ==
                        EllipseContains(c0, a, b, Translate(p, Point(c0.x - c.x, c0.y - c.y)))
  {
    forall p
      ensures EllipseContains(c, a, b, p) ==
              EllipseContains(c0, a, b, Translate(p, Point(c0.x - c.x, c0.y - c.y)))
    {
      MoveShiftsMembership(c0, c, a, b, p);
    }
  }

  /** A non-degenerate oval contains its center and the four points where
      the ellipse touches its bounding rectangle. */
  lemma ExtremesContained(w: OvalRoiWrapper)
    requires w.roi.width > 0.0 && w.roi.height > 0.0
    ensures w.Test(w.Center())
    ensures w.Test(Point(w.RealMax(0).value, w.Center().y))
    ensures w.Test(Point(w.RealMin(0).value, w.Center().y))
    ensures w.Test(Point(w.Center().x, w.RealMax(1).value))
    ensures w.Test(Point(w.Center().x, w.RealMin(1).value))
  {
    EllipseCenterAndExtremes(w.Center(), w.roi.width / 2.0, w.roi.height / 2.0);
  }

  /** The sample oval: base (10, 22), size 7 x 4, so center (13.5, 24) and
      semi-axes (3.5, 2). (12.125, 23) is inside, (17, 24) is on the boundary
      and (101, 41.125) is outside. With the center moved to (100, 40.5) the
      first two are outside, (101, 41.125) and (100, 42.5) are contained, and
      the bounds become [96.5, 103.5] x [38.5, 42.5]. */
  lemma SampleOval()
    ensures EllipseContains(Point(13.5, 24.0), 3.5, 2.0, Point(12.125, 23.0))
    ensures EllipseContains(Point(13.5, 24.0), 3.5, 2.0, Point(17.0, 24.0))
    ensures !EllipseContains(Point(13.5, 24.0), 3.5, 2.0, Point(101.0, 41.125))
    ensures !EllipseContains(Point(13.5, 24.0), 3.5, 2.0, Point(100.0, 42.5))
    ensures !EllipseContains(Point(100.0, 40.5), 3.5, 2.0, Point(12.125, 23.0))
    ensures !EllipseContains(Point(100.0, 40.5), 3.5, 2.0, Point(17.0, 24.0))
    ensures EllipseContains(Point(100.0, 40.5), 3.5, 2.0, Point(101.0, 41.125))
    ensures EllipseContains(Point(100.0, 40.5), 3.5, 2.0, Point(100.0, 42.5))
  {
    assert (12.125 - 13.5) / 3.5 == -11.0 / 28.0;
    assert (17.0 - 13.5) / 3.5 == 1.0;
    assert (101.0 - 13.5) / 3.5 == 25.0;
    assert (100.0 - 13.5) / 3.5 == 173.0 / 7.0;
    assert (12.125 - 100.0) / 3.5 == -703.0 / 28.0;
    assert (17.0 - 100.0) / 3.5 == -166.0 / 7.0;
    assert (101.0 - 100.0) / 3.5 == 2.0 / 7.0;
    assert (41.125 - 40.5) / 2.0 == 0.3125;
  }

  /** The sample oval's bounds before and after the move. */
  lemma SampleBounds(w: OvalRoiWrapper)
    requires w.roi.x == 10.0 && w.roi.y == 22.0 && w.roi.width == 7.0 && w.roi.height == 4.0
    ensures w.Center() == Point(13.5, 24.0)
    ensures w.SemiAxisLength(0) == Ok(3.5) && w.SemiAxisLength(1) == Ok(2.0)
    ensures w.RealMin(0) == Ok(10.0) && w.RealMin(1) == Ok(22.0)
    ensures w.RealMax(0) == Ok(17.0) && w.RealMax(1) == Ok(26.0)
  {
  }

  /** After SetCenter(100, 40.5) on the sample oval the base is (96.5, 38.5)
      and the far edge (103.5, 42.5). */
  lemma SampleMovedBounds(w: OvalRoiWrapper)
    requires w.roi.width == 7.0 && w.roi.height == 4.0 && w.Center() == Point(100.0, 40.5)
    ensures w.RealMin(0) == Ok(96.5) && w.RealMin(1) == Ok(38.5)
    ensures w.RealMax(0) == Ok(103.5) && w.RealMax(1) == Ok(42.5)
  {
  }
}
