/** PolylineRoiWrapper: an ImageJ 1.x POLYLINE shape seen as an ImgLib2
    polyline. Bounds and containment are read from the backing vertex lists
    on every call; adding a vertex is refused, and removing one changes the
    backing shape in place, but only while it is shown in an image. */
module PolylineRoiWrapping {

  import opened Errors
  import opened Geometry
  import opened LegacyRois

  // -- The polyline as a value ------------------------------------------------

  function Vertex(xs: seq<real>, ys: seq<real>, i: nat): Point
    requires |xs| == |ys| && i < |xs|
  {
    Point(xs[i], ys[i])
  }

  /** The i-th segment, from vertex i - 1 to vertex i, contains p. */
  predicate SegmentContains(xs: seq<real>, ys: seq<real>, i: nat, p: Point)
    requires |xs| == |ys| && 1 <= i < |xs|
  {
    OnSegment(Vertex(xs, ys, i - 1), Vertex(xs, ys, i), p)
  }

  /** Some segment between consecutive vertices contains p. */
  predicate SomeSegmentContains(xs: seq<real>, ys: seq<real>, p: Point)
    requires |xs| == |ys|
  {
    exists i :: 1 <= i < |xs| && SegmentContains(xs, ys, i, p)
  }

  /** The closed bounding interval of a non-empty vertex list contains p. */
  predicate InBounds(xs: seq<real>, ys: seq<real>, p: Point)
    requires |xs| == |ys| && |xs| > 0
  {
    InInterval(Point(SeqMin(xs), SeqMin(ys)), Point(SeqMax(xs), SeqMax(ys)), p)
  }

  /** What `test` decides: p lies in the bounding interval and on one of the
      segments between consecutive vertices (there is no closing segment). */
  predicate PolylineContains(xs: seq<real>, ys: seq<real>, p: Point)
    requires |xs| == |ys|
  {
    |xs| > 0 && InBounds(xs, ys, p) && SomeSegmentContains(xs, ys, p)
  }

  /** The wrapping constructor's checks in source order: the type tag, then
      the stroke width, then spline fitting. */
  function WrapCheck(poly: PolygonRoi): (o: Outcome)
    reads poly
    ensures o == Pass <==> poly.roiType == Polyline && poly.strokeWidth == 0.0 && !poly.splineFit
    ensures poly.roiType != Polyline ==> o == Fail(MalformedShape(NotPolyline))
    ensures o.Fail? ==> o.error.MalformedShape?
  {
    if poly.roiType != Polyline then Fail(MalformedShape(NotPolyline))
    else if poly.strokeWidth != 0.0 then Fail(MalformedShape(NonZeroStrokeWidth))
    else if poly.splineFit then Fail(MalformedShape(SplineFitted))
    else Pass
  }

  class PolylineRoiWrapper {
    const roi: PolygonRoi

    /** Wraps an existing shape that passes the constructor's checks. */
    constructor (poly: PolygonRoi)
      requires WrapCheck(poly) == Pass
      ensures roi == poly
    {
      roi := poly;
    }

    /** Builds a new POLYLINE shape from the first n given vertices and wraps
        it (the int[] and float[] array constructors). */
    constructor FromVertices(xs: seq<real>, ys: seq<real>, n: nat)
      requires n <= |xs| && n <= |ys|
      ensures fresh(roi) && roi.Valid()
      ensures roi.xs == xs[..n] && roi.ys == ys[..n]
      ensures roi.roiType == Polyline && roi.strokeWidth == 0.0 && !roi.splineFit && !roi.hasImage
    {
      roi := new PolygonRoi(xs[..n], ys[..n], Polyline);
    }

    /** The wrapping constructor with its checks: a failure names the first
        check that fails; success wraps the very same shape. */
    static method Wrap(poly: PolygonRoi) returns (r: Result<PolylineRoiWrapper>)
      ensures r.Ok? <==> WrapCheck(poly) == Pass
      ensures r.Err? ==> Fail(r.error) == WrapCheck(poly)
      ensures r.Ok? ==> r.value.roi == poly
    {
      var check := WrapCheck(poly);
      if check.Fail? {
        r := Err(check.error);
      } else {
        var w := new PolylineRoiWrapper(poly);
        r := Ok(w);
      }
    }

    function NumVertices(): (n: nat)
      reads roi
      requires roi.Valid()
      ensures n == |roi.xs| == |roi.ys|
    {
      |roi.xs|
    }

    /** Vertex i of the backing shape, or an index error. */
    function GetVertex(i: int): (r: Result<Point>)
      reads roi
      requires roi.Valid()
      ensures r.Ok? <==> 0 <= i < |roi.xs|
      ensures r.Ok? ==> r.value.x == roi.xs[i] && r.value.y == roi.ys[i]
      ensures r.Err? ==> r.error == IndexOutOfBounds(i)
    {
      if 0 <= i < |roi.xs| then Ok(Vertex(roi.xs, roi.ys, i)) else Err(IndexOutOfBounds(i))
    }

    /** The least vertex coordinate along dimension d. */
    function RealMin(d: int): (m: real)
      reads roi
      requires roi.Valid() && |roi.xs| > 0 && (d == 0 || d == 1)
      ensures IsLeast(m, if d == 0 then roi.xs else roi.ys)
    {
      CoordMin(roi.xs, roi.ys, d)
    }

    /** The greatest vertex coordinate along dimension d. */
    function RealMax(d: int): (m: real)
      reads roi
      requires roi.Valid() && |roi.xs| > 0 && (d == 0 || d == 1)
      ensures IsGreatest(m, if d == 0 then roi.xs else roi.ys)
    {
      CoordMax(roi.xs, roi.ys, d)
    }

    /** The bounding-interval pre-check, then a scan of the segments
        (v[i-1], v[i]) for 1 <= i < n with an early exit. */
    method Test(p: Point) returns (b: bool)
      requires roi.Valid()
      ensures b == PolylineContains(roi.xs, roi.ys, p)
    {
      var xs, ys := roi.xs, roi.ys;
      if |xs| == 0 || !InBounds(xs, ys, p) {
        return false;
      }
      var i := 1;
      while i < |xs|
        invariant 1 <= i <= |xs|
        invariant forall j :: 1 <= j < i ==> !SegmentContains(xs, ys, j, p)
      {
        if SegmentContains(xs, ys, i, p) {
          return true;
        }
        i := i + 1;
      }
      return false;
    }

    /** Adding a vertex is always refused; nothing changes. */
    method AddVertex(index: int, vertex: Point) returns (o: Outcome)
      ensures o == Fail(UnsupportedMutation("addVertex"))
    {
      o := Fail(UnsupportedMutation("addVertex"));
    }

    /** Without an image the removal is refused; with one, vertex `index` is
        deleted from the backing shape, or an index error is raised. */
    method RemoveVertex(index: int) returns (o: Outcome)
      requires roi.Valid()
      modifies roi`xs, roi`ys
      ensures roi.Valid()
      ensures !roi.hasImage ==> o == Fail(UnsupportedMutation("removeVertex"))
      ensures roi.hasImage && !(0 <= index < old(|roi.xs|)) ==> o == Fail(IndexOutOfBounds(index))
      ensures o.Pass? <==> roi.hasImage && 0 <= index < old(|roi.xs|)
      ensures o.Pass? ==> roi.xs == RemoveAt(old(roi.xs), index) && roi.ys == RemoveAt(old(roi.ys), index)
      ensures o.Fail? ==> roi.xs == old(roi.xs) && roi.ys == old(roi.ys)
    {
      if !roi.hasImage {
        o := Fail(UnsupportedMutation("removeVertex"));
      } else if !(0 <= index < |roi.xs|) {
        o := Fail(IndexOutOfBounds(index));
      } else {
        roi.DeleteVertex(index);
        o := Pass;
      }
    }
  }

  // -- Properties -------------------------------------------------------------

  /** A segment lies inside the bounding interval of the vertex list. */
  lemma SegmentWithinBounds(xs: seq<real>, ys: seq<real>, i: nat, p: Point)
    requires |xs| == |ys| && 1 <= i < |xs|
    requires SegmentContains(xs, ys, i, p)
    ensures InBounds(xs, ys, p)
  {
    assert SeqMin(xs) <= xs[i - 1] && SeqMin(xs) <= xs[i];
    assert SeqMax(xs) >= xs[i - 1] && SeqMax(xs) >= xs[i];
    assert SeqMin(ys) <= ys[i - 1] && SeqMin(ys) <= ys[i];
    assert SeqMax(ys) >= ys[i - 1] && SeqMax(ys) >= ys[i];
  }

  /** The interval pre-check never changes the answer: containment is
      exactly "some consecutive segment contains p". */
  lemma PrecheckRedundant(xs: seq<real>, ys: seq<real>, p: Point)
    requires |xs| == |ys|
    ensures PolylineContains(xs, ys, p) <==> SomeSegmentContains(xs, ys, p)
  {
    if SomeSegmentContains(xs, ys, p) {
      var i :| 1 <= i < |xs| && SegmentContains(xs, ys, i, p);
      SegmentWithinBounds(xs, ys, i, p);
    }
  }

  /** A point outside the bounding interval is never contained. */
  lemma OutsideBoundsNotContained(xs: seq<real>, ys: seq<real>, p: Point)
    requires |xs| == |ys| && |xs| > 0 && !InBounds(xs, ys, p)
    ensures !PolylineContains(xs, ys, p)
  {
  }

  // The vertices (1.25, 1.25), (20, 20), (50, -30), (79, -1).
  const SampleXs: seq<real> := [1.25, 20.0, 50.0, 79.0]
  const SampleYs: seq<real> := [1.25, 20.0, -30.0, -1.0]

  /** On the sample polyline, (10, 10), (35, -5) and (51.25, -28.75) lie on
      the first, second and third segment; (0, 0) and (17, 25) lie outside
      the bounds [1.25, 79] x [-30, 20]. */
  lemma SampleContainment()
    ensures PolylineContains(SampleXs, SampleYs, Point(10.0, 10.0))
    ensures PolylineContains(SampleXs, SampleYs, Point(35.0, -5.0))
    ensures PolylineContains(SampleXs, SampleYs, Point(51.25, -28.75))
    ensures !PolylineContains(SampleXs, SampleYs, Point(0.0, 0.0))
    ensures !PolylineContains(SampleXs, SampleYs, Point(17.0, 25.0))
  {
    SampleBounds();
    assert SegmentContains(SampleXs, SampleYs, 1, Point(10.0, 10.0));
    SegmentWithinBounds(SampleXs, SampleYs, 1, Point(10.0, 10.0));
    assert SegmentContains(SampleXs, SampleYs, 2, Point(35.0, -5.0));
    SegmentWithinBounds(SampleXs, SampleYs, 2, Point(35.0, -5.0));
    assert SegmentContains(SampleXs, SampleYs, 3, Point(51.25, -28.75));
    SegmentWithinBounds(SampleXs, SampleYs, 3, Point(51.25, -28.75));
  }

  /** The sample polyline's bounds are [1.25, 79] x [-30, 20]. */
  lemma SampleBounds()
    ensures SeqMin(SampleXs) == 1.25 && SeqMin(SampleYs) == -30.0
    ensures SeqMax(SampleXs) == 79.0 && SeqMax(SampleYs) == 20.0
  {
    assert SampleXs[0] == 1.25 && SampleXs[3] == 79.0;
    assert SampleYs[2] == -30.0 && SampleYs[1] == 20.0;
  }

  /** There is no closing segment: the midpoint (40.125, 0.125) of the
      segment from the last vertex back to the first lies on that segment
      and inside the bounds, yet is not contained. */
  lemma NoClosingSegment()
    ensures OnSegment(Vertex(SampleXs, SampleYs, 3), Vertex(SampleXs, SampleYs, 0), Point(40.125, 0.125))
    ensures InBounds(SampleXs, SampleYs, Point(40.125, 0.125))
    ensures !PolylineContains(SampleXs, SampleYs, Point(40.125, 0.125))
  {
    SampleBounds();
    var p := Point(40.125, 0.125);
    assert !SegmentContains(SampleXs, SampleYs, 1, p);
    assert Cross(Vertex(SampleXs, SampleYs, 1), Vertex(SampleXs, SampleYs, 2), p) != 0.0;
    assert !SegmentContains(SampleXs, SampleYs, 2, p);
    assert !SegmentContains(SampleXs, SampleYs, 3, p);
    assert !SomeSegmentContains(SampleXs, SampleYs, p);
  }

  /** Removing vertex 3 of the sample polyline: the new bounds are
      [1.25, 50] x [-30, 20], and (51.25, -28.75), which lay only on the
      removed segment, is no longer contained. */
  lemma SampleRemoval()
    ensures RemoveAt(SampleXs, 3) == [1.25, 20.0, 50.0]
    ensures RemoveAt(SampleYs, 3) == [1.25, 20.0, -30.0]
    ensures SeqMin(RemoveAt(SampleXs, 3)) == 1.25 && SeqMin(RemoveAt(SampleYs, 3)) == -30.0
    ensures SeqMax(RemoveAt(SampleXs, 3)) == 50.0 && SeqMax(RemoveAt(SampleYs, 3)) == 20.0
    ensures !PolylineContains(RemoveAt(SampleXs, 3), RemoveAt(SampleYs, 3), Point(51.25, -28.75))
  {
    var xs, ys := RemoveAt(SampleXs, 3), RemoveAt(SampleYs, 3);
    assert xs == [1.25, 20.0, 50.0];
    assert ys == [1.25, 20.0, -30.0];
    assert xs[0] == 1.25 && xs[2] == 50.0;
    assert ys[2] == -30.0 && ys[1] == 20.0;
  }

  /** Removing a vertex can only shrink the bounding interval. */
  lemma RemovalNarrowsBounds(xs: seq<real>, ys: seq<real>, i: nat)
    requires |xs| == |ys| && i < |xs| && |xs| > 1
    ensures SeqMin(xs) <= SeqMin(RemoveAt(xs, i)) && SeqMax(RemoveAt(xs, i)) <= SeqMax(xs)
    ensures SeqMin(ys) <= SeqMin(RemoveAt(ys, i)) && SeqMax(RemoveAt(ys, i)) <= SeqMax(ys)
  {
    RemoveAtNarrowsRange(xs, i);
    RemoveAtNarrowsRange(ys, i);
  }
}
