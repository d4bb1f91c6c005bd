/** PolylineToPolylineRoiConverter: copies the vertices of any polyline mask
    into two new single-precision coordinate arrays and builds a fresh
    POLYLINE shape from them. The narrowing to single precision is the
    parameter `rnd`, so the conversion is declared lossy. */
module PolylineToPolylineRoi {

  import opened Errors
  import opened Geometry
  import opened LegacyRois
  import PolylineRoiWrapping
  import PolylineRoiToPolyline

  /** The converter admits that it may lose precision: some polyline and
      some rounding give back different vertices. */
  function IsLossy(): (lossy: bool)
    ensures lossy <==> exists mask: seq<Point>, rnd: real -> real :: Narrowed(mask, rnd) != mask
  {
    var mask, rnd := [Point(0.1, 0.0)], (v: real) => 0.0;
    assert Narrowed(mask, rnd)[0].x != mask[0].x;
    true
  }

  /** The vertices of the shape the converter builds: each coordinate of each
      input vertex narrowed by `rnd`, in the same order. */
  function Narrowed(mask: seq<Point>, rnd: real -> real): (r: seq<Point>)
    ensures |r| == |mask|
    ensures forall i :: 0 <= i < |mask| ==> r[i] == Point(rnd(mask[i].x), rnd(mask[i].y))
  {
    if mask == [] then [] else [Point(rnd(mask[0].x), rnd(mask[0].y))] + Narrowed(mask[1..], rnd)
  }

  /** The vertex list of a shape, as points. */
  function VerticesOf(xs: seq<real>, ys: seq<real>): (r: seq<Point>)
    requires |xs| == |ys|
    ensures |r| == |xs|
    ensures forall i :: 0 <= i < |xs| ==> r[i] == Point(xs[i], ys[i])
  {
    seq(|xs|, i requires 0 <= i < |xs| => Point(xs[i], ys[i]))
  }

  /** Fills x[i], y[i] with the narrowed coordinates of vertex i, then builds
      the shape from the arrays. The mask is only read. */
  method Convert(mask: seq<Point>, rnd: real -> real) returns (roi: PolygonRoi)
    ensures fresh(roi) && roi.Valid()
    ensures VerticesOf(roi.xs, roi.ys) == Narrowed(mask, rnd)
    ensures roi.roiType == Polyline
    ensures roi.strokeWidth == 0.0 && !roi.splineFit && !roi.hasImage
  {
    var n := |mask|;
    var x := new real[n];
    var y := new real[n];
    for i := 0 to n
      invariant forall k :: 0 <= k < i ==> x[k] == rnd(mask[k].x) && y[k] == rnd(mask[k].y)
    {
      var v := mask[i];
      x[i] := rnd(v.x);
      y[i] := rnd(v.y);
    }
    roi := new PolygonRoi(x[..], y[..], Polyline);
    assert VerticesOf(roi.xs, roi.ys) == Narrowed(mask, rnd);
  }

  /** The shape built by the converter is again accepted by the polyline
      guard and by the modifiable wrapper's constructor. */
  lemma ConvertedIsWrappable(roi: PolygonRoi)
    requires roi.roiType == Polyline && roi.strokeWidth == 0.0 && !roi.splineFit
    ensures PolylineRoiToPolyline.SupportedType(roi)
    ensures PolylineRoiWrapping.WrapCheck(roi) == Pass
  {
  }

  /** The round trip is exact precisely when narrowing fixes every
      coordinate of the mask. */
  lemma {:induction false} ExactIffFixed(mask: seq<Point>, rnd: real -> real)
    ensures Narrowed(mask, rnd) == mask <==>
            forall i :: 0 <= i < |mask| ==> rnd(mask[i].x) == mask[i].x && rnd(mask[i].y) == mask[i].y
  {
    if forall i :: 0 <= i < |mask| ==> rnd(mask[i].x) == mask[i].x && rnd(mask[i].y) == mask[i].y {
      assert forall i :: 0 <= i < |mask| ==> Narrowed(mask, rnd)[i] == mask[i];
    }
  }

  /** Why the converter is lossy: a vertex with some coordinate (x or y)
      that single precision cannot hold comes back changed. */
  lemma LossyWitness(mask: seq<Point>, rnd: real -> real, i: nat)
    requires i < |mask| && (rnd(mask[i].x) != mask[i].x || rnd(mask[i].y) != mask[i].y)
    ensures Narrowed(mask, rnd) != mask
  {
    assert Narrowed(mask, rnd)[i] != mask[i];
  }
}
