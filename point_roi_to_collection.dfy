/** PointRoiToRealPointCollectionConverter: an ImageJ 1.x point selection is
    exposed as a point-collection mask backed by the selection itself. The
    wrapper's points are the backing coordinate lists, containment is exact
    membership, adding a point appends to the backing lists, and removing one
    needs an attached image. */
module PointRoiToRealPointCollection {

  import opened Errors
  import opened Geometry
  import opened LegacyRois

  /** The converter's guard: the POINT tag. */
  predicate SupportedType(src: PointRoi): (b: bool)
    reads src
    ensures b <==> src.roiType == PointSelection
  {
    src.roiType == PointSelection
  }

  /** The first index holding p, or |ps| when p is absent. */
  function FirstMatch(ps: seq<Point>, p: Point): (k: nat)
    ensures k <= |ps|
    ensures k < |ps| ==> ps[k] == p
    ensures forall j :: 0 <= j < k ==> ps[j] != p
    ensures k == |ps| <==> p !in ps
  {
    if ps == [] then 0
    else if ps[0] == p then 0
    else
      var k := FirstMatch(ps[1..], p);
      assert forall j :: 1 <= j < |ps| ==> ps[j] == ps[1..][j - 1];
      k + 1
  }

  class PointRoiWrapper {
    const roi: PointRoi

    constructor (src: PointRoi)
      ensures roi == src
    {
      roi := src;
    }

    /** The stored points, in order. */
    function Points(): (ps: seq<Point>)
      reads roi
      requires roi.Valid()
      ensures |ps| == |roi.xs|
      ensures forall i :: 0 <= i < |ps| ==> ps[i] == Point(roi.xs[i], roi.ys[i])
    {
      var xs, ys := roi.xs, roi.ys;
      seq(|xs|, i requires 0 <= i < |xs| && |xs| == |ys| => Point(xs[i], ys[i]))
    }

    /** Exact-equality membership: some stored point has p's coordinates. */
    function Test(p: Point): (b: bool)
      reads roi
      requires roi.Valid()
      ensures b <==> p in Points()
    {
      assert forall i :: 0 <= i < |roi.xs| ==> Points()[i] == Point(roi.xs[i], roi.ys[i]);
      exists i :: 0 <= i < |roi.xs| && roi.xs[i] == p.x && roi.ys[i] == p.y
    }

    /** The least stored coordinate along dimension d. */
    function RealMin(d: int): (m: real)
      reads roi
      requires roi.Valid() && |roi.xs| > 0 && (d == 0 || d == 1)
      ensures IsLeast(m, if d == 0 then roi.xs else roi.ys)
    {
      CoordMin(roi.xs, roi.ys, d)
    }

    /** The greatest stored coordinate along dimension d. */
    function RealMax(d: int): (m: real)
      reads roi
      requires roi.Valid() && |roi.xs| > 0 && (d == 0 || d == 1)
      ensures IsGreatest(m, if d == 0 then roi.xs else roi.ys)
    {
      CoordMax(roi.xs, roi.ys, d)
    }

    /** Appends p to the backing lists; it is contained from then on. */
    method AddPoint(p: Point)
      requires roi.Valid()
      modifies roi`xs, roi`ys
      ensures roi.Valid()
      ensures roi.xs == old(roi.xs) + [p.x] && roi.ys == old(roi.ys) + [p.y]
      ensures Points() == old(Points()) + [p]
      ensures Test(p)
    {
      roi.xs, roi.ys := roi.xs + [p.x], roi.ys + [p.y];
      assert Points()[|Points()| - 1] == p;
    }

    /** Without an image the removal is refused. With one, the first stored
        copy of p is deleted; an absent p leaves the points unchanged. */
    method RemovePoint(p: Point) returns (o: Outcome)
      requires roi.Valid()
      modifies roi`xs, roi`ys
      ensures roi.Valid()
      ensures o.Fail? <==> !roi.hasImage
      ensures o.Fail? ==> o.error == UnsupportedMutation("removePoint")
      ensures o.Fail? ==> roi.xs == old(roi.xs) && roi.ys == old(roi.ys)
      ensures o.Pass? && p !in old(Points()) ==> roi.xs == old(roi.xs) && roi.ys == old(roi.ys)
      ensures o.Pass? && p in old(Points()) ==>
                Points() == RemoveAt(old(Points()), FirstMatch(old(Points()), p))
    {
      if !roi.hasImage {
        return Fail(UnsupportedMutation("removePoint"));
      }
      ghost var before := Points();
      var k := FirstMatch(Points(), p);
      if k < |roi.xs| {
        roi.xs, roi.ys := RemoveAt(roi.xs, k), RemoveAt(roi.ys, k);
        assert Points() == RemoveAt(before, k);
      }
      o := Pass;
    }

    /** Unwrapping gives back the point selection itself. */
    function GetRoi(): (r: PointRoi)
      ensures r == roi
    {
      roi
    }
  }

  /** The collection is a live view of `src`, not a copy. */
  method Convert(src: PointRoi) returns (w: PointRoiWrapper)
    ensures w.roi == src && w.GetRoi() == src
  {
    w := new PointRoiWrapper(src);
  }

  /** Appending p moves each bound exactly as far as needed to cover p. */
  lemma AddExtendsBounds(xs: seq<real>, ys: seq<real>, p: Point)
    requires |xs| == |ys| && |xs| > 0
    ensures SeqMin(xs + [p.x]) == Min(SeqMin(xs), p.x) && SeqMax(xs + [p.x]) == Max(SeqMax(xs), p.x)
    ensures SeqMin(ys + [p.y]) == Min(SeqMin(ys), p.y) && SeqMax(ys + [p.y]) == Max(SeqMax(ys), p.y)
  {
    AppendExtendsRange(xs, p.x);
    AppendExtendsRange(ys, p.y);
  }

  /** Removing a point among distinct points drops exactly that point. */
  lemma {:induction false} RemovedNoLongerContained(ps: seq<Point>, p: Point)
    requires p in ps
    requires forall i, j :: 0 <= i < j < |ps| ==> ps[i] != ps[j]
    ensures p !in RemoveAt(ps, FirstMatch(ps, p))
    ensures forall q :: q in ps && q != p ==> q in RemoveAt(ps, FirstMatch(ps, p))
  {
    var k := FirstMatch(ps, p);
    var r := RemoveAt(ps, k);
    forall j | 0 <= j < |r|
      ensures r[j] != p
    {
      if j < k { assert r[j] == ps[j]; } else { assert r[j] == ps[j + 1]; }
    }
    forall q | q in ps && q != p
      ensures q in r
    {
      var j :| 0 <= j < |ps| && ps[j] == q;
      if j < k { assert r[j] == q; } else { assert j != k; assert r[j - 1] == q; }
    }
  }

  // The sample selection (12.125, -4), (17, 6.5), (1, 30).
  const SampleXs: seq<real> := [12.125, 17.0, 1.0]
  const SampleYs: seq<real> := [-4.0, 6.5, 30.0]

  /** The sample's bounds are [1, 17] x [-4, 30]; appending (8, 100.25)
      raises the upper y bound to 100.25 and leaves the others. */
  lemma SampleBounds()
    ensures SeqMin(SampleXs) == 1.0 && SeqMin(SampleYs) == -4.0
    ensures SeqMax(SampleXs) == 17.0 && SeqMax(SampleYs) == 30.0
    ensures SeqMax(SampleYs + [100.25]) == 100.25 && SeqMin(SampleYs + [100.25]) == -4.0
    ensures SeqMax(SampleXs + [8.0]) == 17.0 && SeqMin(SampleXs + [8.0]) == 1.0
  {
    assert SampleXs[2] == 1.0 && SampleXs[1] == 17.0;
    assert SampleYs[0] == -4.0 && SampleYs[2] == 30.0;
    AppendExtendsRange(SampleXs, 8.0);
    AppendExtendsRange(SampleYs, 100.25);
  }

  const SamplePoints: seq<Point> := [Point(12.125, -4.0), Point(17.0, 6.5), Point(1.0, 30.0)]

  /** (12.125, -4) is contained and (8, 15.5) is not; removing (17, 6.5)
      leaves the first and last points in order, removing the absent
      (11, 3) changes nothing, and after adding (8, 100.25) and removing
      (12.125, -4) the first point is no longer contained. */
  lemma SampleMembership()
    ensures Point(12.125, -4.0) in SamplePoints && Point(8.0, 15.5) !in SamplePoints
    ensures RemoveAt(SamplePoints, FirstMatch(SamplePoints, Point(17.0, 6.5))) ==
            [Point(12.125, -4.0), Point(1.0, 30.0)]
    ensures FirstMatch(SamplePoints, Point(11.0, 3.0)) == |SamplePoints|
    ensures Point(12.125, -4.0) !in
            RemoveAt(SamplePoints + [Point(8.0, 100.25)],
                     FirstMatch(SamplePoints + [Point(8.0, 100.25)], Point(12.125, -4.0)))
  {
    assert SamplePoints[0] == Point(12.125, -4.0);
    assert FirstMatch(SamplePoints, Point(17.0, 6.5)) == 1;
    var added := SamplePoints + [Point(8.0, 100.25)];
    assert added[0] == Point(12.125, -4.0);
    RemovedNoLongerContained(added, Point(12.125, -4.0));
  }
}
