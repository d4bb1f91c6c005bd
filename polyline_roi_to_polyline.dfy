/** PolylineRoiToPolylineConverter: turns an ImageJ 1.x polyline-like shape
    (POLYLINE, ANGLE or FREELINE, zero width, not spline fit) into a polyline
    mask. A POLYLINE becomes the modifiable wrapper; the other types become
    the unmodifiable one. Both stay backed by the source shape. */
module PolylineRoiToPolyline {

  import opened Errors
  import opened LegacyRois
  import opened PolylineRoiWrapping

  /** The converter's guard: a polyline-like type tag, zero stroke width and
      no spline fitting. */
  predicate SupportedType(src: PolygonRoi): (b: bool)
    reads src
    ensures b ==> src.strokeWidth == 0.0 && !src.splineFit
    ensures src.roiType == Polyline ==> (b <==> WrapCheck(src) == Pass)
  {
    (src.roiType == Polyline || src.roiType == Angle || src.roiType == FreeLine) &&
    src.strokeWidth == 0.0 && !src.splineFit
  }

  /** The read-only wrapper used for ANGLE and FREELINE shapes; it holds the
      source shape itself. */
  class UnmodifiablePolylineRoiWrapper {
    const roi: PolygonRoi

    constructor (poly: PolygonRoi)
      ensures roi == poly
    {
      roi := poly;
    }
  }

  /** The two kinds of polyline mask the converter returns. */
  datatype PolylineMask =
    | Modifiable(wrapper: PolylineRoiWrapper)
    | Unmodifiable(view: UnmodifiablePolylineRoiWrapper)
  {
    /** The shape the mask reads its vertices from. */
    function Backing(): PolygonRoi
    {
      match this
      case Modifiable(w) => w.roi
      case Unmodifiable(u) => u.roi
    }
  }

  /** POLYLINE goes to the modifiable wrapper, whose constructor may still
      refuse the shape; every other type goes to the unmodifiable wrapper.
      Either way the mask is backed by `src` itself. */
  method Convert(src: PolygonRoi) returns (r: Result<PolylineMask>)
    ensures r.Ok? ==> r.value.Backing() == src
    ensures r.Ok? ==> (r.value.Modifiable? <==> src.roiType == Polyline)
    ensures r.Err? <==> src.roiType == Polyline && WrapCheck(src) != Pass
    ensures r.Err? ==> Fail(r.error) == WrapCheck(src)
    ensures SupportedType(src) ==> r.Ok?
  {
    if src.roiType == Polyline {
      var w := PolylineRoiWrapper.Wrap(src);
      if w.Ok? {
        r := Ok(Modifiable(w.value));
      } else {
        r := Err(w.error);
      }
    } else {
      var u := new UnmodifiablePolylineRoiWrapper(src);
      r := Ok(Unmodifiable(u));
    }
  }

  /** For a POLYLINE shape the guard and the wrapping constructor agree: the
      guard holds exactly when the constructor's checks all pass. */
  lemma GuardMatchesWrapCheck(src: PolygonRoi)
    requires src.roiType == Polyline
    ensures SupportedType(src) <==> WrapCheck(src) == Pass
  {
  }

  /** A non-zero stroke width or spline fitting rules conversion out, for
      every type. */
  lemma WidthOrSplineRejected(src: PolygonRoi)
    requires src.strokeWidth != 0.0 || src.splineFit
    ensures !SupportedType(src)
  {
  }

  /** The guard accepts exactly the polyline-like type tags among shapes with
      zero width and no spline. */
  lemma AcceptedTypes(src: PolygonRoi)
    requires src.strokeWidth == 0.0 && !src.splineFit
    ensures SupportedType(src) <==> src.roiType in {Polyline, Angle, FreeLine}
  {
  }
}
