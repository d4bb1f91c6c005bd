# ImageJ legacy ROI adaptation, modelled in Dafny

This project models the ROI adaptation layer of ImageJ legacy
(`net.imagej.legacy.convert.roi`). That layer sits between two worlds:

- ImageJ 1.x keeps selections as mutable shape records: a line, a polyline,
  an oval, a point selection or a rectangle.
- ImgLib2 works with masks: a line, a polyline, an ellipsoid, a point
  collection or a box.

The layer has three parts:

- **Live wrappers.** Each wrapper holds a reference to a backing shape and
  re-derives bounds and containment from the shape's current fields on every
  call. A mutation either is refused or changes the backing shape in place.
- **Converter guards.** Each `supportedType` is a small rule over the type
  tag, stroke width, spline flag, corner diameter and overlay kind.
- **Structural mask-to-shape converters.** These build a fresh shape from a
  mask's geometry.

Coordinates are exact `real`s. ImageJ's single-precision cast appears as a
rounding parameter `rnd: real -> real`. A Java exception is an `Err`/`Fail`
value carrying the error kind (module `Errors`). A constructor that throws
becomes two members: a constructor whose `requires` is the check, and a
static `Wrap` method that returns the error instead.

Modules, one per source file plus three shared ones:

- `Errors`: error kinds, `Result` and `Outcome`.
- `Geometry`: points, least/greatest, removal at an index, closed intervals,
  exact segment containment (with a parametric reference definition), and
  the closed ellipse.
- `LegacyRois`: the ImageJ 1.x shape classes (`Line`, `PolygonRoi`,
  `PointRoi`, `OvalRoi`, `Roi`). Each has only the fields the layer reads or
  writes.
- `LineWrapping`, `PolylineRoiWrapping`, `PolylineRoiToPolyline`,
  `PolylineToPolylineRoi`, `RoiToBox`, `PointRoiToRealPointCollection`,
  `OvalRoiToEllipsoid`, `BoxToRoi`: one per core file.

The wrappers behind the oval, point and rectangle converters
(`OvalRoiWrapper`, `PointRoiWrapper`, `RoiWrapper`) are not among the
source files. The oval and point wrappers are modelled from the tests that
exercise them. No test exercises the rectangle wrapper, so its behaviour
(bounds [x, x + width] x [y, y + height] and closed containment) is an
assumption of this model; see `## Left out`.

Notes on the tests:

- The comments in the line test call (17, 126) "on line" and (4, 115) "on
  line but beyond endpoint". For the line (10.5, 20)-(120.5, 150) neither
  point is collinear with the endpoints. The test only compares the wrapper
  with a reference line, so it does not depend on those comments.
  `LineWrapping.ReferenceLine` proves that neither point is contained.
- The freeline test expects no converter for a FREELINE shape. The guard
  and `convert` of `PolylineRoiToPolylineConverter` do accept it, so the
  model follows the code there. The null comes from code outside the
  modelled files.

## Model

| member | source | states |
|---|---|---|
| LineWrapping.LineWrapper.Wrap | src/main/java/net/imagej/legacy/convert/roi/LineWrapper.java:88-92 | wrapping fails exactly when the line width exceeds 1, with a malformed-shape error; otherwise the wrapper holds the given line |
| LineWrapping.LineWrapper.Test | src/main/java/net/imagej/legacy/convert/roi/LineWrapper.java:94-101 | a point is contained exactly when it lies on the closed segment between the current endpoints (some t in [0,1] with p = a + t(b - a)), and then lies in the endpoints' box |
| LineWrapping.LineWrapper.RealMin | src/main/java/net/imagej/legacy/convert/roi/LineWrapper.java:103-108 | an invalid-dimension error exactly for d outside {0,1}; otherwise the least endpoint coordinate along d |
| LineWrapping.LineWrapper.RealMax | src/main/java/net/imagej/legacy/convert/roi/LineWrapper.java:110-115 | an invalid-dimension error exactly for d outside {0,1}; otherwise the greatest endpoint coordinate along d |
| LineWrapping.LineWrapper.EndpointOne | src/main/java/net/imagej/legacy/convert/roi/LineWrapper.java:117-120 | a fresh endpoint at the line's current (x1d, y1d) |
| LineWrapping.LineWrapper.EndpointTwo | src/main/java/net/imagej/legacy/convert/roi/LineWrapper.java:122-125 | a fresh endpoint at the line's current (x2d, y2d) |
| LineWrapping.LineWrapper.FromCoordinates | src/main/java/net/imagej/legacy/convert/roi/LineWrapper.java:63-80 | a wrapper over a fresh line with exactly the given endpoint coordinates |
| LineWrapping.LineWrapper.GetRoi | src/main/java/net/imagej/legacy/convert/roi/LineWrapper.java:127-130 | the wrapped line itself, by identity |
| LineWrapping.LineEndPoint.Apply | src/main/java/net/imagej/legacy/convert/roi/LineWrapper.java:143-251 | every move, setPosition, fwd and bck fails with an unsupported-operation error naming the operation, and nothing changes |
| LineWrapping.BoundsOrdered | src/main/java/net/imagej/legacy/convert/roi/LineWrapper.java:103-115 | for d in {0,1}, realMin(d) <= realMax(d), and both are endpoint coordinates |
| LineWrapping.EndpointsContained | src/main/java/net/imagej/legacy/convert/roi/LineWrapper.java:94-101 | both endpoints are contained |
| LineWrapping.ReferenceLine | src/test/java/net/imagej/legacy/convert/roi/LineConversionTest.java:94-118 | for the test line: the endpoints are contained, (17, 126), (4, 115) and (20.25, 40.125) are not, and the bounds are 10.5, 20, 120.5, 150 |
| Geometry.OnSegmentIffRef | src/main/java/net/imagej/legacy/convert/roi/LineWrapper.java:94-101 | the exact segment test (zero cross product, inside the endpoints' box) agrees with the parametric segment, in both directions |
| PolylineRoiWrapping.WrapCheck | src/main/java/net/imagej/legacy/convert/roi/PolylineRoiWrapper.java:98-106 | the checks pass exactly for a POLYLINE of stroke width 0 that is not spline fit; a wrong type is reported as not-a-polyline; every failure is a malformed-shape error |
| PolylineRoiWrapping.PolylineRoiWrapper.Wrap | src/main/java/net/imagej/legacy/convert/roi/PolylineRoiWrapper.java:98-106 | wrapping succeeds exactly when the checks pass, reports the first failing check otherwise, and holds the given shape |
| PolylineRoiWrapping.PolylineRoiWrapper.FromVertices | src/main/java/net/imagej/legacy/convert/roi/PolylineRoiWrapper.java:61-91 | a fresh POLYLINE shape holding the first n coordinates of each array |
| PolylineRoiWrapping.PolylineRoiWrapper.NumVertices | src/test/java/net/imagej/legacy/convert/roi/PolylineRoiConversionTest.java:95-112 | the number of vertices is the length of both backing coordinate sequences |
| PolylineRoiWrapping.PolylineRoiWrapper.GetVertex | src/test/java/net/imagej/legacy/convert/roi/PolylineRoiConversionTest.java:95-112 | vertex i is (xs[i], ys[i]) of the backing shape; an out-of-range index is an error |
| PolylineRoiWrapping.PolylineRoiWrapper.RealMin | src/test/java/net/imagej/legacy/convert/roi/PolylineRoiConversionTest.java:154-160 | the least backing x (d = 0) or y (d = 1) coordinate |
| PolylineRoiWrapping.PolylineRoiWrapper.RealMax | src/test/java/net/imagej/legacy/convert/roi/PolylineRoiConversionTest.java:154-160 | the greatest backing x (d = 0) or y (d = 1) coordinate |
| PolylineRoiWrapping.PolylineRoiWrapper.Test | src/main/java/net/imagej/legacy/convert/roi/PolylineRoiWrapper.java:108-123 | the interval pre-check followed by the scan over consecutive vertex pairs returns exactly the polyline containment of p |
| PolylineRoiWrapping.PolylineRoiWrapper.AddVertex | src/main/java/net/imagej/legacy/convert/roi/PolylineRoiWrapper.java:132-135 | always fails with an unsupported-operation error; the shape is not touched |
| PolylineRoiWrapping.PolylineRoiWrapper.RemoveVertex | src/main/java/net/imagej/legacy/convert/roi/PolylineRoiWrapper.java:143-151 | fails without an image, fails on an out-of-range index, and otherwise removes vertex i from both coordinate sequences; on failure nothing changes |
| LegacyRois.PolygonRoi.DeleteVertex | src/main/java/net/imagej/legacy/convert/roi/PolylineRoiWrapper.java:148 | the shape's coordinate sequences lose exactly their element i, and keep their common length |
| PolylineRoiWrapping.SegmentWithinBounds | src/main/java/net/imagej/legacy/convert/roi/PolylineRoiWrapper.java:108-123 | a point on any segment lies inside the vertices' bounding interval |
| PolylineRoiWrapping.PrecheckRedundant | src/main/java/net/imagej/legacy/convert/roi/PolylineRoiWrapper.java:110-122 | for a non-empty polyline, containment holds exactly when some segment contains the point, so the pre-check never changes the answer |
| PolylineRoiWrapping.OutsideBoundsNotContained | src/main/java/net/imagej/legacy/convert/roi/PolylineRoiWrapper.java:110 | a point outside the bounding interval is not contained |
| PolylineRoiWrapping.SampleContainment | src/test/java/net/imagej/legacy/convert/roi/PolylineRoiConversionTest.java:145-152 | for the test polyline, (10,10), (35,-5) and (51.25,-28.75) are contained; (0,0) and (17,25) are not |
| PolylineRoiWrapping.SampleBounds | src/test/java/net/imagej/legacy/convert/roi/PolylineRoiConversionTest.java:154-160 | the test polyline's bounds are 1.25, -30, 79, 20 |
| PolylineRoiWrapping.NoClosingSegment | src/main/java/net/imagej/legacy/convert/roi/PolylineRoiWrapper.java:114 | a point on the segment from the last vertex back to the first, inside the bounds, is not contained |
| PolylineRoiWrapping.SampleRemoval | src/test/java/net/imagej/legacy/convert/roi/PolylineRoiConversionTest.java:162-179 | after removing vertex 3 the bounds are 1.25, -30, 50, 20 and (51.25,-28.75) is no longer contained |
| PolylineRoiWrapping.RemovalNarrowsBounds | src/main/java/net/imagej/legacy/convert/roi/PolylineRoiWrapper.java:143-151 | bounds after a removal are the min/max of the remaining vertices and lie within the old bounds |
| PolylineRoiToPolyline.SupportedType | src/main/java/net/imagej/legacy/convert/roi/PolylineRoiToPolylineConverter.java:77-82 | an accepted shape has stroke width 0 and no spline fit; for a POLYLINE, acceptance coincides with the wrapper constructor's checks passing |
| PolylineRoiToPolyline.UnmodifiablePolylineRoiWrapper.constructor | src/main/java/net/imagej/legacy/convert/roi/PolylineRoiToPolylineConverter.java:74 | the read-only wrapper holds the source shape itself |
| PolylineRoiToPolyline.Convert | src/main/java/net/imagej/legacy/convert/roi/PolylineRoiToPolylineConverter.java:71-75 | the mask is backed by the source shape; it is the modifiable wrapper exactly for POLYLINE; conversion fails exactly when a POLYLINE fails the wrapper's checks, with that check's error; a shape the guard accepts always converts |
| PolylineRoiToPolyline.GuardMatchesWrapCheck | src/main/java/net/imagej/legacy/convert/roi/PolylineRoiToPolylineConverter.java:77-82 | for a POLYLINE, the guard holds exactly when the wrapper constructor's checks pass |
| PolylineRoiToPolyline.WidthOrSplineRejected | src/test/java/net/imagej/legacy/convert/roi/PolylineRoiConversionTest.java:217-231 | a non-zero stroke width or spline fitting makes the guard fail for every type |
| PolylineRoiToPolyline.AcceptedTypes | src/main/java/net/imagej/legacy/convert/roi/PolylineRoiToPolylineConverter.java:77-82 | with zero width and no spline, the guard holds exactly for POLYLINE, ANGLE and FREELINE |
| PolylineToPolylineRoi.Narrowed | src/main/java/net/imagej/legacy/convert/roi/PolylineToPolylineRoiConverter.java:70-74 | one output vertex per input vertex, vertex i being the rounded coordinates of input vertex i |
| PolylineToPolylineRoi.Convert | src/main/java/net/imagej/legacy/convert/roi/PolylineToPolylineRoiConverter.java:66-76 | a fresh POLYLINE shape whose vertices are the rounded input vertices in order; the mask is a value and is only read |
| PolylineToPolylineRoi.IsLossy | src/main/java/net/imagej/legacy/convert/roi/PolylineToPolylineRoiConverter.java:78-81 | declared lossy, and truly so: some polyline and rounding give back different vertices |
| PolylineToPolylineRoi.ConvertedIsWrappable | src/main/java/net/imagej/legacy/convert/roi/PolylineToPolylineRoiConverter.java:75 | the shape built by convert passes both the polyline guard and the modifiable wrapper's checks |
| PolylineToPolylineRoi.ExactIffFixed | src/main/java/net/imagej/legacy/convert/roi/PolylineToPolylineRoiConverter.java:43-46 | the copy equals the input exactly when rounding fixes every coordinate |
| PolylineToPolylineRoi.LossyWitness | src/main/java/net/imagej/legacy/convert/roi/PolylineToPolylineRoiConverter.java:78-81 | a coordinate that rounding changes makes the copy differ from the input, which is why the converter is lossy |
| RoiToBox.SupportedType | src/main/java/net/imagej/legacy/convert/roi/RoiToBoxConverter.java:71-76 | accepts exactly a RECTANGLE with corner diameter 0 of the plain kind, i.e. neither an image nor a text overlay |
| RoiToBox.SupportedExactly | src/main/java/net/imagej/legacy/convert/roi/RoiToBoxConverter.java:71-76 | the guard holds exactly for RECTANGLE with corner diameter 0 that is neither an image nor a text overlay |
| RoiToBox.RoundedRejected | src/main/java/net/imagej/legacy/convert/roi/RoiToBoxConverter.java:74 | a rounded rectangle is rejected |
| RoiToBox.OverlaysRejected | src/main/java/net/imagej/legacy/convert/roi/RoiToBoxConverter.java:73-75 | image and text overlays are rejected although their tag is RECTANGLE |
| RoiToBox.Convert | src/main/java/net/imagej/legacy/convert/roi/RoiToBoxConverter.java:66-69 | the box is backed by the source rectangle itself, and unwrapping gives it back |
| RoiToBox.RoiWrapper.RealMin | src/main/java/net/imagej/legacy/convert/roi/RoiToBoxConverter.java:66-69 | an invalid-dimension error exactly for d outside {0,1}; otherwise the rectangle's base coordinate along d (assumed, see Left out) |
| RoiToBox.RoiWrapper.RealMax | src/main/java/net/imagej/legacy/convert/roi/RoiToBoxConverter.java:66-69 | an invalid-dimension error exactly for d outside {0,1}; otherwise base plus size along d (assumed, see Left out) |
| RoiToBox.RoiWrapper.GetRoi | src/main/java/net/imagej/legacy/convert/roi/RoiToBoxConverter.java:66-69 | unwrapping gives back the backing rectangle itself |
| RoiToBox.RoiWrapper.Test | src/main/java/net/imagej/legacy/convert/roi/RoiToBoxConverter.java:66-69 | closed containment between the box view's lower and upper bounds |
| RoiToBox.CornersContained | src/main/java/net/imagej/legacy/convert/roi/RoiToBoxConverter.java:66-69 | a rectangle of non-negative size contains both of its corners |
| PointRoiToRealPointCollection.SupportedType | src/main/java/net/imagej/legacy/convert/roi/PointRoiToRealPointCollectionConverter.java:70-73 | accepts exactly the POINT type tag |
| PointRoiToRealPointCollection.Convert | src/main/java/net/imagej/legacy/convert/roi/PointRoiToRealPointCollectionConverter.java:65-68 | the collection is backed by the source selection, and unwrapping gives it back |
| PointRoiToRealPointCollection.PointRoiWrapper.Points | src/test/java/net/imagej/legacy/convert/roi/PointRoiConversionTest.java:101-123 | point i is (xs[i], ys[i]) of the backing selection, in order |
| PointRoiToRealPointCollection.PointRoiWrapper.Test | src/test/java/net/imagej/legacy/convert/roi/PointRoiConversionTest.java:185-189 | a point is contained exactly when it equals one of the stored points |
| PointRoiToRealPointCollection.PointRoiWrapper.RealMin | src/test/java/net/imagej/legacy/convert/roi/PointRoiConversionTest.java:191-197 | the least stored x or y coordinate |
| PointRoiToRealPointCollection.PointRoiWrapper.RealMax | src/test/java/net/imagej/legacy/convert/roi/PointRoiConversionTest.java:191-197 | the greatest stored x or y coordinate |
| PointRoiToRealPointCollection.PointRoiWrapper.AddPoint | src/test/java/net/imagej/legacy/convert/roi/PointRoiConversionTest.java:125-138 | the point is appended to the stored points and is contained afterwards |
| PointRoiToRealPointCollection.PointRoiWrapper.RemovePoint | src/test/java/net/imagej/legacy/convert/roi/PointRoiConversionTest.java:140-183 | fails without an image and changes nothing; with an image, removes the first stored copy of the point, and an absent point leaves the points unchanged |
| PointRoiToRealPointCollection.FirstMatch | src/test/java/net/imagej/legacy/convert/roi/PointRoiConversionTest.java:147-183 | the first index holding the point, or the length exactly when the point is absent |
| PointRoiToRealPointCollection.AddExtendsBounds | src/test/java/net/imagej/legacy/convert/roi/PointRoiConversionTest.java:199-209 | after adding a point each bound is the old bound widened by the point's coordinate |
| PointRoiToRealPointCollection.RemovedNoLongerContained | src/test/java/net/imagej/legacy/convert/roi/PointRoiConversionTest.java:214-217 | among distinct points, removal drops exactly the removed point and keeps every other one |
| PointRoiToRealPointCollection.SampleBounds | src/test/java/net/imagej/legacy/convert/roi/PointRoiConversionTest.java:191-209 | the sample's bounds are 1, -4, 17, 30, and adding (8, 100.25) raises only the upper y bound, to 100.25 |
| PointRoiToRealPointCollection.SampleMembership | src/test/java/net/imagej/legacy/convert/roi/PointRoiConversionTest.java:147-217 | (12.125,-4) is contained and (8,15.5) is not; removing (17,6.5) leaves the other two in order; removing (11,3) changes nothing; after the add, removing (12.125,-4) makes it uncontained |
| OvalRoiToEllipsoid.SupportedType | src/main/java/net/imagej/legacy/convert/roi/OvalRoiToEllipsoidConverter.java:69-72 | accepts exactly the OVAL type tag |
| OvalRoiToEllipsoid.Convert | src/main/java/net/imagej/legacy/convert/roi/OvalRoiToEllipsoidConverter.java:64-67 | the ellipsoid is backed by the source oval, and unwrapping gives it back |
| OvalRoiToEllipsoid.OvalRoiWrapper.Center | src/test/java/net/imagej/legacy/convert/roi/OvalRoiConversionTest.java:99-116 | the center is the base plus half the width and half the height |
| OvalRoiToEllipsoid.OvalRoiWrapper.SemiAxisLength | src/test/java/net/imagej/legacy/convert/roi/OvalRoiConversionTest.java:99-116 | twice the semi-axis is the width (d = 0) or height (d = 1); other d is an error |
| OvalRoiToEllipsoid.OvalRoiWrapper.RealMin | src/test/java/net/imagej/legacy/convert/roi/OvalRoiConversionTest.java:144-150 | center minus semi-axis, which is the base coordinate |
| OvalRoiToEllipsoid.OvalRoiWrapper.RealMax | src/test/java/net/imagej/legacy/convert/roi/OvalRoiConversionTest.java:144-150 | center plus semi-axis |
| OvalRoiToEllipsoid.OvalRoiWrapper.Test | src/test/java/net/imagej/legacy/convert/roi/OvalRoiConversionTest.java:137-142 | membership in the closed ellipse with that center and those semi-axes; a contained point lies within the bounds |
| OvalRoiToEllipsoid.OvalRoiWrapper.SetCenter | src/test/java/net/imagej/legacy/convert/roi/OvalRoiConversionTest.java:118-129 | the center becomes c, the size is kept, the base moves by the same offset, and every point's membership moves with it |
| OvalRoiToEllipsoid.OvalRoiWrapper.SetSemiAxisLength | src/test/java/net/imagej/legacy/convert/roi/OvalRoiConversionTest.java:131-135 | always fails with an unsupported-operation error |
| OvalRoiToEllipsoid.MoveShiftsMembership | src/test/java/net/imagej/legacy/convert/roi/OvalRoiConversionTest.java:152-183 | after the center moves by an offset, a point is inside exactly when the point moved back was inside before |
| OvalRoiToEllipsoid.ExtremesContained | src/test/java/net/imagej/legacy/convert/roi/OvalRoiConversionTest.java:137-142 | a non-degenerate oval contains its center and the four points where it touches its bounds (the boundary is closed) |
| OvalRoiToEllipsoid.SampleOval | src/test/java/net/imagej/legacy/convert/roi/OvalRoiConversionTest.java:78-90 | in the sample, inside and on-boundary points are contained and the outside point is not; after the move the reverse holds, and (100, 42.5) is contained |
| OvalRoiToEllipsoid.SampleBounds | src/test/java/net/imagej/legacy/convert/roi/OvalRoiConversionTest.java:144-150 | the sample's center is (13.5, 24), semi-axes (3.5, 2), bounds 10, 22, 17, 26 |
| OvalRoiToEllipsoid.SampleMovedBounds | src/test/java/net/imagej/legacy/convert/roi/OvalRoiConversionTest.java:170-174 | with the center at (100, 40.5) the bounds are 96.5, 38.5, 103.5, 42.5 |
| Geometry.EllipseWithinBox | src/test/java/net/imagej/legacy/convert/roi/OvalRoiConversionTest.java:144-150 | a point of the closed ellipse lies within center plus or minus the semi-axes |
| BoxToRoi.Box.SideLength | src/main/java/net/imagej/legacy/convert/roi/BoxToRoiConverter.java:64-68 | min plus side length is max along each axis |
| BoxToRoi.Convert | src/main/java/net/imagej/legacy/convert/roi/BoxToRoiConverter.java:64-68 | a fresh plain rectangle with base (realMin(0), realMin(1)) and size (sideLength(0), sideLength(1)) |
| BoxToRoi.IsLossy | src/main/java/net/imagej/legacy/convert/roi/BoxToRoiConverter.java:70-73 | declared lossy, and truly so: two different boxes with the same corners differ only in boundary, which the rectangle cannot record |
| BoxToRoi.BoundaryDiscarded | src/main/java/net/imagej/legacy/convert/roi/BoxToRoiConverter.java:42-44 | boxes differing only in boundary type give the same rectangle |
| BoxToRoi.RoundTripBounds | src/main/java/net/imagej/legacy/convert/roi/BoxToRoiConverter.java:64-68 | the rectangle passes the rectangle guard, and its box view reports the box's min and max corners (origin plus size equals max) |
| BoxToRoi.ClosedRoundTrip | src/main/java/net/imagej/legacy/convert/roi/BoxToRoiConverter.java:64-68 | for a closed box, the box view of the rectangle contains exactly the box's points |
| BoxToRoi.OpenBoundaryLost | src/main/java/net/imagej/legacy/convert/roi/BoxToRoiConverter.java:70-73 | for an open box the round trip adds the lower corner, which is why the converter is lossy |
| Geometry.RemoveAtNarrowsRange | src/main/java/net/imagej/legacy/convert/roi/PolylineRoiWrapper.java:143-151 | the min/max of a sequence after a removal lie within the old min/max |
| Geometry.AppendExtendsRange | src/test/java/net/imagej/legacy/convert/roi/PointRoiConversionTest.java:199-209 | the min/max after appending v are the old min/max combined with v |

## Left out

- The converter lookup (`ConvertService` handler ranking and plugin discovery) is not modelled. Neither are the unwrap converters, the ellipsoid-to-oval converter or the point-mask-to-point-selection converters: they are foreign or not part of this model. Only the guards and `convert` bodies of the core converters are modelled.
- The rasterising mask-to-image converter, `PolygonRoiWrapper` and `AbstractPolygonRoiWrapper` are not part of this model. The polyline wrapper's bounds, vertex count and vertex access follow the polyline tests.
- The `org.scijava.search` package is unrelated to ROI handling and is left out.
- Floating point is not modelled. Coordinates are exact reals, and the `(float)` cast is the parameter `rnd`. Shapes and the point selection store exact reals, with no single-precision rounding on construction or on `addPoint`.
- `GeomMaths.lineContains` and `Intervals.contains` are foreign library calls. They are modelled as exact collinear-and-between and closed-interval predicates, without any tolerance the library may apply.
- The attached image (`ImagePlus`) is reduced to the `hasImage` flag. Loading test images from a URL is left out.
- PolylineRoiWrapping.PolylineRoiWrapper.RemoveVertex: ImageJ removes the handle found at the vertex's coordinates (`deleteHandle(x, y)`). The model removes the vertex at the given index, so a polyline with repeated vertices may lose a different copy in ImageJ.
- LineWrapping.LineWrapper.Wrap: the width check reads ImageJ's static, global line width. It is a parameter here.
- PolylineRoiWrapping.PolylineRoiWrapper.RealMin: the bounds of the polyline come from an unseen superclass. Neither its result for a polyline with no vertices nor its error for a dimension outside {0,1} is known, so RealMin and RealMax require at least one vertex and d in {0,1}. The line, oval and rectangle wrappers return an invalid-dimension error instead, because their bounds code or test fixes that behaviour.
- PolylineRoiWrapping.PolylineRoiWrapper.RealMax: the same requires as RealMin, for the same reason.
- PointRoiToRealPointCollection.PointRoiWrapper.RealMin: the point wrapper is unseen. Its results for an empty selection and for d outside {0,1} are not known, so it requires at least one point and d in {0,1}.
- PointRoiToRealPointCollection.PointRoiWrapper.RealMax: the same requires as RealMin, for the same reason.
- PointRoiToRealPointCollection.PointRoiWrapper.RemovePoint: the tests pin down removing a point stored once and removing an absent point. Which copy of a point stored more than once goes is not known; the model removes the first.
- RoiToBox.RoiWrapper.Test: the rectangle wrapper is unseen and no test exercises it. Its bounds [x, x + width] x [y, y + height] and its closed containment are assumed from the box-mask interface. BoxToRoi.ClosedRoundTrip and BoxToRoi.OpenBoundaryLost rest on this assumption.
- PolylineRoiWrapping.PolylineRoiWrapper.GetVertex: the vertex objects returned by ImageJ refuse `setPosition` in an unseen class. Here vertices are returned as values, which cannot be mutated.
- OvalRoiToEllipsoid.OvalRoiWrapper.Test: an oval of zero width or height contains nothing. The unseen wrapper's behaviour for such an oval is unknown.
- The static type check Java performs before calling a converter (input class) is represented by each converter taking the matching Dafny class.
