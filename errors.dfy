/** Error kinds of the ROI adaptation layer and the two failure-carrying
    wrappers used in place of Java exceptions. */
module Errors {

  /** Why a shape was refused by a wrapper's constructor. */
  datatype Malformation =
    | LineWidthAboveOne     // LineWrapper: the global line width is greater than 1
    | NotPolyline           // PolylineRoiWrapper: the type tag is not POLYLINE
    | NonZeroStrokeWidth    // PolylineRoiWrapper: the stroke width is not 0
    | SplineFitted          // PolylineRoiWrapper: the shape is spline fit

  datatype Error =
    | InvalidDimension(d: int)             // IllegalArgumentException("Invalid dimension d")
    | UnsupportedMutation(operation: string) // UnsupportedOperationException(operation)
    | MalformedShape(why: Malformation)    // IllegalArgumentException at wrap time
    | IndexOutOfBounds(index: int)         // an array index outside the vertex arrays

  /** The value of a query, or the error it raises. */
  datatype Result<T> = Ok(value: T) | Err(error: Error)

  /** The outcome of a command that returns nothing in the source. */
  datatype Outcome = Pass | Fail(error: Error)
}
