/** LineWrapper: an ImageJ 1.x line seen as an ImgLib2 line mask. Every query
    reads the backing line's current endpoints; the endpoints it hands out
    are copies that refuse every change of position. */
module LineWrapping {

  import opened Errors
  import opened Geometry
  import opened LegacyRois

  /** The position-changing calls of an ImgLib2 point (`move`, `setPosition`,
      `fwd`, `bck`), with the int, long, float and double overloads merged. */
  datatype Mutation =
    | MoveAlong(distance: real, d: int)       // move(distance, d)
    | MoveBy(offsets: seq<real>)              // move(distance[]) and move(localizable)
    | SetPositionTo(coords: seq<real>)        // setPosition(position[]) and setPosition(localizable)
    | SetCoordinate(value: real, d: int)      // setPosition(position, d)
    | Fwd(d: int)
    | Bck(d: int)

  /** The operation name each mutation reports when it is refused. */
  function MutationName(m: Mutation): string
  {
    match m
    case MoveAlong(_, _) => "move"
    case MoveBy(_) => "move"
    case SetPositionTo(_) => "setPosition"
    case SetCoordinate(_, _) => "setPosition"
    case Fwd(_) => "fwd"
    case Bck(_) => "bck"
  }

  /** A snapshot of one endpoint; it cannot be moved. */
  class LineEndPoint {
    const position: Point

    constructor (x: real, y: real)
      ensures position == Point(x, y)
    {
      position := Point(x, y);
    }

    /** Any attempt to move the endpoint fails with the operation's name and
        changes nothing. */
    method Apply(m: Mutation) returns (o: Outcome)
      ensures o.Fail? && o.error.UnsupportedMutation?
      ensures o.error.operation in {"move", "setPosition", "fwd", "bck"}
      ensures o.error.operation == MutationName(m)
    {
      o := Fail(UnsupportedMutation(MutationName(m)));
    }
  }

  class LineWrapper {
    const line: Line

    /** Wraps an existing line; the source refuses this when the global line
        width exceeds 1 (see Wrap). */
    constructor (line: Line, lineWidth: int)
      requires lineWidth <= 1
      ensures this.line == line
    {
      this.line := line;
    }

    /** Builds a new line with the given endpoints and wraps it. */
    constructor FromCoordinates(x1: real, y1: real, x2: real, y2: real)
      ensures fresh(line)
      ensures line.x1d == x1 && line.y1d == y1 && line.x2d == x2 && line.y2d == y2
    {
      line := new Line(x1, y1, x2, y2);
    }

    /** The wrapping constructor with its check: fails exactly when the line
        width is above 1, and otherwise wraps the very same line. */
    static method Wrap(line: Line, lineWidth: int) returns (r: Result<LineWrapper>)
      ensures r.Err? <==> lineWidth > 1
      ensures r.Err? ==> r.error == MalformedShape(LineWidthAboveOne)
      ensures r.Ok? ==> r.value.line == line
    {
      if lineWidth > 1 {
        r := Err(MalformedShape(LineWidthAboveOne));
      } else {
        var w := new LineWrapper(line, lineWidth);
        r := Ok(w);
      }
    }

    function One(): Point
      reads line
    {
      Point(line.x1d, line.y1d)
    }

    function Two(): Point
      reads line
    {
      Point(line.x2d, line.y2d)
    }

    /** Containment is membership in the closed segment between the current
        endpoints; a contained point lies within the wrapper's bounds. */
    function Test(p: Point): (b: bool)
      reads line
      ensures b <==> OnSegmentRef(One(), Two(), p)
      ensures b ==> InInterval(Point(Min(line.x1d, line.x2d), Min(line.y1d, line.y2d)),
                               Point(Max(line.x1d, line.x2d), Max(line.y1d, line.y2d)), p)
    {
      OnSegmentIffRef(One(), Two(), p);
      OnSegment(One(), Two(), p)
    }

    /** The lower bound along dimension d: the smaller endpoint coordinate. */
    function RealMin(d: int): (r: Result<real>)
      reads line
      ensures r.Err? <==> d != 0 && d != 1
      ensures r.Err? ==> r.error == InvalidDimension(d)
      ensures r.Ok? ==> IsLeast(r.value, [Coord(One(), d), Coord(Two(), d)])
    {
      if d != 0 && d != 1 then Err(InvalidDimension(d))
      else if d == 0 then Ok(Min(line.x1d, line.x2d))
      else Ok(Min(line.y1d, line.y2d))
    }

    /** The upper bound along dimension d: the larger endpoint coordinate. */
    function RealMax(d: int): (r: Result<real>)
      reads line
      ensures r.Err? <==> d != 0 && d != 1
      ensures r.Err? ==> r.error == InvalidDimension(d)
      ensures r.Ok? ==> IsGreatest(r.value, [Coord(One(), d), Coord(Two(), d)])
    {
      if d != 0 && d != 1 then Err(InvalidDimension(d))
      else if d == 0 then Ok(Max(line.x1d, line.x2d))
      else Ok(Max(line.y1d, line.y2d))
    }

    /** A fresh, immovable copy of the first endpoint. */
    method EndpointOne() returns (e: LineEndPoint)
      ensures fresh(e) && e.position == One()
    {
      e := new LineEndPoint(line.x1d, line.y1d);
    }

    /** A fresh, immovable copy of the second endpoint. */
    method EndpointTwo() returns (e: LineEndPoint)
      ensures fresh(e) && e.position == Two()
    {
      e := new LineEndPoint(line.x2d, line.y2d);
    }

    /** Unwrapping gives back the backing line itself, not a copy. */
    function GetRoi(): (l: Line)
      ensures l == line
    {
      line
    }
  }

  /** Along each valid dimension the lower bound does not exceed the upper. */
  lemma BoundsOrdered(w: LineWrapper, d: int)
    requires d == 0 || d == 1
    ensures w.RealMin(d).Ok? && w.RealMax(d).Ok?
    ensures w.RealMin(d).value <= w.RealMax(d).value
  {
    var s := [Coord(w.One(), d), Coord(w.Two(), d)];
    assert w.RealMin(d).value <= s[0] <= w.RealMax(d).value;
  }

  /** Both current endpoints are contained in the wrapped line. */
  lemma EndpointsContained(w: LineWrapper)
    ensures w.Test(w.One()) && w.Test(w.Two())
  {
    EndpointsOnSegment(w.One(), w.Two());
    OnSegmentIffRef(w.One(), w.Two(), w.One());
    OnSegmentIffRef(w.One(), w.Two(), w.Two());
  }

  /** The line from (10.5, 20) to (120.5, 150): its endpoints are contained;
      (17, 126), (4, 115) and (20.25, 40.125) are not collinear with it and
      so are not; its bounds are [10.5, 120.5] x [20, 150]. */
  lemma ReferenceLine(w: LineWrapper)
    requires w.line.x1d == 10.5 && w.line.y1d == 20.0
    requires w.line.x2d == 120.5 && w.line.y2d == 150.0
    ensures w.Test(Point(10.5, 20.0)) && w.Test(Point(120.5, 150.0))
    ensures !w.Test(Point(17.0, 126.0))
    ensures !w.Test(Point(4.0, 115.0))
    ensures !w.Test(Point(20.25, 40.125))
    ensures w.RealMin(0) == Ok(10.5) && w.RealMin(1) == Ok(20.0)
    ensures w.RealMax(0) == Ok(120.5) && w.RealMax(1) == Ok(150.0)
  {
    EndpointsContained(w);
    assert Cross(w.One(), w.Two(), Point(17.0, 126.0)) != 0.0;
    assert Cross(w.One(), w.Two(), Point(4.0, 115.0)) != 0.0;
    assert Cross(w.One(), w.Two(), Point(20.25, 40.125)) != 0.0;
  }
}
