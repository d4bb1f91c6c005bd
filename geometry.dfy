/** Two-dimensional real geometry shared by the wrappers: points, closed
    intervals, the exact point-on-segment test, ellipse membership, and the
    least and greatest element of a coordinate sequence. */
module Geometry {

  datatype Point = Point(x: real, y: real)

  function Min(a: real, b: real): real { if a <= b then a else b }

  function Max(a: real, b: real): real { if a >= b then a else b }

  /** Coordinate `d` of `p` (0 is x, 1 is y). */
  function Coord(p: Point, d: int): real
    requires d == 0 || d == 1
  {
    if d == 0 then p.x else p.y
  }

  function Translate(p: Point, delta: Point): Point
  {
    Point(p.x + delta.x, p.y + delta.y)
  }

  // -- Least and greatest elements ------------------------------------------

  predicate IsLeast(m: real, s: seq<real>)
  {
    m in s && forall k :: 0 <= k < |s| ==> m <= s[k]
  }

  predicate IsGreatest(m: real, s: seq<real>)
  {
    m in s && forall k :: 0 <= k < |s| ==> s[k] <= m
  }

  function SeqMin(s: seq<real>): (m: real)
    requires |s| > 0
    ensures IsLeast(m, s)
  {
    if |s| == 1 then s[0]
    else
      var rest := SeqMin(s[1..]);
      assert s == [s[0]] + s[1..];
      Min(s[0], rest)
  }

  function SeqMax(s: seq<real>): (m: real)
    requires |s| > 0
    ensures IsGreatest(m, s)
  {
    if |s| == 1 then s[0]
    else
      var rest := SeqMax(s[1..]);
      assert s == [s[0]] + s[1..];
      Max(s[0], rest)
  }

  /** The least coordinate along dimension d (0 for x, 1 for y) of the
      points stored as parallel coordinate lists. */
  function CoordMin(xs: seq<real>, ys: seq<real>, d: int): (m: real)
    requires |xs| == |ys| && |xs| > 0 && (d == 0 || d == 1)
    ensures IsLeast(m, if d == 0 then xs else ys)
  {
    if d == 0 then SeqMin(xs) else SeqMin(ys)
  }

  /** The greatest coordinate along dimension d of the same points. */
  function CoordMax(xs: seq<real>, ys: seq<real>, d: int): (m: real)
    requires |xs| == |ys| && |xs| > 0 && (d == 0 || d == 1)
    ensures IsGreatest(m, if d == 0 then xs else ys)
  {
    if d == 0 then SeqMax(xs) else SeqMax(ys)
  }

  /** `s` without its element at index `i`. */
  function RemoveAt<T>(s: seq<T>, i: nat): (r: seq<T>)
    requires i < |s|
    ensures |r| == |s| - 1
    ensures forall k :: 0 <= k < i ==> r[k] == s[k]
    ensures forall k :: i <= k < |r| ==> r[k] == s[k + 1]
  {
    s[..i] + s[i + 1..]
  }

  /** Every element of `RemoveAt(s, i)` was an element of `s`. */
  lemma {:induction false} RemoveAtSubset<T>(s: seq<T>, i: nat, v: T)
    requires i < |s|
    requires v in RemoveAt(s, i)
    ensures v in s
  {
    var r := RemoveAt(s, i);
    var k :| 0 <= k < |r| && r[k] == v;
    if k < i { assert s[k] == v; } else { assert s[k + 1] == v; }
  }

  /** Removing an element can only narrow the range of a sequence. */
  lemma {:induction false} RemoveAtNarrowsRange(s: seq<real>, i: nat)
    requires i < |s| && |s| > 1
    ensures SeqMin(s) <= SeqMin(RemoveAt(s, i))
    ensures SeqMax(RemoveAt(s, i)) <= SeqMax(s)
  {
    RemoveAtSubset(s, i, SeqMin(RemoveAt(s, i)));
    RemoveAtSubset(s, i, SeqMax(RemoveAt(s, i)));
  }

  /** Appending `v` extends the range of `s` exactly to include `v`. */
  lemma {:induction false} AppendExtendsRange(s: seq<real>, v: real)
    requires |s| > 0
    ensures SeqMin(s + [v]) == Min(SeqMin(s), v)
    ensures SeqMax(s + [v]) == Max(SeqMax(s), v)
  {
    var t := s + [v];
    var lo, hi := SeqMin(t), SeqMax(t);
    assert t[|s|] == v;
    assert forall k :: 0 <= k < |s| ==> t[k] == s[k];
    var j :| 0 <= j < |t| && t[j] == lo;
    var l :| 0 <= l < |t| && t[l] == hi;
    if j < |s| { assert lo == s[j]; }
    if l < |s| { assert hi == s[l]; }
  }

  // -- Intervals and segments -----------------------------------------------

  /** Closed interval containment, per axis. */
  predicate InInterval(lo: Point, hi: Point, p: Point)
  {
    lo.x <= p.x <= hi.x && lo.y <= p.y <= hi.y
  }

  /** Twice the signed area of the triangle (a, b, p); zero iff collinear. */
  function Cross(a: Point, b: Point, p: Point): real
  {
    (b.x - a.x) * (p.y - a.y) - (b.y - a.y) * (p.x - a.x)
  }

  /** Exact segment containment: p is collinear with a and b and lies in the
      box they span. */
  predicate OnSegment(a: Point, b: Point, p: Point)
  {
    Cross(a, b, p) == 0.0 &&
    InInterval(Point(Min(a.x, b.x), Min(a.y, b.y)), Point(Max(a.x, b.x), Max(a.y, b.y)), p)
  }

  function Lerp(a: Point, b: Point, t: real): Point
  {
    Point(a.x + t * (b.x - a.x), a.y + t * (b.y - a.y))
  }

  /** Reference definition of the closed segment from a to b. */
  ghost predicate OnSegmentRef(a: Point, b: Point, p: Point)
  {
    exists t: real :: 0.0 <= t <= 1.0 && Lerp(a, b, t) == p
  }

  // Nonlinear facts, each stated over its own parameters so that callers
  // pass the exact terms they reason about.

  lemma NonnegMul(a: real, b: real)
    requires a >= 0.0 && b >= 0.0
    ensures a * b >= 0.0
  {
  }

  lemma NonnegDiv(a: real, k: real)
    requires a >= 0.0 && k > 0.0
    ensures a / k >= 0.0
  {
  }

  lemma MulCancelLe(x: real, y: real, k: real)
    requires k > 0.0 && x * k <= y * k
    ensures x <= y
  {
    assert (y - x) * k == y * k - x * k;
    NonnegDiv((y - x) * k, k);
    assert ((y - x) * k) / k == y - x;
  }

  /** t = n / k lies in [0, 1] when n lies between 0 and k. */
  lemma DivideWithin(n: real, k: real, t: real)
    requires k != 0.0 && t == n / k
    requires (0.0 <= n <= k) || (k <= n <= 0.0)
    ensures 0.0 <= t <= 1.0
  {
    assert t * k == n;
    if k > 0.0 {
      NonnegDiv(n, k);
      MulCancelLe(t, 1.0, k);
    } else {
      NonnegDiv(-n, -k);
      assert (-n) / (-k) == t;
      assert t * (-k) == -n;
      MulCancelLe(t, 1.0, -k);
    }
  }

  /** For 0 <= t <= 1, t * (v - u) lies between 0 and v - u. */
  lemma ScaledRange(t: real, u: real, v: real)
    requires 0.0 <= t <= 1.0
    ensures u <= v ==> 0.0 <= t * (v - u) <= v - u
    ensures v <= u ==> v - u <= t * (v - u) <= 0.0
  {
    if u <= v {
      NonnegMul(t, v - u);
      NonnegMul(1.0 - t, v - u);
      assert (v - u) - t * (v - u) == (1.0 - t) * (v - u);
    }
    if v <= u {
      NonnegMul(t, u - v);
      NonnegMul(1.0 - t, u - v);
      assert t * (v - u) == - (t * (u - v));
      assert (u - v) - t * (u - v) == (1.0 - t) * (u - v);
    }
  }

  lemma LerpBetween(u: real, v: real, t: real)
    requires 0.0 <= t <= 1.0
    ensures Min(u, v) <= u + t * (v - u) <= Max(u, v)
  {
    ScaledRange(t, u, v);
  }

  /** When a and b differ in x, the x-parameter of p places p on the segment. */
  lemma OnSegmentParamX(a: Point, b: Point, p: Point) returns (t: real)
    requires OnSegment(a, b, p) && a.x != b.x
    ensures 0.0 <= t <= 1.0 && Lerp(a, b, t) == p
  {
    var k := b.x - a.x;
    t := (p.x - a.x) / k;
    DivideWithin(p.x - a.x, k, t);
    assert t * k == p.x - a.x;
    assert k * (p.y - a.y) == (b.y - a.y) * (t * k);
    assert k * (p.y - a.y) == k * (t * (b.y - a.y));
    assert p.y - a.y == t * (b.y - a.y);
  }

  /** The mirror image of OnSegmentParamX for a and b differing in y. */
  lemma OnSegmentParamY(a: Point, b: Point, p: Point) returns (t: real)
    requires OnSegment(a, b, p) && a.y != b.y
    ensures 0.0 <= t <= 1.0 && Lerp(a, b, t) == p
  {
    var k := b.y - a.y;
    t := (p.y - a.y) / k;
    DivideWithin(p.y - a.y, k, t);
    assert t * k == p.y - a.y;
    assert k * (p.x - a.x) == (b.x - a.x) * (t * k);
    assert k * (p.x - a.x) == k * (t * (b.x - a.x));
    assert p.x - a.x == t * (b.x - a.x);
  }

  /** The exact test agrees with the parametric reference, in both directions. */
  lemma OnSegmentIffRef(a: Point, b: Point, p: Point)
    ensures OnSegment(a, b, p) <==> OnSegmentRef(a, b, p)
  {
    if OnSegment(a, b, p) {
      var t: real;
      if a.x != b.x {
        t := OnSegmentParamX(a, b, p);
      } else if a.y != b.y {
        t := OnSegmentParamY(a, b, p);
      } else {
        t := 0.0;
        assert Lerp(a, b, t) == a == p;
      }
      assert 0.0 <= t <= 1.0 && Lerp(a, b, t) == p;
    }
    if OnSegmentRef(a, b, p) {
      var t: real :| 0.0 <= t <= 1.0 && Lerp(a, b, t) == p;
      assert (b.x - a.x) * (t * (b.y - a.y)) == (b.y - a.y) * (t * (b.x - a.x));
      assert Cross(a, b, p) == 0.0;
      LerpBetween(a.x, b.x, t);
      LerpBetween(a.y, b.y, t);
    }
  }

  /** Both endpoints of a segment lie on it. */
  lemma EndpointsOnSegment(a: Point, b: Point)
    ensures OnSegment(a, b, a) && OnSegment(a, b, b)
  {
    assert Cross(a, b, b) == (b.x - a.x) * (b.y - a.y) - (b.y - a.y) * (b.x - a.x);
  }

  // -- Ellipses ---------------------------------------------------------------

  /** (u, v) lies in the closed unit disc. */
  predicate InUnitDisc(u: real, v: real)
  {
    u * u + v * v <= 1.0
  }

  /** Closed, axis-aligned ellipse with center `c` and semi-axes `a`, `b`:
      ((px - cx) / a)^2 + ((py - cy) / b)^2 <= 1; false when an axis is not
      positive. */
  predicate EllipseContains(c: Point, a: real, b: real, p: Point)
  {
    a > 0.0 && b > 0.0 && InUnitDisc((p.x - c.x) / a, (p.y - c.y) / b)
  }

  lemma UnitDiscBound(u: real, v: real)
    requires InUnitDisc(u, v)
    ensures -1.0 <= u <= 1.0 && -1.0 <= v <= 1.0
  {
    assert v * v >= 0.0;
    assert u * u >= 0.0;
    assert (1.0 - u) * (1.0 + u) == 1.0 - u * u;
    assert (1.0 - v) * (1.0 + v) == 1.0 - v * v;
  }

  lemma ScaledAtMost(u: real, a: real)
    requires a > 0.0 && u <= 1.0
    ensures u * a <= a
  {
    assert a - u * a == (1.0 - u) * a;
  }

  lemma ScaledAtLeast(u: real, a: real)
    requires a > 0.0 && -1.0 <= u
    ensures -a <= u * a
  {
    assert a + u * a == (1.0 + u) * a;
  }

  /** |d / a| <= 1 puts d within a of zero. */
  lemma ScaleBack(d: real, a: real)
    requires a > 0.0 && -1.0 <= d / a <= 1.0
    ensures -a <= d <= a
  {
    var u := d / a;
    assert u * a == d;
    ScaledAtMost(u, a);
    ScaledAtLeast(u, a);
  }

  /** A point of the ellipse lies within one semi-axis of the center on each
      axis, so the box [c - (a, b), c + (a, b)] bounds it. */
  lemma EllipseWithinBox(c: Point, a: real, b: real, p: Point)
    requires EllipseContains(c, a, b, p)
    ensures InInterval(Point(c.x - a, c.y - b), Point(c.x + a, c.y + b), p)
  {
    UnitDiscBound((p.x - c.x) / a, (p.y - c.y) / b);
    ScaleBack(p.x - c.x, a);
    ScaleBack(p.y - c.y, b);
  }

  /** The center and the four axis extremes c ± (a, 0), c ± (0, b) belong to
      the closed ellipse whenever both semi-axes are positive. */
  lemma EllipseCenterAndExtremes(c: Point, a: real, b: real)
    requires a > 0.0 && b > 0.0
    ensures EllipseContains(c, a, b, c)
    ensures EllipseContains(c, a, b, Point(c.x + a, c.y)) && EllipseContains(c, a, b, Point(c.x - a, c.y))
    ensures EllipseContains(c, a, b, Point(c.x, c.y + b)) && EllipseContains(c, a, b, Point(c.x, c.y - b))
  {
    assert (c.x + a - c.x) / a == 1.0;
    assert (c.x - a - c.x) / a == -1.0;
    assert (c.y + b - c.y) / b == 1.0;
    assert (c.y - b - c.y) / b == -1.0;
  }

  /** Moving the center and the point by the same offset keeps membership. */
  lemma EllipseTranslation(c: Point, a: real, b: real, p: Point, delta: Point)
    ensures EllipseContains(Translate(c, delta), a, b, Translate(p, delta)) ==
            EllipseContains(c, a, b, p)
  {
    assert Translate(p, delta).x - Translate(c, delta).x == p.x - c.x;
    assert Translate(p, delta).y - Translate(c, delta).y == p.y - c.y;
  }
}
