/**
  Plane geometry shared by the plan view, the elevation view and the CAD outline:
  intervals, axis-aligned rectangles and the line segments that draw them.
*/
module Geometry {

  /** A closed interval on one axis, from `lo` to `hi`. */
  datatype Span = Span(lo: real, hi: real)
  {
    function Extent(): real { hi - lo }
    function Mid(): real { (lo + hi) / 2.0 }
    predicate Within(outer: Span) { outer.lo <= lo && hi <= outer.hi }
  }

  /** An axis-aligned rectangle. */
  datatype Rect = Rect(x: Span, y: Span)
  {
    predicate Within(outer: Rect) { x.Within(outer.x) && y.Within(outer.y) }
  }

  datatype Point = Point(x: real, y: real)

  datatype Segment = Segment(start: Point, end: Point)

  /**
    The four sides of a rectangle in the order the drawings emit them:
    bottom, right, top, left. They form one closed, axis-aligned loop.
  */
  function Outline(r: Rect): (sides: seq<Segment>)
    ensures |sides| == 4
    ensures forall i :: 0 <= i < 4 ==> sides[i].end == sides[(i + 1) % 4].start
    ensures forall i :: 0 <= i < 4 ==> sides[i].start.x == sides[i].end.x || sides[i].start.y == sides[i].end.y
    ensures sides[0].start == Point(r.x.lo, r.y.lo) && sides[1].start == Point(r.x.hi, r.y.lo)
    ensures sides[2].start == Point(r.x.hi, r.y.hi) && sides[3].start == Point(r.x.lo, r.y.hi)
  {
    var p0 := Point(r.x.lo, r.y.lo);
    var p1 := Point(r.x.hi, r.y.lo);
    var p2 := Point(r.x.hi, r.y.hi);
    var p3 := Point(r.x.lo, r.y.hi);
    [Segment(p0, p1), Segment(p1, p2), Segment(p2, p3), Segment(p3, p0)]
  }
}
