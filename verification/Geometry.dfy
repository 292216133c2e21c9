// Boxes, centers and the directed gate of app/services/calibration.py.
//
// A comparison of a Euclidean distance with a limit is stated on squares, so
// no square root appears.
module Geometry {

  datatype Point = Point(x: real, y: real)

  datatype Box = Box(x: real, y: real, w: real, h: real)

  datatype Gate = Gate(start: Point, end: Point, sourceSide: int)

  function Center(b: Box): Point {
    Point(b.x + b.w / 2.0, b.y + b.h / 2.0)
  }

  function DistanceSq(a: Point, b: Point): real {
    (a.x - b.x) * (a.x - b.x) + (a.y - b.y) * (a.y - b.y)
  }

  // distance(a, b) <= limit
  predicate Within(a: Point, b: Point, limit: real) {
    limit >= 0.0 && DistanceSq(a, b) <= limit * limit
  }

  // The share of box's area that other covers, clamped to [0, 1].
  function Overlap(box: Box, other: Box): real {
    var left := if box.x >= other.x then box.x else other.x;
    var top := if box.y >= other.y then box.y else other.y;
    var right := if box.x + box.w <= other.x + other.w then box.x + box.w else other.x + other.w;
    var bottom := if box.y + box.h <= other.y + other.h then box.y + box.h else other.y + other.h;
    if right <= left || bottom <= top then 0.0
    else
      var area := if box.w * box.h >= 0.000001 then box.w * box.h else 0.000001;
      var share := ((right - left) * (bottom - top)) / area;
      if share <= 0.0 then 0.0 else if share >= 1.0 then 1.0 else share
  }

  function GateSide(p: Point, g: Gate): int {
    var cross := (g.end.x - g.start.x) * (p.y - g.start.y) - (g.end.y - g.start.y) * (p.x - g.start.x);
    if cross > 0.0 then 1 else if cross < 0.0 then -1 else 0
  }

  // From the gate's source side strictly to the other side.
  predicate CrossedAllowed(previous: Point, current: Point, g: Gate) {
    var before := GateSide(previous, g);
    var after := GateSide(current, g);
    before != 0 && after != 0 && before == g.sourceSide && after == -g.sourceSide
  }

  // ----- what the gate and the overlap mean -----

  // Twice the signed area of the triangle of the gate and the point.
  function Cross(p: Point, g: Gate): real {
    (g.end.x - g.start.x) * (p.y - g.start.y) - (g.end.y - g.start.y) * (p.x - g.start.x)
  }

  // The point a part t of the way from a to b.
  function OnTheWay(a: Point, b: Point, t: real): Point {
    Point(a.x + t * (b.x - a.x), a.y + t * (b.y - a.y))
  }

  lemma CrossOnTheWay(a: Point, b: Point, g: Gate, t: real)
    ensures Cross(OnTheWay(a, b, t), g) == Cross(a, g) + t * (Cross(b, g) - Cross(a, g))
  {
    var (u, v) := (g.end.x - g.start.x, g.end.y - g.start.y);
    var (dx, dy) := (b.x - a.x, b.y - a.y);
    assert Cross(b, g) - Cross(a, g) == u * dy - v * dx;
    assert u * (t * dy) == t * (u * dy) && v * (t * dx) == t * (v * dx);
  }

  // A crossing starts on the source side, ends on the other and meets the line of
  // the gate in between; nothing else is one, and the way back never is.
  lemma CrossingMeetsLine(a: Point, b: Point, g: Gate)
    ensures CrossedAllowed(a, b, g)
            <==> (g.sourceSide == 1 && Cross(a, g) > 0.0 > Cross(b, g))
                 || (g.sourceSide == -1 && Cross(a, g) < 0.0 < Cross(b, g))
    ensures CrossedAllowed(a, b, g) ==>
      && !CrossedAllowed(b, a, g)
      && exists t :: 0.0 < t < 1.0 && Cross(OnTheWay(a, b, t), g) == 0.0
  {
    if CrossedAllowed(a, b, g) {
      var (x, y) := (Cross(a, g), Cross(b, g));
      var t := x / (x - y);
      PartOf(x, y);
      CrossOnTheWay(a, b, g, t);
      assert Cross(OnTheWay(a, b, t), g) == 0.0;
    }
  }

  lemma PartOf(x: real, y: real)
    requires (x > 0.0 && y < 0.0) || (x < 0.0 && y > 0.0)
    ensures var t := x / (x - y); 0.0 < t < 1.0 && x + t * (y - x) == 0.0
  {
    var t := x / (x - y);
    assert t * (x - y) == x;
    if x > 0.0 {
      assert t > 0.0 && t < 1.0;
    } else {
      assert (-x) / (y - x) == t;
    }
  }

  predicate BoxInside(a: Box, b: Box) {
    b.x <= a.x && a.x + a.w <= b.x + b.w && b.y <= a.y && a.y + a.h <= b.y + b.h
  }

  predicate BoxBeside(a: Box, b: Box) {
    a.x + a.w <= b.x || b.x + b.w <= a.x || a.y + a.h <= b.y || b.y + b.h <= a.y
  }

  // For a box of some size: the overlap is the share of it that the other covers;
  // a box inside the other is covered whole, one that does not meet it not at all.
  lemma OverlapIsShare(box: Box, other: Box)
    requires box.w > 0.0 && box.h > 0.0 && box.w * box.h >= 0.000001
    ensures 0.0 <= Overlap(box, other) <= 1.0
    ensures BoxBeside(box, other) ==> Overlap(box, other) == 0.0
    ensures BoxInside(box, other) ==> Overlap(box, other) == 1.0
    ensures BoxInside(other, box) && other.w > 0.0 && other.h > 0.0 ==>
      Overlap(box, other) * (box.w * box.h) == other.w * other.h
  {
    if BoxInside(other, box) && other.w > 0.0 && other.h > 0.0 {
      SmallerArea(other.w, other.h, box.w, box.h);
    }
  }

  lemma SmallerArea(w: real, h: real, w': real, h': real)
    requires 0.0 < w <= w' && 0.0 < h <= h' && w' * h' > 0.0
    ensures 0.0 < w * h <= w' * h'
    ensures 0.0 < (w * h) / (w' * h') <= 1.0 && ((w * h) / (w' * h')) * (w' * h') == w * h
  {
    assert w * h <= w' * h;
    assert w' * h <= w' * h';
    var q := (w * h) / (w' * h');
    assert q * (w' * h') == w * h;
  }
}
