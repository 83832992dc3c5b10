/** Axis-aligned boxes and the strict overlap test of the collision check. */
module Geometry {
  datatype Box = Box(x: real, y: real, width: real, height: real)

  /** `b` collides with `a`: every comparison is strict, so boxes that only touch do not. */
  predicate Overlaps(a: Box, b: Box) {
    b.x < a.x + a.width && b.x + b.width > a.x &&
    b.y < a.y + a.height && b.y + b.height > a.y
  }

  /** The point (px, py) lies strictly inside `b`. */
  predicate Inside(b: Box, px: real, py: real) {
    b.x < px < b.x + b.width && b.y < py < b.y + b.height
  }

  function Min(a: real, b: real): real { if a <= b then a else b }
  function Max(a: real, b: real): real { if a <= b then b else a }

  /** Reference definition of a collision: two boxes of positive size collide exactly when
      they share an interior point, so edge contact is never a collision. */
  lemma OverlapsIffCommonPoint(a: Box, b: Box)
    requires a.width > 0.0 && a.height > 0.0 && b.width > 0.0 && b.height > 0.0
    ensures Overlaps(a, b) <==> exists px, py :: Inside(a, px, py) && Inside(b, px, py)
  {
    if Overlaps(a, b) {
      var px := (Max(a.x, b.x) + Min(a.x + a.width, b.x + b.width)) / 2.0;
      var py := (Max(a.y, b.y) + Min(a.y + a.height, b.y + b.height)) / 2.0;
      assert Inside(a, px, py) && Inside(b, px, py);
    }
  }

  /** Which of the boxes overlap `a`, position by position. */
  function Touching(a: Box, boxes: seq<Box>): (t: seq<bool>)
    ensures |t| == |boxes| && forall j :: 0 <= j < |boxes| ==> t[j] == Overlaps(a, boxes[j])
  {
    seq(|boxes|, j requires 0 <= j < |boxes| => Overlaps(a, boxes[j]))
  }

  /** How many of the first `i` flags are set. */
  function CountBelow(t: seq<bool>, i: nat): (n: nat)
    requires i <= |t|
    ensures n <= i
  {
    if i == 0 then 0 else CountBelow(t, i - 1) + (if t[i - 1] then 1 else 0)
  }

  /** No flag among the first `i` is counted exactly when none of them is set. */
  lemma {:induction false} CountBelowNone(t: seq<bool>, i: nat)
    requires i <= |t|
    ensures CountBelow(t, i) == 0 <==> forall k :: 0 <= k < i ==> !t[k]
  {
    if i > 0 {
      CountBelowNone(t, i - 1);
    }
  }

  /** How many of `boxes` collide with `a`. */
  function Hits(a: Box, boxes: seq<Box>): (n: nat)
    ensures n <= |boxes|
  {
    CountBelow(Touching(a, boxes), |boxes|)
  }

  /** Nothing is hit exactly when no box overlaps `a`. */
  lemma HitsNone(a: Box, boxes: seq<Box>)
    ensures Hits(a, boxes) == 0 <==> forall k :: 0 <= k < |boxes| ==> !Overlaps(a, boxes[k])
  {
    CountBelowNone(Touching(a, boxes), |boxes|);
  }
}
