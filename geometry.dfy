/** Axis-aligned rectangles in continuous pixel space and the collision tests
    the game uses for walls, the player, enemies, coins and the door. */
module Geometry {

  /** A hitbox: top-left anchor plus size. */
  datatype Rect = Rect(left: real, top: real, width: real, height: real)

  /** The top-left anchor of an entity. */
  datatype Position = Position(left: real, top: real)

  /** The hitbox of size `width` x `height` anchored at `p`. */
  function Box(p: Position, width: real, height: real): (r: Rect)
    ensures r.left == p.left && r.top == p.top && r.width == width && r.height == height
  {
    Rect(p.left, p.top, width, height)
  }

  /** Rectangles as the game builds them always have a positive size. */
  predicate WellFormed(r: Rect) {
    r.width > 0.0 && r.height > 0.0
  }

  /** Strict overlap test shared by checkSafeAreaCollision, checkWallOverlap,
      checkWallCollision and every inline hitbox test: touching edges do not overlap. */
  predicate Overlaps(a: Rect, b: Rect) {
    a.left < b.left + b.width && a.left + a.width > b.left &&
    a.top < b.top + b.height && a.top + a.height > b.top
  }

  /** Overlap does not depend on the order of its arguments. */
  lemma OverlapsSymmetric(a: Rect, b: Rect)
    ensures Overlaps(a, b) <==> Overlaps(b, a)
  {
  }

  /** (x, y) lies strictly inside `r`. */
  predicate Inside(r: Rect, x: real, y: real) {
    r.left < x < r.left + r.width && r.top < y < r.top + r.height
  }

  function Max(a: real, b: real): real { if a < b then b else a }
  function Min(a: real, b: real): real { if a < b then a else b }

  /** The strict test is exactly "the two open rectangles share a point". */
  lemma OverlapsIffCommonPoint(a: Rect, b: Rect)
    requires WellFormed(a) && WellFormed(b)
    ensures Overlaps(a, b) <==> exists x: real, y: real :: Inside(a, x, y) && Inside(b, x, y)
  {
    if Overlaps(a, b) {
      var x := (Max(a.left, b.left) + Min(a.left + a.width, b.left + b.width)) / 2.0;
      var y := (Max(a.top, b.top) + Min(a.top + a.height, b.top + b.height)) / 2.0;
      assert Inside(a, x, y) && Inside(b, x, y);
    }
  }

  /** `rects.some(overlaps r)`: a left-to-right, short-circuiting fold. */
  predicate CollidesAny(r: Rect, rects: seq<Rect>) {
    |rects| > 0 && (Overlaps(r, rects[0]) || CollidesAny(r, rects[1..]))
  }

  /** The fold agrees with the existential reading of `some`. */
  lemma {:induction false} CollidesAnyIff(r: Rect, rects: seq<Rect>)
    ensures CollidesAny(r, rects) <==> exists i :: 0 <= i < |rects| && Overlaps(r, rects[i])
  {
    if |rects| > 0 {
      CollidesAnyIff(r, rects[1..]);
      if !Overlaps(r, rects[0]) && !CollidesAny(r, rects[1..]) {
        forall i | 0 <= i < |rects|
          ensures !Overlaps(r, rects[i])
        {
          if i > 0 {
            assert rects[i] == rects[1..][i - 1];
          }
        }
      }
      if CollidesAny(r, rects[1..]) {
        var j :| 0 <= j < |rects[1..]| && Overlaps(r, rects[1..][j]);
        assert rects[j + 1] == rects[1..][j];
      }
    }
  }

  /** A rectangle that hits no element of `a + b` hits none of `a` and none of `b`. */
  lemma {:induction false} CollidesAnyAppend(r: Rect, a: seq<Rect>, b: seq<Rect>)
    ensures CollidesAny(r, a + b) <==> CollidesAny(r, a) || CollidesAny(r, b)
  {
    if |a| > 0 {
      assert (a + b)[1..] == a[1..] + b;
      CollidesAnyAppend(r, a[1..], b);
    } else {
      assert a + b == b;
    }
  }

  /** checkWallSpawn: a spawn spot is free when it hits no wall. */
  predicate WallSpawn(r: Rect, walls: seq<Rect>) {
    !CollidesAny(r, walls)
  }

  /** checkPlayerSafeAreaCollision: the anchor (left, top) lies strictly within
      `radius` of `center`'s anchor. Math.sqrt(d) < radius is written d < radius^2,
      which is the same test for the positive radius the game uses. */
  predicate WithinRadius(left: real, top: real, radius: real, center: Position) {
    var dx := left - center.left;
    var dy := top - center.top;
    dx * dx + dy * dy < radius * radius
  }
}
