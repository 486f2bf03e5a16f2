/**
 * Axis-aligned rectangles of the 800x600 playfield and the overlap test that
 * every collision in the game goes through (checkCollision).
 */
module Geometry {

  /** Position of the top-left corner, and extent; y grows downwards. */
  datatype Box = Box(x: real, y: real, width: real, height: real)

  /** A box with a non-empty interior. */
  predicate Proper(b: Box) {
    b.width > 0.0 && b.height > 0.0
  }

  /** The point (px, py) lies strictly inside b. */
  predicate Inside(px: real, py: real, b: Box) {
    b.x < px < b.x + b.width && b.y < py < b.y + b.height
  }

  /**
   * The game's collision test: strict inequalities on both axes, so two
   * boxes that only share an edge do not collide.
   */
  predicate Overlaps(a: Box, b: Box) {
    a.x < b.x + b.width &&
    a.x + a.width > b.x &&
    a.y < b.y + b.height &&
    a.y + a.height > b.y
  }

  function Min(a: real, b: real): real { if a <= b then a else b }
  function Max(a: real, b: real): real { if a <= b then b else a }

  /** The order of the two arguments does not matter. */
  lemma OverlapsSymmetric(a: Box, b: Box)
    ensures Overlaps(a, b) == Overlaps(b, a)
  {
  }

  /** Boxes that touch along a vertical or a horizontal edge do not collide. */
  lemma EdgeContactIsNoOverlap(a: Box, b: Box)
    requires a.x + a.width == b.x || b.x + b.width == a.x ||
             a.y + a.height == b.y || b.y + b.height == a.y
    ensures !Overlaps(a, b)
  {
  }

  /**
   * For boxes with an interior, the test says exactly that the two boxes
   * share an interior point.
   */
  lemma OverlapsIffSharedPoint(a: Box, b: Box)
    requires Proper(a) && Proper(b)
    ensures Overlaps(a, b) <==> exists px, py :: Inside(px, py, a) && Inside(px, py, b)
  {
    if Overlaps(a, b) {
      var px := (Max(a.x, b.x) + Min(a.x + a.width, b.x + b.width)) / 2.0;
      var py := (Max(a.y, b.y) + Min(a.y + a.height, b.y + b.height)) / 2.0;
      assert Inside(px, py, a) && Inside(px, py, b);
    }
  }
}
