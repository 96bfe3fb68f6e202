/** Axis-aligned rectangles and the overlap test used for every collision in the shooter. */
module Geometry {
  /** A rectangle as `Entity.getRect` builds it: canvas pixels, y grows downwards. */
  datatype Rect = Rect(top: int, left: int, bottom: int, right: int)

  /** Edges in order: no negative width or height. */
  predicate WellFormed(r: Rect) {
    r.left <= r.right && r.top <= r.bottom
  }

  /** The point (px, py) lies in r, edges included. */
  predicate Contains(r: Rect, px: int, py: int) {
    r.left <= px <= r.right && r.top <= py <= r.bottom
  }

  /**
   * `intersects`: the separating-axis short-circuit. The rectangles are apart
   * only when b lies wholly to one side of a; the comparisons are strict, so
   * rectangles that only share an edge or a corner count as overlapping.
   */
  predicate Intersects(a: Rect, b: Rect) {
    !(b.left > a.right || b.right < a.left || b.top > a.bottom || b.bottom < a.top)
  }

  function Max(a: int, b: int): int {
    if a < b then b else a
  }

  /** The test does not depend on the order of its arguments. */
  lemma IntersectsSymmetric(a: Rect, b: Rect)
    ensures Intersects(a, b) == Intersects(b, a)
  {
  }

  /**
   * For well-formed rectangles the test agrees with the geometric meaning:
   * the two closed rectangles have a point in common.
   */
  lemma IntersectsIffSharedPoint(a: Rect, b: Rect)
    requires WellFormed(a) && WellFormed(b)
    ensures Intersects(a, b) <==> exists px, py :: Contains(a, px, py) && Contains(b, px, py)
  {
    if Intersects(a, b) {
      var px, py := Max(a.left, b.left), Max(a.top, b.top);
      assert Contains(a, px, py) && Contains(b, px, py);
    }
  }

  /** Rectangles side by side that share a stretch of one vertical edge intersect. */
  lemma TouchingEdgesIntersect(a: Rect, b: Rect)
    requires WellFormed(a) && WellFormed(b)
    requires a.right == b.left && a.top <= b.bottom && b.top <= a.bottom
    ensures Intersects(a, b) && Intersects(b, a)
  {
  }

  /** Moving one edge apart by a single pixel separates them: the comparison is exactly non-strict. */
  lemma OnePixelApartIsDisjoint(a: Rect, b: Rect)
    requires b.left == a.right + 1
    ensures !Intersects(a, b) && !Intersects(b, a)
  {
  }
}
