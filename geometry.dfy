/** Axis-aligned rectangles and the overlap test every collision in the game uses. */
module Geometry {

  /** A rectangle with top-left corner (x, y), width w and height h (screen coordinates, y down). */
  datatype Rect = Rect(x: real, y: real, w: real, h: real)

  /** Width and height are not negative. */
  predicate Proper(r: Rect) {
    r.w >= 0.0 && r.h >= 0.0
  }

  /** The point (px, py) lies in the closed rectangle r. */
  predicate Contains(r: Rect, px: real, py: real) {
    r.x <= px <= r.x + r.w && r.y <= py <= r.y + r.h
  }

  function Max(a: real, b: real): real {
    if a >= b then a else b
  }

  function Min(a: real, b: real): real {
    if a <= b then a else b
  }

  /** rectsOverlap: two rectangles overlap unless one lies strictly beside, above or below
      the other. The comparisons are strict, so shared edges count as overlap. */
  predicate RectsOverlap(a: Rect, b: Rect) {
    !(a.x + a.w < b.x || a.x > b.x + b.w || a.y + a.h < b.y || a.y > b.y + b.h)
  }

  /** The test does not depend on the order of its arguments. */
  lemma OverlapSymmetric(a: Rect, b: Rect)
    ensures RectsOverlap(a, b) == RectsOverlap(b, a)
  {
  }

  /** Rectangles that only touch (right edge of one on the left edge of the other, with
      vertical extents that meet) count as overlapping. */
  lemma TouchingEdgesOverlap(a: Rect, b: Rect)
    requires Proper(a) && Proper(b)
    requires a.x + a.w == b.x
    requires a.y <= b.y + b.h && b.y <= a.y + a.h
    ensures RectsOverlap(a, b)
  {
  }

  /** For rectangles of non-negative size the test agrees with the geometric meaning:
      the closed rectangles have a point in common. */
  lemma OverlapIffCommonPoint(a: Rect, b: Rect)
    requires Proper(a) && Proper(b)
    ensures RectsOverlap(a, b) <==> exists px, py :: Contains(a, px, py) && Contains(b, px, py)
  {
    if RectsOverlap(a, b) {
      var px, py := Max(a.x, b.x), Max(a.y, b.y);
      assert Contains(a, px, py) && Contains(b, px, py);
    }
  }
}
