/** Axis-aligned boxes, the screen, and the overlap test that every
    collision check of the game shares. Coordinates are screen coordinates:
    (x, y) is the top-left corner and y grows downwards. */
module Geometry {

  /** A rectangle given by its top-left corner and its size. */
  datatype Box = Box(x: real, y: real, width: real, height: real)

  /** The drawing surface; its size may change between frames. */
  datatype Canvas = Canvas(width: real, height: real)

  /** The four-inequality overlap test written inline three times in
      updatePlayer (platforms, coins, enemies). */
  predicate Overlaps(a: Box, b: Box)
  {
    && a.x < b.x + b.width
    && a.x + a.width > b.x
    && a.y < b.y + b.height
    && a.y + a.height > b.y
  }

  /** The point (px, py) lies strictly inside b. */
  predicate Inside(b: Box, px: real, py: real)
  {
    b.x < px < b.x + b.width && b.y < py < b.y + b.height
  }

  /** Reference meaning of the overlap test: for boxes of positive size it
      holds exactly when some point lies strictly inside both, that is,
      when the intersection has positive area. */
  lemma OverlapsIffCommonPoint(a: Box, b: Box)
    requires a.width > 0.0 && a.height > 0.0 && b.width > 0.0 && b.height > 0.0
    ensures Overlaps(a, b) <==> exists px: real, py: real :: Inside(a, px, py) && Inside(b, px, py)
  {
    if Overlaps(a, b) {
      var left := if a.x < b.x then b.x else a.x;
      var right := if a.x + a.width < b.x + b.width then a.x + a.width else b.x + b.width;
      var top := if a.y < b.y then b.y else a.y;
      var bottom := if a.y + a.height < b.y + b.height then a.y + a.height else b.y + b.height;
      var px, py := (left + right) / 2.0, (top + bottom) / 2.0;
      assert Inside(a, px, py) && Inside(b, px, py);
    }
  }
}
