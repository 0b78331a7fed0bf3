/** Geometry helpers and the decorative scarecrow obstacle (farmer-game/Obstacle.js). */
module Obstacle {

  /** Anything with a position and a size: the shape `aabb` reads from its arguments. */
  datatype Rect = Rect(x: real, y: real, width: real, height: real)

  /** A scarecrow: a static obstacle that is drawn but never collides with anything. */
  datatype Scarecrow = Scarecrow(x: real, y: real, width: real, height: real)
  {
    function Box(): Rect { Rect(x, y, width, height) }
  }

  const SCARECROW_WIDTH: real := 30.0
  const SCARECROW_HEIGHT: real := 40.0

  /** A scarecrow at the given position, with the fixed 30 x 40 size. */
  function NewScarecrow(x: real, y: real): (s: Scarecrow)
    ensures s.x == x && s.y == y
    ensures s.width == 30.0 && s.height == 40.0
  {
    Scarecrow(x, y, SCARECROW_WIDTH, SCARECROW_HEIGHT)
  }

  /** Strict overlap test of two axis-aligned rectangles: touching edges do not count. */
  predicate Aabb(a: Rect, b: Rect)
  {
    && a.x < b.x + b.width
    && a.x + a.width > b.x
    && a.y < b.y + b.height
    && a.y + a.height > b.y
  }

  /** The larger and the smaller of two numbers. */
  function Max(a: real, b: real): real { if a < b then b else a }
  function Min(a: real, b: real): real { if a < b then a else b }

  /** Restricts `v` to `[lo, hi]`; the outer maximum wins when `lo > hi`. */
  function Clamp(v: real, lo: real, hi: real): (r: real)
    ensures lo <= hi ==> lo <= r <= hi
    ensures lo <= v <= hi ==> r == v
    ensures lo > hi ==> r == lo
  {
    Max(lo, Min(hi, v))
  }

  /** A point strictly inside a rectangle: the reference notion of overlap. */
  predicate Inside(r: Rect, px: real, py: real)
  {
    r.x < px < r.x + r.width && r.y < py < r.y + r.height
  }

  lemma AabbSymmetric(a: Rect, b: Rect)
    ensures Aabb(a, b) == Aabb(b, a)
  {
  }

  /** Rectangles that only share an edge, on either axis, do not overlap. */
  lemma TouchingDoNotOverlap(a: Rect, b: Rect)
    requires a.x + a.width == b.x || b.x + b.width == a.x
          || a.y + a.height == b.y || b.y + b.height == a.y
    ensures !Aabb(a, b)
  {
  }

  /** A rectangle of positive size overlaps every positive-size rectangle it contains, itself included. */
  lemma AabbContained(a: Rect, b: Rect)
    requires b.width > 0.0 && b.height > 0.0
    requires a.x <= b.x && b.x + b.width <= a.x + a.width
    requires a.y <= b.y && b.y + b.height <= a.y + a.height
    ensures Aabb(a, b) && Aabb(b, a)
  {
  }

  lemma AabbReflexive(a: Rect)
    requires a.width > 0.0 && a.height > 0.0
    ensures Aabb(a, a)
  {
    AabbContained(a, a);
  }

  /**
    * For rectangles of positive size, `aabb` holds exactly when the two
    * rectangles share an interior point.
    */
  lemma AabbIffCommonPoint(a: Rect, b: Rect)
    requires a.width > 0.0 && a.height > 0.0 && b.width > 0.0 && b.height > 0.0
    ensures Aabb(a, b) <==> exists px, py :: Inside(a, px, py) && Inside(b, px, py)
  {
    if Aabb(a, b) {
      var px := (Max(a.x, b.x) + Min(a.x + a.width, b.x + b.width)) / 2.0;
      var py := (Max(a.y, b.y) + Min(a.y + a.height, b.y + b.height)) / 2.0;
      assert Inside(a, px, py) && Inside(b, px, py);
    }
  }

  /** Clamping a clamped value changes nothing. */
  lemma ClampIdempotent(v: real, lo: real, hi: real)
    ensures Clamp(Clamp(v, lo, hi), lo, hi) == Clamp(v, lo, hi)
  {
  }
}
