/**
 Arena geometry: points, the clamp that keeps a box inside the arena, and the
 axis-aligned rectangle overlap test used for collisions.

 A box is given by its lower-left corner `pos` and its extent `size`. Lengths
 are exact reals; no floating-point rounding is modelled.
 */
module Geometry {

  /** A two-component position or size: the source keeps these as two-element lists. */
  datatype Vec = Vec(x: real, y: real)

  function Max(a: real, b: real): real { if a < b then b else a }

  function Min(a: real, b: real): real { if b < a then b else a }

  /** One coordinate of the clamp: max(0, min(limit, v)). */
  function ClampAxis(limit: real, v: real): (r: real)
    ensures r >= 0.0
    ensures limit >= 0.0 ==> r <= limit
    ensures 0.0 <= v <= limit ==> r == v
    ensures limit < 0.0 ==> r == 0.0
    ensures v < 0.0 ==> r == 0.0
    ensures 0.0 <= limit <= v ==> r == limit
    ensures r == v || r == 0.0 || r == limit
  {
    Max(0.0, Min(limit, v))
  }

  /** The box at `pos` with extent `size` lies inside an arena of width `w` and height `h`. */
  predicate InBounds(w: real, h: real, pos: Vec, size: Vec)
  {
    0.0 <= pos.x <= w - size.x && 0.0 <= pos.y <= h - size.y
  }

  /**
   Moves the box at `pos` into the arena. Both coordinates are never negative;
   when the box fits the arena the result lies inside it, and a box that is
   already inside is left where it is.
   */
  function Clamp(w: real, h: real, pos: Vec, size: Vec): (r: Vec)
    ensures r.x >= 0.0 && r.y >= 0.0
    ensures w >= size.x ==> r.x <= w - size.x
    ensures h >= size.y ==> r.y <= h - size.y
    ensures w >= size.x && h >= size.y ==> InBounds(w, h, r, size)
    ensures InBounds(w, h, pos, size) ==> r == pos
  {
    Vec(ClampAxis(w - size.x, pos.x), ClampAxis(h - size.y, pos.y))
  }

  /** Clamping twice is clamping once, whatever the arena and box sizes. */
  lemma ClampIdempotent(w: real, h: real, pos: Vec, size: Vec)
    ensures Clamp(w, h, Clamp(w, h, pos, size), size) == Clamp(w, h, pos, size)
  {
    var r := Clamp(w, h, pos, size);
    assert ClampAxis(w - size.x, r.x) == r.x;
    assert ClampAxis(h - size.y, r.y) == r.y;
  }

  /** For non-negative lengths: the closed intervals [a, a + la] and [b, b + lb] share a point. */
  predicate Overlap(a: real, la: real, b: real, lb: real)
  {
    b <= a + la && a <= b + lb
  }

  /**
   The collision test: the boxes (p1, s1) and (p2, s2) are NOT separated on
   either axis. Every comparison in the separation test is strict, so boxes
   that only touch along an edge or at a corner count as hitting.
   */
  function RectHit(p1: Vec, s1: Vec, p2: Vec, s2: Vec): (r: bool)
    ensures r <==> Overlap(p1.x, s1.x, p2.x, s2.x) && Overlap(p1.y, s1.y, p2.y, s2.y)
  {
    !(p1.x + s1.x < p2.x || p2.x + s2.x < p1.x || p1.y + s1.y < p2.y || p2.y + s2.y < p1.y)
  }

  /** The collision test does not depend on which box is named first. */
  lemma RectHitSymmetric(p1: Vec, s1: Vec, p2: Vec, s2: Vec)
    ensures RectHit(p1, s1, p2, s2) == RectHit(p2, s2, p1, s1)
  {
  }

  /** Boxes that only touch, the right edge of one on the left edge of the other, hit. */
  lemma RectHitTouching(p1: Vec, s1: Vec, p2: Vec, s2: Vec)
    requires p1.x + s1.x == p2.x
    requires s1.x >= 0.0 && s2.x >= 0.0
    requires Overlap(p1.y, s1.y, p2.y, s2.y)
    ensures RectHit(p1, s1, p2, s2)
  {
  }

  /** The point q lies in the closed box at `pos` with extent `size`. */
  predicate Contains(pos: Vec, size: Vec, q: Vec)
  {
    pos.x <= q.x <= pos.x + size.x && pos.y <= q.y <= pos.y + size.y
  }

  /**
   For boxes of non-negative extent, the collision test holds exactly when the
   two closed boxes have a point in common.
   */
  lemma RectHitIffSharedPoint(p1: Vec, s1: Vec, p2: Vec, s2: Vec)
    requires s1.x >= 0.0 && s1.y >= 0.0 && s2.x >= 0.0 && s2.y >= 0.0
    ensures RectHit(p1, s1, p2, s2) <==> exists q :: Contains(p1, s1, q) && Contains(p2, s2, q)
  {
    if RectHit(p1, s1, p2, s2) {
      var q := Vec(Max(p1.x, p2.x), Max(p1.y, p2.y));
      assert Contains(p1, s1, q) && Contains(p2, s2, q);
    }
  }
}
