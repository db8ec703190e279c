// Integer axis-aligned bounding boxes and the three queries the engine uses on
// them, plus the float-to-int truncation every getBounds applies to positions.

module CollisionDetector {

  /** An SDL_Rect: top-left corner (x, y), width w and height h. */
  datatype Rect = Rect(x: int, y: int, w: int, h: int)

  /** n is r rounded toward zero (C++ static_cast<int> of a float). */
  ghost predicate TruncatedFrom(n: int, r: real)
  {
    (r >= 0.0 ==> n as real <= r < n as real + 1.0) &&
    (r < 0.0 ==> n as real - 1.0 < r <= n as real)
  }

  function Trunc(r: real): (n: int)
    ensures TruncatedFrom(n, r)
  {
    if r >= 0.0 then r.Floor else -((-r).Floor)
  }

  /** Strict-overlap test: the boxes are separated as soon as one edge only
      touches or passes the opposite edge of the other box. */
  function CheckCollision(a: Rect, b: Rect): (hit: bool)
    ensures hit <==> a.x < b.x + b.w && b.x < a.x + a.w && a.y < b.y + b.h && b.y < a.y + a.h
  {
    var leftA, rightA, topA, bottomA := a.x, a.x + a.w, a.y, a.y + a.h;
    var leftB, rightB, topB, bottomB := b.x, b.x + b.w, b.y, b.y + b.h;
    if bottomA <= topB then false
    else if topA >= bottomB then false
    else if rightA <= leftB then false
    else if leftA >= rightB then false
    else true
  }

  /** Inclusive containment of a point in a box. */
  predicate PointInRect(px: int, py: int, r: Rect): (b: bool)
    ensures r.w >= 0 && r.h >= 0 ==>
      ((px == r.x || px == r.x + r.w) && r.y <= py <= r.y + r.h ==> b) &&
      ((py == r.y || py == r.y + r.h) && r.x <= px <= r.x + r.w ==> b)
    ensures px < r.x || px > r.x + r.w || py < r.y || py > r.y + r.h ==> !b
  {
    px >= r.x && px <= r.x + r.w && py >= r.y && py <= r.y + r.h
  }

  function Max(a: int, b: int): int { if a < b then b else a }
  function Min(a: int, b: int): int { if a < b then a else b }

  /** The intersection rectangle: a point lies in it exactly when it lies in
      both boxes (its extent is negative when the boxes are apart). */
  function GetOverlap(a: Rect, b: Rect): (r: Rect)
    ensures forall px, py :: PointInRect(px, py, r) <==> PointInRect(px, py, a) && PointInRect(px, py, b)
  {
    var ox := Max(a.x, b.x);
    var oy := Max(a.y, b.y);
    Rect(ox, oy, Min(a.x + a.w, b.x + b.w) - ox, Min(a.y + a.h, b.y + b.h) - oy)
  }

  lemma CollisionSymmetric(a: Rect, b: Rect)
    ensures CheckCollision(a, b) == CheckCollision(b, a)
  {
  }

  /** Boxes that share only an edge never collide. */
  lemma TouchingBoxesDoNotCollide(a: Rect, b: Rect)
    requires a.x + a.w == b.x || b.x + b.w == a.x || a.y + a.h == b.y || b.y + b.h == a.y
    ensures !CheckCollision(a, b)
  {
  }

  /** A box collides with itself exactly when it has positive area. */
  lemma SelfCollision(a: Rect)
    ensures CheckCollision(a, a) <==> a.w > 0 && a.h > 0
  {
  }

  /** Containment is inclusive: every corner of a box with non-negative
      extent lies inside it. */
  lemma CornersInside(r: Rect)
    requires r.w >= 0 && r.h >= 0
    ensures PointInRect(r.x, r.y, r) && PointInRect(r.x + r.w, r.y, r)
    ensures PointInRect(r.x, r.y + r.h, r) && PointInRect(r.x + r.w, r.y + r.h, r)
  {
  }

  lemma OverlapSymmetric(a: Rect, b: Rect)
    ensures GetOverlap(a, b) == GetOverlap(b, a)
  {
  }

  lemma OverlapSelf(a: Rect)
    ensures GetOverlap(a, a) == a
  {
  }

  /** The overlap of two colliding boxes of positive extent has positive
      extent and lies inside both. */
  lemma OverlapInsideBoth(a: Rect, b: Rect)
    requires a.w > 0 && a.h > 0 && b.w > 0 && b.h > 0
    requires CheckCollision(a, b)
    ensures var o := GetOverlap(a, b);
      o.w > 0 && o.h > 0 &&
      a.x <= o.x && o.x + o.w <= a.x + a.w && a.y <= o.y && o.y + o.h <= a.y + a.h &&
      b.x <= o.x && o.x + o.w <= b.x + b.w && b.y <= o.y && o.y + o.h <= b.y + b.h
  {
    var o := GetOverlap(a, b);
    assert o.x + o.w == Min(a.x + a.w, b.x + b.w);
    assert o.y + o.h == Min(a.y + a.h, b.y + b.h);
  }

  /** Without positive extents the overlap of colliding boxes can be empty:
      a box of negative width still passes the separation tests. */
  lemma DegenerateOverlap()
    ensures var a, b := Rect(10, 0, -5, 10), Rect(0, 0, 20, 10);
      CheckCollision(a, b) && GetOverlap(a, b).w < 0
  {
  }
}
