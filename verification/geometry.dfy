/** Rectangles, the player body as the session sees it, and the goal
    overlap test of sketch.js (`playerTouchesGoal`). Coordinates are reals:
    the model idealises JavaScript numbers and does no rounding. */
module Geometry {

  /** An axis-aligned rectangle `{x, y, w, h}`: top-left corner and size. */
  datatype Rect = Rect(x: real, y: real, w: real, h: real)

  /** The player body: centre, radius, velocity and ground contact. The
      session only reads the centre and the radius; the rest belongs to the
      physics, which this model keeps opaque. */
  datatype Player = Player(x: real, y: real, r: real, vx: real, vy: real, onGround: bool)

  /** The player's bounding box, centre ± r, as built in `playerTouchesGoal`. */
  function BoundingBox(p: Player): (b: Rect)
    ensures b.x + b.w / 2.0 == p.x && b.y + b.h / 2.0 == p.y
    ensures b.w == b.h == 2.0 * p.r
  {
    Rect(p.x - p.r, p.y - p.r, p.r * 2.0, p.r * 2.0)
  }

  /** The overlap test as written: strict inequalities on both axes. For
      rectangles of positive size it holds exactly when their open
      interiors meet. */
  function Overlaps(a: Rect, b: Rect): (o: bool)
    ensures a.w > 0.0 && a.h > 0.0 && b.w > 0.0 && b.h > 0.0 ==> (o <==> ShareInterior(a, b))
  {
    OverlapsIffShareInterior(a, b);
    && a.x < b.x + b.w
    && a.x + a.w > b.x
    && a.y < b.y + b.h
    && a.y + a.h > b.y
  }

  /** `playerTouchesGoal(player, goal)`: on each axis the open span
      centre ± r meets the goal's open span; for a player of positive
      radius and a goal of positive size, the open box and the open goal
      share a point. */
  function TouchesGoal(p: Player, goal: Rect): (t: bool)
    ensures t <==> && p.x - p.r < goal.x + goal.w && goal.x < p.x + p.r
                   && p.y - p.r < goal.y + goal.h && goal.y < p.y + p.r
    ensures p.r > 0.0 && goal.w > 0.0 && goal.h > 0.0 ==> (t <==> ShareInterior(BoundingBox(p), goal))
  {
    Overlaps(BoundingBox(p), goal)
  }

  /** The point (px, py) lies in the open interior of `a`. */
  ghost predicate Inside(px: real, py: real, a: Rect)
  {
    a.x < px < a.x + a.w && a.y < py < a.y + a.h
  }

  /** Reference definition of overlap: the two open rectangles share a point. */
  ghost predicate ShareInterior(a: Rect, b: Rect)
  {
    exists px: real, py: real :: Inside(px, py, a) && Inside(px, py, b)
  }

  function Max(a: real, b: real): real { if a < b then b else a }
  function Min(a: real, b: real): real { if a < b then a else b }

  /** For rectangles of positive size, the strict test holds exactly when
      the open rectangles have a point in common; in particular, boxes that
      only share an edge or a corner do not overlap. */
  lemma OverlapsIffShareInterior(a: Rect, b: Rect)
    ensures a.w > 0.0 && a.h > 0.0 && b.w > 0.0 && b.h > 0.0 ==>
            ((&& a.x < b.x + b.w && a.x + a.w > b.x
              && a.y < b.y + b.h && a.y + a.h > b.y) <==> ShareInterior(a, b))
  {
    if && a.w > 0.0 && a.h > 0.0 && b.w > 0.0 && b.h > 0.0
       && a.x < b.x + b.w && a.x + a.w > b.x && a.y < b.y + b.h && a.y + a.h > b.y
    {
      var px := (Max(a.x, b.x) + Min(a.x + a.w, b.x + b.w)) / 2.0;
      var py := (Max(a.y, b.y) + Min(a.y + a.h, b.y + b.h)) / 2.0;
      assert Inside(px, py, a) && Inside(px, py, b);
    }
  }

  /** The goal test is symmetric in the two boxes it compares. */
  lemma OverlapsSymmetric(a: Rect, b: Rect)
    ensures Overlaps(a, b) <==> Overlaps(b, a)
  {
  }

  /** Edge contact is not contact: a player whose box is flush with, or
      beyond, any side of the goal does not touch it. */
  lemma SeparatedDoesNotTouch(p: Player, goal: Rect)
    requires || p.x - p.r >= goal.x + goal.w
             || p.x + p.r <= goal.x
             || p.y - p.r >= goal.y + goal.h
             || p.y + p.r <= goal.y
    ensures !TouchesGoal(p, goal)
  {
  }

  /** A player (of any radius r >= 0) whose centre is strictly inside the
      goal touches it. */
  lemma CentreInsideTouches(p: Player, goal: Rect)
    requires p.r >= 0.0
    requires Inside(p.x, p.y, goal)
    ensures TouchesGoal(p, goal)
  {
  }
}
