/**
  Axis-aligned rectangles on exact reals: the player's bounding box
  (jump.py:39, 43), the two solid parts of an obstacle column
  (jump.py:68-69) and the overlap test used for collisions (jump.py:158).
 */
module Geometry {
  import opened Config

  /** A rectangle with its top-left corner at (x, y), w wide and h tall. */
  datatype Rect = Rect(x: real, y: real, w: real, h: real)

  /** Rectangle overlap as colliderect decides it: the interiors meet,
      so rectangles that only share an edge do not collide. */
  predicate Collide(a: Rect, b: Rect) {
    a.x < b.x + b.w && b.x < a.x + a.w && a.y < b.y + b.h && b.y < a.y + a.h
  }

  /** The half-open area [x, x + w) by [y, y + h) contains the point. */
  predicate Covers(r: Rect, px: real, py: real) {
    r.x <= px < r.x + r.w && r.y <= py < r.y + r.h
  }

  /** The player's bounding box with its top-left corner at (x, y). */
  function PlayerRect(x: real, y: real): Rect {
    Rect(x, y, PLAYER_SIZE, PLAYER_SIZE)
  }

  /** The solid parts of an obstacle column at x whose opening starts at
      gapY, in the order the obstacle's draw returns them: the part below
      the opening, then the part above it. The part above runs from the top
      of the field down to the opening, the opening is exactly GAP_SIZE
      tall, and the part below runs from the opening to the bottom of the
      field. */
  function ObstacleRects(x: real, gapY: int): (r: (Rect, Rect))
    ensures r.0.x == x && r.1.x == x
    ensures r.0.w == OBSTACLE_WIDTH && r.1.w == OBSTACLE_WIDTH
    ensures r.1.y == 0.0 && r.1.y + r.1.h == gapY as real
    ensures r.0.y - (r.1.y + r.1.h) == GAP_SIZE as real
    ensures r.0.y + r.0.h == FIELD_HEIGHT
  {
    var opening := gapY as real;
    var below := opening + GAP_SIZE as real;
    (Rect(x, below, OBSTACLE_WIDTH, FIELD_HEIGHT - below), Rect(x, 0.0, OBSTACLE_WIDTH, opening))
  }

  /** The rectangle r collides with one of the two parts of the column. */
  predicate HitsObstacle(r: Rect, x: real, gapY: int) {
    Collide(r, ObstacleRects(x, gapY).0) || Collide(r, ObstacleRects(x, gapY).1)
  }

  /** Within the column's width and the field's height, a point is solid
      exactly when it lies outside the opening [gapY, gapY + GAP_SIZE), and
      the two solid parts never overlap. */
  lemma ColumnCoversAllButOpening(x: real, gapY: int, px: real, py: real)
    requires InGapRange(gapY)
    requires x <= px < x + OBSTACLE_WIDTH && 0.0 <= py < FIELD_HEIGHT
    ensures Covers(ObstacleRects(x, gapY).0, px, py) || Covers(ObstacleRects(x, gapY).1, px, py)
            <==> !(gapY as real <= py < (gapY + GAP_SIZE) as real)
    ensures !(Covers(ObstacleRects(x, gapY).0, px, py) && Covers(ObstacleRects(x, gapY).1, px, py))
  {
  }

  /** A player box at (px, py) hits the column exactly when the two overlap
      horizontally and the box reaches above the opening (while still
      reaching below the top edge) or below it (while still starting above
      the bottom edge). */
  lemma HitsObstacleIff(px: real, py: real, x: real, gapY: int)
    ensures HitsObstacle(PlayerRect(px, py), x, gapY)
            <==> (px < x + OBSTACLE_WIDTH && x < px + PLAYER_SIZE)
                 && ((py < gapY as real && 0.0 < py + PLAYER_SIZE)
                     || ((gapY + GAP_SIZE) as real < py + PLAYER_SIZE && py < FIELD_HEIGHT))
  {
  }

  /** A player box lying vertically within the opening never hits the
      column, wherever the column is. */
  lemma NoHitInsideOpening(px: real, py: real, x: real, gapY: int)
    requires gapY as real <= py && py + PLAYER_SIZE <= (gapY + GAP_SIZE) as real
    ensures !HitsObstacle(PlayerRect(px, py), x, gapY)
  {
    HitsObstacleIff(px, py, x, gapY);
  }
}
