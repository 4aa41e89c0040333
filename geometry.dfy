/** Integer points and rectangles as Qt's QPoint and QRect represent them. */
module Geometry {

  /** A point in integer pixel coordinates (QPoint). */
  datatype Point = Point(x: int, y: int) {
    /** QPoint addition. */
    function Plus(d: Point): Point { Point(x + d.x, y + d.y) }
    /** QPoint subtraction. */
    function Minus(d: Point): Point { Point(x - d.x, y - d.y) }
  }

  /** QRect(left, top, width, height). Qt keeps a rectangle as two inclusive
      corners; the bottom-right one is (left + width - 1, top + height - 1). */
  datatype Rect = Rect(left: int, top: int, width: nat, height: nat) {
    function Right(): int { left + width - 1 }
    function Bottom(): int { top + height - 1 }
  }

  /** QRect::contains(p): inclusive test against the two stored corners, which
      for a rectangle of non-negative size is the half-open pixel test. */
  function Contains(r: Rect, p: Point): (inside: bool)
    ensures inside <==> r.left <= p.x < r.left + r.width && r.top <= p.y < r.top + r.height
  {
    r.left <= p.x <= r.Right() && r.top <= p.y <= r.Bottom()
  }
}
