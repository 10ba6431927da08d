/** Integer axis-aligned rectangles with the attribute semantics of a pygame
    `Rect`: a rectangle is stored as its top-left corner and its size, and the
    named edges and centres are derived from those four integers. Setting a
    derived attribute moves the rectangle and never resizes it. */
module Geometry {

  /** The screen is WIDTH x HEIGHT pixels (main.py:4-5). */
  const WIDTH: int := 1024
  const HEIGHT: int := 1024

  datatype Rect = Rect(x: int, y: int, w: int, h: int) {

    function Top(): int { y }
    function Bottom(): int { y + h }
    function Left(): int { x }
    function Right(): int { x + w }

    /** Centres use the integer half of the size, rounded down. */
    function CenterX(): int { x + w / 2 }
    function CenterY(): int { y + h / 2 }

    /** Assigning `rect.top`: only y moves. */
    function WithTop(v: int): (r: Rect)
      ensures r.Top() == v
      ensures r.x == x && r.w == w && r.h == h
    {
      Rect(x, v, w, h)
    }

    /** Assigning `rect.bottom`: y moves so that the bottom edge lands on v. */
    function WithBottom(v: int): (r: Rect)
      ensures r.Bottom() == v
      ensures r.x == x && r.w == w && r.h == h
    {
      Rect(x, v - h, w, h)
    }

    /** Assigning `rect.centerx`: x moves so that the horizontal centre is c. */
    function WithCenterX(c: int): (r: Rect)
      ensures r.CenterX() == c
      ensures r.y == y && r.w == w && r.h == h
    {
      Rect(c - w / 2, y, w, h)
    }

    /** Assigning `rect.center`. */
    function WithCenter(cx: int, cy: int): (r: Rect)
      ensures r.CenterX() == cx && r.CenterY() == cy
      ensures r.w == w && r.h == h
    {
      Rect(cx - w / 2, cy - h / 2, w, h)
    }

    /** `rect.x += dx`. */
    function ShiftX(dx: int): (r: Rect)
      ensures r.Left() == Left() + dx && r.Right() == Right() + dx
      ensures r.y == y && r.w == w && r.h == h
    {
      Rect(x + dx, y, w, h)
    }
  }

  /** A rectangle built from a size and a centre, as `get_rect()` followed by
      `rect.center = pos` does. */
  function Centered(w: int, h: int, cx: int, cy: int): (r: Rect)
    ensures r.w == w && r.h == h
    ensures r.CenterX() == cx && r.CenterY() == cy
  {
    Rect(0, 0, w, h).WithCenter(cx, cy)
  }
}
