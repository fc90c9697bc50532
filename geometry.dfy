/** Integer screen geometry: the screen size, axis-aligned rectangles in the
    style of pygame's Rect (top-left corner plus size), the overlap test used
    for collisions, and the two placements the game performs (clamping the
    player into the screen and centring a new enemy on its spawn point). */
module Geometry {

  /** Size of the game window in pixels. */
  const ScreenWidth: int := 800
  const ScreenHeight: int := 600

  /** A rectangle given by its top-left corner and its size, y growing downwards. */
  datatype Rect = Rect(left: int, top: int, width: nat, height: nat)
  {
    function Right(): int { left + width }
    function Bottom(): int { top + height }

    /** pygame's centerx and centery: the corner plus half the size, rounded down. */
    function CenterX(): int { left + width / 2 }
    function CenterY(): int { top + height / 2 }

    /** In-place move of pygame (move_ip), as a value. */
    function Move(dx: int, dy: int): Rect { this.(left := left + dx, top := top + dy) }

    /** Assigning rect.right or rect.bottom keeps the size and shifts the corner. */
    function WithRight(r: int): Rect { this.(left := r - width) }
    function WithBottom(b: int): Rect { this.(top := b - height) }
  }

  /** The rectangle lies inside the screen: 0 <= left, right <= width, 0 <= top, bottom <= height. */
  predicate InScreen(r: Rect) {
    0 <= r.left && r.Right() <= ScreenWidth && 0 <= r.top && r.Bottom() <= ScreenHeight
  }

  /** The rectangle's size allows it to lie inside the screen at all. */
  predicate FitsScreen(r: Rect) {
    r.width <= ScreenWidth && r.height <= ScreenHeight
  }

  /** Collision of two rectangles, as assumed of pygame's colliderect: the open
      interiors intersect, so rectangles that only touch along an edge do not
      collide. */
  predicate Overlaps(a: Rect, b: Rect) {
    a.left < b.Right() && b.left < a.Right() && a.top < b.Bottom() && b.top < a.Bottom()
  }

  /** get_rect(center = (cx, cy)) for an image of size w by h: reading the
      centre back gives the requested point, and the size is the image's. */
  function CenteredAt(cx: int, cy: int, w: nat, h: nat): (r: Rect)
    ensures r.CenterX() == cx && r.CenterY() == cy
    ensures r.width == w && r.height == h
  {
    Rect(cx - w / 2, cy - h / 2, w, h)
  }

  /** Reference definition of the screen clamp, one axis at a time: the
      lowest corner coordinate is 0 and the highest is limit - size. */
  function ClampAxis(lo: int, size: nat, limit: int): (c: int)
    requires size <= limit
    ensures 0 <= c && c + size <= limit
    ensures 0 <= lo && lo + size <= limit ==> c == lo
  {
    if lo < 0 then 0 else if lo + size > limit then limit - size else lo
  }

  /** The rectangle shifted into the screen, each axis on its own. It always
      ends inside the screen, keeps its size, and is left where it is when it
      is inside already. */
  function Clamped(r: Rect): (c: Rect)
    requires FitsScreen(r)
    ensures InScreen(c)
    ensures c.width == r.width && c.height == r.height
    ensures InScreen(r) ==> c == r
  {
    Rect(ClampAxis(r.left, r.width, ScreenWidth), ClampAxis(r.top, r.height, ScreenHeight), r.width, r.height)
  }

  /** The concrete collision cases: a 75x25 player at the origin against a
      20x10 enemy overlaps it at x = 70 and only touches it at x = 75. */
  lemma CollisionExamples()
    ensures Overlaps(Rect(0, 0, 75, 25), Rect(70, 10, 20, 10))
    ensures !Overlaps(Rect(0, 0, 75, 25), Rect(75, 10, 20, 10))
  {
  }
}
