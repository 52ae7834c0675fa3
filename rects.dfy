/**
 * Integer rectangles with the behaviour of the game library's Rect that the
 * game relies on: moving, clamping into a container, collision and
 * re-centring. The origin is the top-left corner and y grows downwards.
 */
module Rects {

  /** An axis-aligned rectangle: left edge x, top edge y, width w, height h. */
  datatype Rect = Rect(x: int, y: int, w: nat, h: nat) {
    function Left(): int { x }
    function Top(): int { y }
    function Right(): int { x + w }
    function Bottom(): int { y + h }
  }

  function Min(a: int, b: int): int { if a <= b then a else b }
  function Max(a: int, b: int): int { if a <= b then b else a }

  /** The point (px, py) belongs to r: left and top edges are in, right and bottom edges are out. */
  predicate HasPoint(r: Rect, px: int, py: int)
  {
    r.x <= px < r.x + r.w && r.y <= py < r.y + r.h
  }

  /** r lies entirely within c. */
  predicate Inside(r: Rect, c: Rect)
  {
    c.x <= r.x && r.x + r.w <= c.x + c.w && c.y <= r.y && r.y + r.h <= c.y + c.h
  }

  /** Rect.move: the same rectangle with every point shifted by (dx, dy). */
  function Move(r: Rect, dx: int, dy: int): (m: Rect)
    ensures m.w == r.w && m.h == r.h
    ensures m.Left() == r.Left() + dx && m.Top() == r.Top() + dy
    ensures forall px, py :: HasPoint(r, px, py) <==> HasPoint(m, px + dx, py + dy)
  {
    Rect(r.x + dx, r.y + dy, r.w, r.h)
  }

  lemma MoveBack(r: Rect, dx: int, dy: int)
    ensures Move(Move(r, dx, dy), -dx, -dy) == r
  {
  }

  /**
   * One axis of Rect.clamp: the new start of the segment [pos, pos + size)
   * forced into [lo, lo + span). A segment at least as long as the span is
   * centred on it instead.
   */
  function ClampAxis(pos: int, size: nat, lo: int, span: nat): (p: int)
    ensures size <= span ==> lo <= p && p + size <= lo + span
    ensures lo <= pos && pos + size <= lo + span ==> p == pos
    ensures size <= span ==> p == Max(lo, Min(pos, lo + span - size))
    ensures span <= size ==> p <= lo && lo + span <= p + size
    ensures span <= size ==> p == lo + span / 2 - size / 2
  {
    if size >= span then lo + span / 2 - size / 2
    else if pos < lo then lo
    else if pos + size > lo + span then lo + span - size
    else pos
  }

  /** Rect.clamp: r shifted (never resized) so that it lies within c when it fits. */
  function Clamp(r: Rect, c: Rect): (m: Rect)
    ensures m.w == r.w && m.h == r.h
    ensures r.w <= c.w && r.h <= c.h ==> Inside(m, c)
    ensures Inside(r, c) ==> m == r
  {
    Rect(ClampAxis(r.x, r.w, c.x, c.w), ClampAxis(r.y, r.h, c.y, c.h), r.w, r.h)
  }

  /** Clamping a second time changes nothing, whether or not r fits in c. */
  lemma ClampIdempotent(r: Rect, c: Rect)
    ensures Clamp(Clamp(r, c), c) == Clamp(r, c)
  {
  }

  /**
   * Among all positions inside c, clamping picks the one nearest to the
   * original position on each axis.
   */
  lemma ClampAxisNearest(pos: int, size: nat, lo: int, span: nat, q: int)
    requires size <= span && lo <= q && q + size <= lo + span
    ensures Dist(ClampAxis(pos, size, lo, span), pos) <= Dist(q, pos)
  {
  }

  function Dist(a: int, b: int): nat { if a <= b then b - a else a - b }

  /**
   * Rect.colliderect: the interiors overlap. Rectangles that only share an
   * edge do not collide, and neither does a rectangle of zero width or height;
   * equivalently, some point belongs to both.
   */
  function CollideRect(a: Rect, b: Rect): (c: bool)
    ensures c <==> exists px, py :: HasPoint(a, px, py) && HasPoint(b, px, py)
  {
    if a.w != 0 && a.h != 0 && b.w != 0 && b.h != 0 &&
       a.x < b.x + b.w && a.y < b.y + b.h && a.x + a.w > b.x && a.y + a.h > b.y
    then
      // the top-left corner of the overlap is a shared point
      assert HasPoint(a, Max(a.x, b.x), Max(a.y, b.y)) && HasPoint(b, Max(a.x, b.x), Max(a.y, b.y));
      true
    else
      false
  }

  lemma CollideRectSymmetric(a: Rect, b: Rect)
    ensures CollideRect(a, b) == CollideRect(b, a)
  {
  }

  /** Sharing an edge is not a collision. */
  lemma TouchingRectsDoNotCollide(a: Rect, b: Rect)
    requires a.Right() == b.Left() || a.Bottom() == b.Top()
    ensures !CollideRect(a, b)
  {
  }

  /**
   * Assigning Rect.center: the same-sized rectangle whose centre is (cx, cy),
   * the centre of a rectangle being (x + w / 2, y + h / 2).
   */
  function WithCenter(r: Rect, cx: int, cy: int): (m: Rect)
    ensures m.w == r.w && m.h == r.h
    ensures m.x + m.w / 2 == cx && m.y + m.h / 2 == cy
  {
    Rect(cx - r.w / 2, cy - r.h / 2, r.w, r.h)
  }
}
