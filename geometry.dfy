/**
 * The parts of pygame's geometry the toolkit relies on: integer points and
 * rectangles with half-open containment (`Rect.collidepoint`), the nine named
 * anchor points of a rectangle, and placing a rectangle of a given size so that
 * one of its anchor points lands on a position (`Surface.get_rect(**{anchor: pos})`).
 * The older toolkit keeps positions as `Vector2` floats; those are modelled
 * over `real` (Vec, Box).
 */
module Geometry {
  import opened Wrappers

  datatype Point = Point(x: int, y: int)

  /** pygame.Rect: top-left corner and size, all integers. */
  datatype Rect = Rect(x: int, y: int, w: int, h: int)

  /** Rect.collidepoint: the right and bottom edges are outside. */
  predicate Contains(r: Rect, p: Point)
    ensures Contains(r, p) ==> r.w > 0 && r.h > 0
  {
    r.x <= p.x < r.x + r.w && r.y <= p.y < r.y + r.h
  }

  /** A non-empty rect holds its top-left corner; its right and bottom edges lie outside it. */
  lemma ContainsHalfOpen(r: Rect, p: Point)
    requires r.w > 0 && r.h > 0
    ensures Contains(r, Point(r.x, r.y))
    ensures !Contains(r, Point(r.x + r.w, p.y)) && !Contains(r, Point(p.x, r.y + r.h))
  {
  }

  /** The nine alignment names of the toolkit, which are also pygame.Rect attribute names. */
  datatype Anchor = TopLeft | BottomLeft | TopRight | BottomRight
                  | MidTop | MidLeft | MidBottom | MidRight | Center

  function Name(a: Anchor): string {
    match a
    case TopLeft => "topleft"
    case BottomLeft => "bottomleft"
    case TopRight => "topright"
    case BottomRight => "bottomright"
    case MidTop => "midtop"
    case MidLeft => "midleft"
    case MidBottom => "midbottom"
    case MidRight => "midright"
    case Center => "center"
  }

  /** The anchor an alignment string names, if it names one. */
  function AnchorNamed(s: string): (r: Option<Anchor>)
    ensures r.Some? ==> Name(r.value) == s
    ensures forall a :: Name(a) == s ==> r == Some(a)
  {
    if s == "topleft" then Some(TopLeft)
    else if s == "bottomleft" then Some(BottomLeft)
    else if s == "topright" then Some(TopRight)
    else if s == "bottomright" then Some(BottomRight)
    else if s == "midtop" then Some(MidTop)
    else if s == "midleft" then Some(MidLeft)
    else if s == "midbottom" then Some(MidBottom)
    else if s == "midright" then Some(MidRight)
    else if s == "center" then Some(Center)
    else None
  }

  /** Where along one side an anchor sits: at the start, the middle or the end. */
  datatype Frac = Start | Mid | End

  function Horizontal(a: Anchor): Frac {
    match a
    case TopLeft | BottomLeft | MidLeft => Start
    case MidTop | MidBottom | Center => Mid
    case TopRight | BottomRight | MidRight => End
  }

  function Vertical(a: Anchor): Frac {
    match a
    case TopLeft | TopRight | MidTop => Start
    case MidLeft | MidRight | Center => Mid
    case BottomLeft | BottomRight | MidBottom => End
  }

  /** C integer division by two, which truncates toward zero (pygame computes `w / 2` in C). */
  function Half(n: int): (r: int)
    ensures n >= 0 ==> 0 <= r <= n && n - 1 <= 2 * r <= n
    ensures n < 0 ==> n <= r <= 0 && n <= 2 * r <= n + 1
  {
    if n >= 0 then n / 2 else -((-n) / 2)
  }

  function IntOffset(f: Frac, len: int): int {
    match f
    case Start => 0
    case Mid => Half(len)
    case End => len
  }

  /** The value of `getattr(r, Name(a))`. */
  function AnchorPoint(r: Rect, a: Anchor): Point {
    Point(r.x + IntOffset(Horizontal(a), r.w), r.y + IntOffset(Vertical(a), r.h))
  }

  /** `Surface.get_rect(**{Name(a): p})` for an image of size w by h. */
  function RectAnchoredAt(w: int, h: int, a: Anchor, p: Point): (r: Rect)
    ensures r.w == w && r.h == h
    ensures AnchorPoint(r, a) == p
  {
    Rect(p.x - IntOffset(Horizontal(a), w), p.y - IntOffset(Vertical(a), h), w, h)
  }

  /** pygame.math.Vector2, over reals. */
  datatype Vec = Vec(x: real, y: real)

  /** A rectangle with real coordinates, for the float positions of the older toolkit. */
  datatype Box = Box(x: real, y: real, w: real, h: real)

  function RealOffset(f: Frac, len: real): real {
    match f
    case Start => 0.0
    case Mid => len / 2.0
    case End => len
  }

  /** The offset of anchor a from the top-left corner of a w by h rectangle. */
  function AnchorOffset(a: Anchor, size: Vec): Vec {
    Vec(RealOffset(Horizontal(a), size.x), RealOffset(Vertical(a), size.y))
  }

  function BoxAnchorPoint(b: Box, a: Anchor): Vec {
    var off := AnchorOffset(a, Vec(b.w, b.h));
    Vec(b.x + off.x, b.y + off.y)
  }

  function BoxAnchoredAt(w: real, h: real, a: Anchor, p: Vec): (b: Box)
    ensures b.w == w && b.h == h
    ensures BoxAnchorPoint(b, a) == p
  {
    var off := AnchorOffset(a, Vec(w, h));
    Box(p.x - off.x, p.y - off.y, w, h)
  }
}
