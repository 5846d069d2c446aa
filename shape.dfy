/**
 * `Circle` and `Square` of utils/shape.py (pygame_utils.py has the same two
 * classes with the same `move`). `move(x, y)` branches on the Python
 * truthiness of its optional integer arguments, so a coordinate of 0 counts
 * as "not given".
 */
module Shape {
  import opened Wrappers
  import opened Geometry
  import opened Widgets

  /** Python truthiness of an optional int argument: None and 0 are false. */
  predicate Truthy(v: Option<int>) {
    v.Some? && v.value != 0
  }

  /**
   * The position `Circle.move(x, y)` assigns; None where it raises, which is
   * when neither x is truthy nor y given (`Vector2(x, None)` is a TypeError).
   */
  function CircleMoved(p: Point, x: Option<int>, y: Option<int>): (r: Option<Point>)
    ensures r.None? <==> !Truthy(x) && y.None?
    ensures r.Some? && Truthy(x) ==> r.value.x == x.value
    ensures r.Some? && !Truthy(x) ==> r.value.x == p.x
    ensures r.Some? && Truthy(x) && !Truthy(y) ==> r.value.y == p.y
    ensures r.Some? && (Truthy(y) || !Truthy(x)) ==> r.value.y == y.value
  {
    if Truthy(x) && Truthy(y) then Some(Point(x.value, y.value))
    else if Truthy(x) then Some(Point(x.value, p.y))
    else if y.None? then None
    else Some(Point(p.x, y.value))
  }

  /**
   * A zero x counts as "not given": `move(0, v)` keeps the x coordinate, so it
   * does not move the circle to x = 0, although the documentation of `move`
   * says that only an unspecified axis keeps its coordinate. A zero y beside
   * a truthy x is likewise ignored.
   */
  lemma ZeroCoordinateIgnored(p: Point, v: int)
    ensures CircleMoved(p, Some(0), Some(v)) == Some(Point(p.x, v))
    ensures v != 0 ==> CircleMoved(p, Some(v), Some(0)) == Some(Point(v, p.y))
  {
  }

  /** Moving again with the same arguments changes nothing. */
  lemma CircleMoveIdempotent(p: Point, x: Option<int>, y: Option<int>)
    requires CircleMoved(p, x, y).Some?
    ensures CircleMoved(CircleMoved(p, x, y).value, x, y) == CircleMoved(p, x, y)
  {
  }

  class Circle {
    var position: Point
    const radius: int
    const color: Color

    constructor (position: Point, radius: int, color: Color)
      ensures this.position == position && this.radius == radius && this.color == color
    {
      this.position := position;
      this.radius := radius;
      this.color := color;
    }

    /** `Circle.move`; `ok` is false where it raises. Radius and colour are constants. */
    method Move(x: Option<int>, y: Option<int>) returns (ok: bool)
      modifies this
      ensures ok <==> CircleMoved(old(position), x, y).Some?
      ensures ok ==> Some(position) == CircleMoved(old(position), x, y)
      ensures !ok ==> position == old(position)
    {
      if Truthy(x) && Truthy(y) {
        position := Point(x.value, y.value);
      } else if Truthy(x) {
        position := Point(x.value, position.y);
      } else {
        if y.None? {
          return false;
        }
        position := Point(position.x, y.value);
      }
      ok := true;
    }
  }

  /** A square's `position`: a point as constructed, and a Rect after its first `move`. */
  datatype Placement = At(p: Point) | Placed(r: Rect)

  /**
   * The value `Square.move(x, y)` assigns to `position`: a Rect whose top-left
   * is the old position and whose size is the pair `Circle.move` would have
   * used as a position. None where it raises: when `Vector2(x, None)` is
   * built, and when the position is already a Rect, which `pygame.Rect`
   * refuses as a top-left corner.
   */
  function SquareMoved(pos: Placement, x: Option<int>, y: Option<int>): (r: Option<Placement>)
    ensures r.Some? <==> pos.At? && CircleMoved(pos.p, x, y).Some?
    ensures r.Some? ==> r.value.Placed?
    ensures r.Some? ==> var size := CircleMoved(pos.p, x, y).value;
                        r.value.r == Rect(pos.p.x, pos.p.y, size.x, size.y)
  {
    match pos
    case Placed(_) => None
    case At(p) =>
      if Truthy(x) && Truthy(y) then Some(Placed(Rect(p.x, p.y, x.value, y.value)))
      else if Truthy(x) then Some(Placed(Rect(p.x, p.y, x.value, p.y)))
      else if y.None? then None
      else Some(Placed(Rect(p.x, p.y, p.x, y.value)))
  }

  /** A square can be moved once: after a move its position is a Rect and the next move raises. */
  lemma SquareMovesOnce(p: Point, x: Option<int>, y: Option<int>, x2: Option<int>, y2: Option<int>)
    requires SquareMoved(At(p), x, y).Some?
    ensures SquareMoved(SquareMoved(At(p), x, y).value, x2, y2).None?
  {
  }

  class Square {
    var position: Placement
    const size: Point
    const rect: Rect
    const color: Color

    /** `Square.__init__`: `rect` is fixed here, and `draw` uses it whatever `move` does. */
    constructor (position: Point, size: Point, color: Color)
      ensures this.position == At(position) && this.size == size && this.color == color
      ensures rect == Rect(position.x, position.y, size.x, size.y)
    {
      this.position := At(position);
      this.size := size;
      rect := Rect(position.x, position.y, size.x, size.y);
      this.color := color;
    }

    /** `Square.move`; `ok` is false where it raises. */
    method Move(x: Option<int>, y: Option<int>) returns (ok: bool)
      modifies this
      ensures ok <==> SquareMoved(old(position), x, y).Some?
      ensures ok ==> Some(position) == SquareMoved(old(position), x, y)
      ensures !ok ==> position == old(position)
    {
      if position.Placed? {
        return false;
      }
      var p := position.p;
      if Truthy(x) && Truthy(y) {
        position := Placed(Rect(p.x, p.y, x.value, y.value));
      } else if Truthy(x) {
        position := Placed(Rect(p.x, p.y, x.value, p.y));
      } else {
        if y.None? {
          return false;
        }
        position := Placed(Rect(p.x, p.y, p.x, y.value));
      }
      ok := true;
    }
  }
}
