/** Tile coordinates, rectangles and the horizontal/vertical snap used by the
    right-button drag of the drawing tools. */
module Geometry {

  /** A tile coordinate (PointInt32). */
  datatype Point = Point(x: int, y: int)

  /** An axis-aligned rectangle given by its corner and size (Int32Rect). */
  datatype Rect = Rect(x: int, y: int, width: int, height: int)

  /** The axis a right-button gesture is locked to. */
  datatype Orientation = Horizontal | Vertical

  function Abs(n: int): (m: nat)
  {
    if n < 0 then -n else n
  }

  /** The axis chosen on the first right-button move: Horizontal when the pointer
      has moved further along X than along Y from the start tile, Vertical otherwise
      (ties and zero displacement included). */
  function AxisFor(start: Point, p: Point): (axis: Orientation)
  {
    if Abs(p.x - start.x) > Abs(p.y - start.y) then Horizontal else Vertical
  }

  /** Projects `p` onto the line through `start` along `axis`: a Horizontal lock keeps
      the start row, a Vertical lock keeps the start column. */
  function Snap(p: Point, axis: Orientation, start: Point): (q: Point)
  {
    match axis
    case Horizontal => p.(y := start.y)
    case Vertical => p.(x := start.x)
  }

  /** The coordinate a lock pins to the start tile. */
  function Locked(p: Point, axis: Orientation): (c: int)
  {
    match axis
    case Horizontal => p.y
    case Vertical => p.x
  }

  /** How far a projection moved the pointer (only one coordinate changes). */
  function Moved(p: Point, q: Point): (d: nat)
  {
    Abs(p.x - q.x) + Abs(p.y - q.y)
  }

  /** The projection pins the locked coordinate to the start tile's and leaves the
      free coordinate where the pointer is; a point already on the locked line is
      left alone, so projecting twice is projecting once. */
  lemma SnapPins(p: Point, axis: Orientation, start: Point)
    ensures Locked(Snap(p, axis, start), axis) == Locked(start, axis)
    ensures axis == Horizontal ==> Snap(p, axis, start).x == p.x
    ensures axis == Vertical ==> Snap(p, axis, start).y == p.y
    ensures Locked(p, axis) == Locked(start, axis) ==> Snap(p, axis, start) == p
    ensures Snap(Snap(p, axis, start), axis, start) == Snap(p, axis, start)
  {
  }

  /** The axis AxisFor picks is the one whose projection moves the pointer least:
      the dominant direction of the drag is kept. */
  lemma AxisForKeepsDominantDirection(start: Point, p: Point, other: Orientation)
    ensures Moved(p, Snap(p, AxisFor(start, p), start)) <= Moved(p, Snap(p, other, start))
    ensures AxisFor(start, p) == Horizontal <==> Abs(p.x - start.x) > Abs(p.y - start.y)
  {
  }
}
