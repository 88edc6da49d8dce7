/** The press/move/release state machine that the Brush and the Pencil share:
    which buttons are down, whether the right-button snap axis is decided yet,
    which axis it is, and the tile the next line segment starts from. */
module Gesture {
  import opened Geometry

  datatype Option<T> = None | Some(value: T)

  datatype ButtonState = Pressed | Released

  /** A mouse event already translated to tile coordinates (TileMouseEventArgs). */
  datatype TileMouseEvent = TileMouseEvent(tile: Point, leftButton: ButtonState, rightButton: ButtonState)

  /** The tool fields that drive a gesture. */
  datatype ToolState = ToolState(
    isLeftDown: bool,
    isRightDown: bool,
    isSnapDirectionSet: bool,
    snapDirection: Orientation,
    startPoint: Point)

  /** A freshly constructed tool: no button down, no axis decided, the axis field at
      its declared default Horizontal, the start point at the zero point (0, 0). */
  function Initial(): (s: ToolState)
  {
    ToolState(false, false, false, Horizontal, Point(0, 0))
  }

  /** PressTool: record both buttons, forget the decided axis (but keep the axis
      value itself), and start at the pressed tile. */
  function Press(s: ToolState, e: TileMouseEvent): (r: ToolState)
  {
    s.(isLeftDown := e.leftButton == Pressed,
       isRightDown := e.rightButton == Pressed,
       isSnapDirectionSet := false,
       startPoint := e.tile)
  }

  /** The axis decision of a right-button move: taken from the first move, kept after. */
  function Decide(s: ToolState, tile: Point): (r: ToolState)
  {
    if s.isSnapDirectionSet then s
    else s.(snapDirection := AxisFor(s.startPoint, tile), isSnapDirectionSet := true)
  }

  /** Where MoveTool draws to, if it draws: the projected tile when the right button
      is down, the raw tile when only the left one is, nothing otherwise. */
  function MoveTarget(s: ToolState, tile: Point): (target: Option<Point>)
  {
    if s.isRightDown then Some(Snap(tile, Decide(s, tile).snapDirection, s.startPoint))
    else if s.isLeftDown then Some(tile)
    else None
  }

  /** The tool state after MoveTool: the right button decides the axis, and drawing
      moves the start point to the segment's end. */
  function Move(s: ToolState, tile: Point): (r: ToolState)
  {
    if s.isRightDown then Decide(s, tile).(startPoint := MoveTarget(s, tile).value)
    else if s.isLeftDown then s.(startPoint := tile)
    else s
  }

  /** Where ReleaseTool draws to, if it draws: projected with whatever axis the tool
      holds, decided or not. */
  function ReleaseTarget(s: ToolState, tile: Point): (target: Option<Point>)
  {
    if s.isRightDown then Some(Snap(tile, s.snapDirection, s.startPoint))
    else if s.isLeftDown then Some(tile)
    else None
  }

  /** The tool state after ReleaseTool: the final segment moves the start point, then
      both buttons are cleared. */
  function Release(s: ToolState, tile: Point): (r: ToolState)
  {
    var drawn := match ReleaseTarget(s, tile)
      case Some(p) => s.(startPoint := p)
      case None => s;
    drawn.(isLeftDown := false, isRightDown := false)
  }

  /** The state after a run of moves. */
  function Moves(s: ToolState, tiles: seq<Point>): (r: ToolState)
    decreases |tiles|
  {
    if tiles == [] then s else Moves(Move(s, tiles[0]), tiles[1..])
  }

  /** The line segments (from, to) a run of moves draws, in order. */
  function Segments(s: ToolState, tiles: seq<Point>): (segs: seq<(Point, Point)>)
    decreases |tiles|
  {
    if tiles == [] then []
    else
      var first := match MoveTarget(s, tiles[0])
        case Some(p) => [(s.startPoint, p)]
        case None => [];
      first + Segments(Move(s, tiles[0]), tiles[1..])
  }

  /** A move with no button held draws nothing and changes nothing; a move that
      draws ends with the start point at the drawn end; no move changes the buttons. */
  lemma MoveStep(s: ToolState, tile: Point)
    ensures !s.isLeftDown && !s.isRightDown ==> MoveTarget(s, tile) == None && Move(s, tile) == s
    ensures MoveTarget(s, tile).Some? <==> s.isLeftDown || s.isRightDown
    ensures MoveTarget(s, tile).Some? ==> Move(s, tile).startPoint == MoveTarget(s, tile).value
    ensures Move(s, tile).isLeftDown == s.isLeftDown && Move(s, tile).isRightDown == s.isRightDown
  {
  }

  /** With the right button held the left button makes no difference to a move: the
      right button takes precedence. */
  lemma RightTakesPrecedence(s: ToolState, tile: Point, left: bool)
    requires s.isRightDown
    ensures MoveTarget(s.(isLeftDown := left), tile) == MoveTarget(s, tile)
    ensures Move(s.(isLeftDown := left), tile) == Move(s, tile).(isLeftDown := left)
    ensures ReleaseTarget(s.(isLeftDown := left), tile) == ReleaseTarget(s, tile)
  {
  }

  /** The first right-button move of a gesture locks Horizontal exactly when the
      pointer moved further along X than along Y, zero displacement included, and
      draws to a point on the locked line through the start tile. */
  lemma FirstRightMoveLocks(s: ToolState, tile: Point)
    requires s.isRightDown && !s.isSnapDirectionSet
    ensures Move(s, tile).isSnapDirectionSet
    ensures Move(s, tile).snapDirection == Horizontal <==> Abs(tile.x - s.startPoint.x) > Abs(tile.y - s.startPoint.y)
    ensures Locked(MoveTarget(s, tile).value, Move(s, tile).snapDirection) == Locked(s.startPoint, Move(s, tile).snapDirection)
  {
  }

  /** Once the axis is decided, no later move of the gesture changes it, and every
      segment drawn starts and ends on the locked line through the start tile. */
  lemma {:induction false} LockHolds(s: ToolState, tiles: seq<Point>)
    requires s.isRightDown && s.isSnapDirectionSet
    ensures Moves(s, tiles).isRightDown && Moves(s, tiles).isSnapDirectionSet
    ensures Moves(s, tiles).snapDirection == s.snapDirection
    ensures Locked(Moves(s, tiles).startPoint, s.snapDirection) == Locked(s.startPoint, s.snapDirection)
    ensures forall i :: 0 <= i < |Segments(s, tiles)| ==>
              Locked(Segments(s, tiles)[i].0, s.snapDirection) == Locked(s.startPoint, s.snapDirection) &&
              Locked(Segments(s, tiles)[i].1, s.snapDirection) == Locked(s.startPoint, s.snapDirection)
    decreases |tiles|
  {
    if tiles != [] {
      var next := Move(s, tiles[0]);
      assert next.snapDirection == s.snapDirection;
      assert Locked(next.startPoint, s.snapDirection) == Locked(s.startPoint, s.snapDirection);
      LockHolds(next, tiles[1..]);
    }
  }

  /** A right-button gesture: from the press on, the axis is the one the first move
      chose, every drawn segment lies on the line through the pressed tile along that
      axis, and so does the segment the release draws. */
  lemma {:induction false} RightGesture(s: ToolState, e: TileMouseEvent, tiles: seq<Point>, release: Point)
    requires e.rightButton == Pressed && |tiles| > 0
    ensures Moves(Press(s, e), tiles).snapDirection == AxisFor(e.tile, tiles[0])
    ensures forall i :: 0 <= i < |Segments(Press(s, e), tiles)| ==>
              Locked(Segments(Press(s, e), tiles)[i].0, AxisFor(e.tile, tiles[0])) == Locked(e.tile, AxisFor(e.tile, tiles[0])) &&
              Locked(Segments(Press(s, e), tiles)[i].1, AxisFor(e.tile, tiles[0])) == Locked(e.tile, AxisFor(e.tile, tiles[0]))
    ensures ReleaseTarget(Moves(Press(s, e), tiles), release).Some? &&
            Locked(ReleaseTarget(Moves(Press(s, e), tiles), release).value, AxisFor(e.tile, tiles[0]))
              == Locked(e.tile, AxisFor(e.tile, tiles[0]))
  {
    var s0 := Press(s, e);
    var axis := AxisFor(e.tile, tiles[0]);
    var s1 := Move(s0, tiles[0]);
    assert s1.snapDirection == axis && s1.isSnapDirectionSet && s1.isRightDown;
    assert Locked(s1.startPoint, axis) == Locked(e.tile, axis);
    LockHolds(s1, tiles[1..]);
    assert Segments(s0, tiles) == [(e.tile, s1.startPoint)] + Segments(s1, tiles[1..]);
    var r := Moves(s1, tiles[1..]);
    assert Locked(ReleaseTarget(r, release).value, axis) == Locked(r.startPoint, axis);
  }

  /** While a button is held every move draws a segment, the first starts at the
      start tile, each starts where the previous one ended, and the last ends at the
      tool's new start point. */
  lemma {:induction false} Continuity(s: ToolState, tiles: seq<Point>)
    requires s.isLeftDown || s.isRightDown
    ensures |Segments(s, tiles)| == |tiles|
    ensures |tiles| > 0 ==> Segments(s, tiles)[0].0 == s.startPoint
    ensures |tiles| > 0 ==> Segments(s, tiles)[|tiles| - 1].1 == Moves(s, tiles).startPoint
    ensures forall i :: 0 <= i < |tiles| - 1 ==> Segments(s, tiles)[i].1 == Segments(s, tiles)[i + 1].0
    decreases |tiles|
  {
    if tiles != [] {
      var next := Move(s, tiles[0]);
      MoveStep(s, tiles[0]);
      Continuity(next, tiles[1..]);
      var rest := Segments(next, tiles[1..]);
      assert Segments(s, tiles) == [(s.startPoint, next.startPoint)] + rest;
    }
  }

  /** With no button held, any run of moves draws nothing and changes nothing. */
  lemma {:induction false} IdleMoves(s: ToolState, tiles: seq<Point>)
    requires !s.isLeftDown && !s.isRightDown
    ensures Segments(s, tiles) == [] && Moves(s, tiles) == s
    decreases |tiles|
  {
    if tiles != [] {
      MoveStep(s, tiles[0]);
      IdleMoves(s, tiles[1..]);
    }
  }

  /** Release draws its final segment to its target, clears both buttons, and from
      then on moves draw nothing until the next press. */
  lemma {:induction false} ReleaseEndsGesture(s: ToolState, tile: Point, later: seq<Point>)
    ensures !Release(s, tile).isLeftDown && !Release(s, tile).isRightDown
    ensures ReleaseTarget(s, tile).Some? ==> Release(s, tile).startPoint == ReleaseTarget(s, tile).value
    ensures Segments(Release(s, tile), later) == [] && Moves(Release(s, tile), later) == Release(s, tile)
  {
    IdleMoves(Release(s, tile), later);
  }

  /** A right-button press released without any move projects with the axis left over
      from the previous gesture, which for a fresh tool is Horizontal. */
  lemma ReleaseWithoutMove(s: ToolState, e: TileMouseEvent, tile: Point)
    requires e.rightButton == Pressed
    ensures ReleaseTarget(Press(s, e), tile) == Some(Snap(tile, s.snapDirection, e.tile))
    ensures s == Initial() ==> ReleaseTarget(Press(s, e), tile) == Some(Point(tile.x, e.tile.y))
  {
  }
}
