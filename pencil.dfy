/** The Pencil tool: a drag sets every tile of the line from the last drawn tile to
    the pointer and asks the renderer to redraw each of those tiles. */
module PencilTool {
  import opened Geometry
  import opened Host
  import opened Gesture

  /** The calls made at one line point: set that tile, then redraw it. */
  function Stamp(p: Point, ink: Ink): (calls: seq<Effect>)
  {
    [SetTileXY(p.x, p.y, ink), UpdateWorldImageAt(p)]
  }

  /** The calls made by drawing along `pts`. */
  function Stroke(pts: seq<Point>, ink: Ink): (calls: seq<Effect>)
  {
    Traverse(pts, p => Stamp(p, ink))
  }

  /** The tiles after setting every point of `pts`, in order. */
  function Paint(tiles: map<Point, Ink>, pts: seq<Point>, ink: Ink): (painted: map<Point, Ink>)
  {
    if pts == [] then tiles else Paint(tiles, pts[..|pts| - 1], ink)[pts[|pts| - 1] := ink]
  }

  /** Drawing along a line makes exactly two calls per point, in line order: one
      SetTileXY of that point, then one redraw of that point; no other tile is set. */
  lemma StrokeAt(pts: seq<Point>, ink: Ink)
    ensures |Stroke(pts, ink)| == 2 * |pts|
    ensures forall i :: 0 <= i < |pts| ==>
              Stroke(pts, ink)[2 * i] == SetTileXY(pts[i].x, pts[i].y, ink) &&
              Stroke(pts, ink)[2 * i + 1] == UpdateWorldImageAt(pts[i])
    ensures forall k :: 0 <= k < |Stroke(pts, ink)| && Stroke(pts, ink)[k].SetTileXY? ==>
              Point(Stroke(pts, ink)[k].x, Stroke(pts, ink)[k].y) in pts
  {
    TraverseAt(pts, p => Stamp(p, ink));
    forall k | 0 <= k < |Stroke(pts, ink)| && Stroke(pts, ink)[k].SetTileXY?
      ensures Point(Stroke(pts, ink)[k].x, Stroke(pts, ink)[k].y) in pts
    {
      var i := k / 2;
      assert i < |pts| && (k == 2 * i || k == 2 * i + 1);
      assert Stroke(pts, ink)[2 * i + 1] == UpdateWorldImageAt(pts[i]);
      assert Stroke(pts, ink)[k] == SetTileXY(pts[i].x, pts[i].y, ink);
    }
  }

  /** After drawing along a line every point of the line holds the ink, and every
      other tile is as it was. */
  lemma {:induction false} PaintedTiles(tiles: map<Point, Ink>, pts: seq<Point>, ink: Ink, q: Point)
    ensures q in pts ==> q in Paint(tiles, pts, ink) && Paint(tiles, pts, ink)[q] == ink
    ensures q !in pts ==> (q in Paint(tiles, pts, ink) <==> q in tiles)
    ensures q !in pts && q in tiles ==> Paint(tiles, pts, ink)[q] == tiles[q]
  {
    if pts != [] {
      var front := pts[..|pts| - 1];
      PaintedTiles(tiles, front, ink, q);
      assert pts == front + [pts[|pts| - 1]];
      assert q in pts ==> q in front || q == pts[|pts| - 1];
    }
  }

  /** The Pencil's preview image: its size and the pixels set on a cleared bitmap. */
  datatype Argb = Argb(a: int, r: int, g: int, b: int)
  datatype Preview = Preview(width: int, height: int, pixels: map<Point, Argb>)

  class Pencil {
    var isLeftDown: bool
    var isRightDown: bool
    var isSnapDirectionSet: bool
    var snapDirection: Orientation
    var startPoint: Point
    var isActive: bool

    /** Every call this tool has made into the world and the renderer, in order. */
    ghost var effects: seq<Effect>

    const properties: ToolProperties
    const world: World
    const tilePicker: Ink
    /** The renderer's line generator (WorldRenderer.DrawLine). */
    const line: (Point, Point) -> seq<Point>

    constructor (properties: ToolProperties, world: World, tilePicker: Ink, line: (Point, Point) -> seq<Point>)
      ensures State() == Initial() && !isActive && effects == []
      ensures this.properties == properties && this.world == world
      ensures this.tilePicker == tilePicker && this.line == line
    {
      isLeftDown, isRightDown := false, false;
      isSnapDirectionSet, snapDirection := false, Horizontal;
      startPoint := Point(0, 0);
      isActive := false;
      effects := [];
      this.properties, this.world, this.tilePicker, this.line := properties, world, tilePicker, line;
    }

    function State(): (s: ToolState)
      reads this
    {
      ToolState(isLeftDown, isRightDown, isSnapDirectionSet, snapDirection, startPoint)
    }

    /** The line drawn from `from` to `target`, if there is a target. */
    function LineTo(from: Point, target: Option<Point>): (pts: seq<Point>)
    {
      match target
      case Some(p) => line(from, p)
      case None => []
    }

    /** IsActive's setter: a change to active pins the size limits to 1 x 1. */
    method SetIsActive(value: bool)
      modifies this`isActive, properties`MinWidth, properties`MinHeight, properties`MaxWidth, properties`MaxHeight
      ensures isActive == value
      ensures if old(isActive) != value && value
              then properties.MinWidth == properties.MinHeight == properties.MaxWidth == properties.MaxHeight == 1
              else properties.MinWidth == old(properties.MinWidth) && properties.MinHeight == old(properties.MinHeight) &&
                   properties.MaxWidth == old(properties.MaxWidth) && properties.MaxHeight == old(properties.MaxHeight)
    {
      if isActive != value {
        isActive := value;
        if isActive {
          properties.MinHeight := 1;
          properties.MinWidth := 1;
          properties.MaxHeight := 1;
          properties.MaxWidth := 1;
        }
      }
    }

    method PressTool(e: TileMouseEvent) returns (handled: bool)
      modifies this`isLeftDown, this`isRightDown, this`isSnapDirectionSet, this`startPoint
      ensures State() == Press(old(State()), e)
      ensures handled
    {
      isLeftDown := e.leftButton == Pressed;
      isRightDown := e.rightButton == Pressed;
      isSnapDirectionSet := false;
      startPoint := e.tile;
      handled := true;
    }

    method MoveTool(e: TileMouseEvent) returns (handled: bool)
      modifies this`isSnapDirectionSet, this`snapDirection, this`startPoint, this`effects, world
      ensures State() == Move(old(State()), e.tile)
      ensures effects == old(effects) + Stroke(LineTo(old(startPoint), MoveTarget(old(State()), e.tile)), tilePicker)
      ensures world.tiles == Paint(old(world.tiles), LineTo(old(startPoint), MoveTarget(old(State()), e.tile)), tilePicker)
      ensures !handled
    {
      if isRightDown {
        var p := e.tile;
        if !isSnapDirectionSet {
          if Abs(p.x - startPoint.x) > Abs(p.y - startPoint.y) {
            snapDirection := Horizontal;
          } else {
            snapDirection := Vertical;
          }
          isSnapDirectionSet := true;
        }
        if snapDirection == Horizontal {
          p := p.(y := startPoint.y);
        } else {
          p := p.(x := startPoint.x);
        }
        DrawLine(p);
      } else if isLeftDown {
        DrawLine(e.tile);
      }
      handled := false;
    }

    method ReleaseTool(e: TileMouseEvent) returns (handled: bool)
      modifies this`isLeftDown, this`isRightDown, this`startPoint, this`effects, world
      ensures State() == Release(old(State()), e.tile)
      ensures effects == old(effects) + Stroke(LineTo(old(startPoint), ReleaseTarget(old(State()), e.tile)), tilePicker)
      ensures world.tiles == Paint(old(world.tiles), LineTo(old(startPoint), ReleaseTarget(old(State()), e.tile)), tilePicker)
      ensures handled
    {
      if isRightDown {
        var p := e.tile;
        if snapDirection == Horizontal {
          p := p.(y := startPoint.y);
        } else {
          p := p.(x := startPoint.x);
        }
        DrawLine(p);
      } else if isLeftDown {
        DrawLine(e.tile);
      }
      isLeftDown := false;
      isRightDown := false;
      handled := true;
    }

    /** The cursor preview: a cleared 1 x 1 image whose one pixel is (127, 0, 90, 255). */
    method PreviewTool() returns (bmp: Preview)
      ensures bmp.width == 1 && bmp.height == 1
      ensures bmp.pixels == map[Point(0, 0) := Argb(127, 0, 90, 255)]
    {
      bmp := Preview(1, 1, map[]);
      bmp := bmp.(pixels := bmp.pixels[Point(0, 0) := Argb(127, 0, 90, 255)]);
    }

    /** Sets and redraws every tile of the line from the start point to `endPoint`,
        then makes `endPoint` the start of the next segment. */
    method DrawLine(endPoint: Point)
      modifies this`startPoint, this`effects, world
      ensures startPoint == endPoint
      ensures effects == old(effects) + Stroke(line(old(startPoint), endPoint), tilePicker)
      ensures world.tiles == Paint(old(world.tiles), line(old(startPoint), endPoint), tilePicker)
    {
      var pts := line(startPoint, endPoint);
      for i := 0 to |pts|
        invariant effects == old(effects) + Stroke(pts[..i], tilePicker)
        invariant world.tiles == Paint(old(world.tiles), pts[..i], tilePicker)
      {
        var p := pts[i];
        world.SetTileXY(p.x, p.y, tilePicker);
        effects := effects + [SetTileXY(p.x, p.y, tilePicker)];
        effects := effects + [UpdateWorldImageAt(p)];
        assert pts[..i + 1][..i] == pts[..i];
        assert Stroke(pts[..i + 1], tilePicker) == Stroke(pts[..i], tilePicker) + Stamp(p, tilePicker);
      }
      assert pts[..|pts|] == pts;
      startPoint := endPoint;
    }
  }
}
