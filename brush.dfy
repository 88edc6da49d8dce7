/** The Brush tool: a drag stamps the configured rectangle or ellipse at every point
    of the line from the last drawn tile to the pointer, and asks the renderer to
    redraw one box per point. */
module BrushTool {
  import opened Geometry
  import opened Host
  import opened Gesture

  /** The tool properties the brush reads while drawing. */
  datatype BrushConfig = BrushConfig(width: int, height: int, shape: ToolBrushShape, offset: Point)

  /** The corner of the stamp for line point `p`: the point less the brush offset. */
  function Anchor(p: Point, cfg: BrushConfig): (a: Point)
  {
    Point(p.x - cfg.offset.x, p.y - cfg.offset.y)
  }

  /** The calls made at one line point: the fill, then the redraw of a box one tile
      wider and taller than the brush. */
  function Stamp(p: Point, cfg: BrushConfig, ink: Ink): (calls: seq<Effect>)
  {
    var a := Anchor(p, cfg);
    var fill := match cfg.shape
      case Square => FillRectangle(Rect(a.x, a.y, cfg.width, cfg.height), ink)
      case Round => FillEllipse(a.x, a.y, a.x + cfg.width, a.y + cfg.height, ink);
    [fill, UpdateWorldImage(Rect(a.x, a.y, cfg.width + 1, cfg.height + 1))]
  }

  /** The calls made by drawing along `pts`. */
  function Stroke(pts: seq<Point>, cfg: BrushConfig, ink: Ink): (calls: seq<Effect>)
  {
    Traverse(pts, p => Stamp(p, cfg, ink))
  }

  /** Drawing along a line makes exactly two calls per point, in line order: a fill
      anchored at the point less the offset (a W x H rectangle for Square, the ellipse
      in the box from the anchor to anchor + (W, H) for Round), then one redraw of the
      (W+1) x (H+1) box at the anchor, whatever the shape. */
  lemma StrokeAt(pts: seq<Point>, cfg: BrushConfig, ink: Ink)
    ensures |Stroke(pts, cfg, ink)| == 2 * |pts|
    ensures forall i :: 0 <= i < |pts| ==>
              var a := Anchor(pts[i], cfg);
              Stroke(pts, cfg, ink)[2 * i] ==
                (if cfg.shape == Square then FillRectangle(Rect(a.x, a.y, cfg.width, cfg.height), ink)
                 else FillEllipse(a.x, a.y, a.x + cfg.width, a.y + cfg.height, ink)) &&
              Stroke(pts, cfg, ink)[2 * i + 1] == UpdateWorldImage(Rect(a.x, a.y, cfg.width + 1, cfg.height + 1))
  {
    TraverseAt(pts, p => Stamp(p, cfg, ink));
  }

  class Brush {
    var isLeftDown: bool
    var isRightDown: bool
    var isSnapDirectionSet: bool
    var snapDirection: Orientation
    var startPoint: Point
    var isActive: bool

    /** Every call this tool has made into the world and the renderer, in order. */
    ghost var effects: seq<Effect>

    const properties: ToolProperties
    const tilePicker: Ink
    /** The renderer's line generator (WorldRenderer.DrawLine). */
    const line: (Point, Point) -> seq<Point>

    constructor (properties: ToolProperties, tilePicker: Ink, line: (Point, Point) -> seq<Point>)
      ensures State() == Initial() && !isActive && effects == []
      ensures this.properties == properties && this.tilePicker == tilePicker && this.line == line
    {
      isLeftDown, isRightDown := false, false;
      isSnapDirectionSet, snapDirection := false, Horizontal;
      startPoint := Point(0, 0);
      isActive := false;
      effects := [];
      this.properties, this.tilePicker, this.line := properties, tilePicker, line;
    }

    function State(): (s: ToolState)
      reads this
    {
      ToolState(isLeftDown, isRightDown, isSnapDirectionSet, snapDirection, startPoint)
    }

    function Config(): (cfg: BrushConfig)
      reads properties
    {
      BrushConfig(properties.Width, properties.Height, properties.BrushShape, properties.Offset)
    }

    /** The line drawn from `from` to `target`, if there is a target. */
    function LineTo(from: Point, target: Option<Point>): (pts: seq<Point>)
    {
      match target
      case Some(p) => line(from, p)
      case None => []
    }

    /** IsActive's setter: a change to active raises the minimum size to 2 x 2. */
    method SetIsActive(value: bool)
      modifies this`isActive, properties`MinWidth, properties`MinHeight
      ensures isActive == value
      ensures if old(isActive) != value && value
              then properties.MinWidth == 2 && properties.MinHeight == 2
              else properties.MinWidth == old(properties.MinWidth) && properties.MinHeight == old(properties.MinHeight)
    {
      if isActive != value {
        isActive := value;
        if isActive {
          properties.MinHeight := 2;
          properties.MinWidth := 2;
        }
      }
    }

    method PressTool(e: TileMouseEvent) returns (handled: bool)
      modifies this`isLeftDown, this`isRightDown, this`isSnapDirectionSet, this`startPoint
      ensures State() == Press(old(State()), e)
      ensures handled
    {
      isLeftDown := e.leftButton == Pressed;
      isRightDown := e.rightButton == Pressed;
      isSnapDirectionSet := false;
      startPoint := e.tile;
      handled := true;
    }

    method MoveTool(e: TileMouseEvent) returns (handled: bool)
      modifies this`isSnapDirectionSet, this`snapDirection, this`startPoint, this`effects
      ensures State() == Move(old(State()), e.tile)
      ensures effects == old(effects) + Stroke(LineTo(old(startPoint), MoveTarget(old(State()), e.tile)), Config(), tilePicker)
      ensures !handled
    {
      if isRightDown {
        var p := e.tile;
        if !isSnapDirectionSet {
          if Abs(p.x - startPoint.x) > Abs(p.y - startPoint.y) {
            snapDirection := Horizontal;
          } else {
            snapDirection := Vertical;
          }
          isSnapDirectionSet := true;
        }
        if snapDirection == Horizontal {
          p := p.(y := startPoint.y);
        } else {
          p := p.(x := startPoint.x);
        }
        DrawLine(p);
      } else if isLeftDown {
        DrawLine(e.tile);
      }
      handled := false;
    }

    method ReleaseTool(e: TileMouseEvent) returns (handled: bool)
      modifies this`isLeftDown, this`isRightDown, this`startPoint, this`effects
      ensures State() == Release(old(State()), e.tile)
      ensures effects == old(effects) + Stroke(LineTo(old(startPoint), ReleaseTarget(old(State()), e.tile)), Config(), tilePicker)
      ensures handled
    {
      if isRightDown {
        var p := e.tile;
        if snapDirection == Horizontal {
          p := p.(y := startPoint.y);
        } else {
          p := p.(x := startPoint.x);
        }
        DrawLine(p);
      } else if isLeftDown {
        DrawLine(e.tile);
      }
      isLeftDown := false;
      isRightDown := false;
      handled := true;
    }

    /** The size of the cursor preview: one tile wider and taller than the brush. */
    method PreviewTool() returns (width: int, height: int)
      ensures width == properties.Width + 1 && height == properties.Height + 1
    {
      width := properties.Width + 1;
      height := properties.Height + 1;
    }

    /** Stamps every point of the line from the start point to `endPoint`, then makes
        `endPoint` the start of the next segment. */
    method DrawLine(endPoint: Point)
      modifies this`startPoint, this`effects
      ensures startPoint == endPoint
      ensures effects == old(effects) + Stroke(line(old(startPoint), endPoint), Config(), tilePicker)
    {
      var pts := line(startPoint, endPoint);
      ghost var cfg := Config();
      for i := 0 to |pts|
        invariant effects == old(effects) + Stroke(pts[..i], cfg, tilePicker)
      {
        var p := pts[i];
        var x0 := p.x - properties.Offset.x;
        var y0 := p.y - properties.Offset.y;
        if properties.BrushShape == Square {
          effects := effects + [FillRectangle(Rect(x0, y0, properties.Width, properties.Height), tilePicker)];
        } else if properties.BrushShape == Round {
          effects := effects + [FillEllipse(x0, y0, x0 + properties.Width, y0 + properties.Height, tilePicker)];
        }
        effects := effects + [UpdateWorldImage(Rect(x0, y0, properties.Width + 1, properties.Height + 1))];
        assert pts[..i + 1][..i] == pts[..i];
        assert Stroke(pts[..i + 1], cfg, tilePicker) == Stroke(pts[..i], cfg, tilePicker) + Stamp(p, cfg, tilePicker);
      }
      assert pts[..|pts|] == pts;
      startPoint := endPoint;
    }
  }
}
