/** The collaborators the drawing tools talk to: the tool properties panel, the
    world and the world renderer. Their own code is not part of this model; the
    tools' calls into them are recorded, in order, as Effect records. */
module Host {
  import opened Geometry

  /** The tile template being stamped (the TilePicker); passed through, never inspected. */
  type Ink(==)

  /** The brush shape chosen in the tool properties. */
  datatype ToolBrushShape = Square | Round

  /** One call a tool makes into the world or the renderer. */
  datatype Effect =
    | FillRectangle(rect: Rect, ink: Ink)                      // World.FillRectangle
    | FillEllipse(x1: int, y1: int, x2: int, y2: int, ink: Ink) // World.FillEllipse
    | SetTileXY(x: int, y: int, ink: Ink)                      // World.SetTileXY
    | UpdateWorldImage(rect: Rect)                             // WorldRenderer.UpdateWorldImage(Int32Rect)
    | UpdateWorldImageAt(p: Point)                             // WorldRenderer.UpdateWorldImage(PointInt32)

  /** The shared tool properties the tools read and, on activation, constrain. */
  class ToolProperties {
    var Width: int
    var Height: int
    var MinWidth: int
    var MinHeight: int
    var MaxWidth: int
    var MaxHeight: int
    var BrushShape: ToolBrushShape
    var Offset: Point

    constructor (width: int, height: int, minWidth: int, minHeight: int, maxWidth: int, maxHeight: int,
                 brushShape: ToolBrushShape, offset: Point)
      ensures Width == width && Height == height && BrushShape == brushShape && Offset == offset
      ensures MinWidth == minWidth && MinHeight == minHeight && MaxWidth == maxWidth && MaxHeight == maxHeight
    {
      Width, Height := width, height;
      MinWidth, MinHeight, MaxWidth, MaxHeight := minWidth, minHeight, maxWidth, maxHeight;
      BrushShape, Offset := brushShape, offset;
    }
  }

  /** The tile grid, as far as single-tile writes are concerned. */
  class World {
    var tiles: map<Point, Ink>

    constructor (initial: map<Point, Ink>)
      ensures tiles == initial
    {
      tiles := initial;
    }

    method SetTileXY(x: int, y: int, ink: Ink)
      modifies this
      ensures tiles == old(tiles)[Point(x, y) := ink]
    {
      tiles := tiles[Point(x, y) := ink];
    }
  }

  /** The calls issued by a walk along `pts` that makes the calls `stamp(p)` at each
      point `p`, point after point. */
  function Traverse(pts: seq<Point>, stamp: Point -> seq<Effect>): (calls: seq<Effect>)
  {
    if pts == [] then [] else Traverse(pts[..|pts| - 1], stamp) + stamp(pts[|pts| - 1])
  }

  /** When every point issues one world call followed by one renderer call, the walk
      issues exactly those two calls per point, in line order, and nothing else. */
  lemma {:induction false} TraverseAt(pts: seq<Point>, stamp: Point -> seq<Effect>)
    requires forall p :: |stamp(p)| == 2
    ensures |Traverse(pts, stamp)| == 2 * |pts|
    ensures forall i :: 0 <= i < |pts| ==>
              Traverse(pts, stamp)[2 * i] == stamp(pts[i])[0] &&
              Traverse(pts, stamp)[2 * i + 1] == stamp(pts[i])[1]
  {
    if pts != [] {
      var front := pts[..|pts| - 1];
      TraverseAt(front, stamp);
      forall i | 0 <= i < |pts|
        ensures Traverse(pts, stamp)[2 * i] == stamp(pts[i])[0]
        ensures Traverse(pts, stamp)[2 * i + 1] == stamp(pts[i])[1]
      {
        if i < |front| {
          assert pts[i] == front[i];
        }
      }
    }
  }
}
