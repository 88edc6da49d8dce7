# Brush and Pencil drag tools of the Terraria map editor (TEditWPF)

This project models the drag-gesture state machine of the map editor's two
drawing tools, `Brush` and `Pencil`. Each tool keeps five fields:
- `_isLeftDown` and `_isRightDown`: which mouse buttons were down at the press.
- `_isSnapDirectionSet`: whether the right-button axis has been decided yet.
- `_snapDirection`: the axis itself.
- `_startPoint`: the tile where the next line segment starts.

Three handlers drive these fields:
- `PressTool` records the buttons and the pressed tile.
- `MoveTool` draws a line from the start point to the pointer. With the right
  button held, it first locks a horizontal or vertical axis, once per gesture,
  and projects the pointer onto that axis.
- `ReleaseTool` draws once more and clears both buttons.

The private `DrawLine` walks the points of the renderer's line. At each point it
calls into the world and the renderer, then makes the end point the new start
point. The Brush fills a rectangle or an ellipse at the point less the brush
offset, then redraws a box one tile wider and taller. The Pencil sets the one
tile, then redraws that tile.

Modules:
- `Geometry` (`geometry.dfy`) holds tile points, rectangles, the axis decision
  `AxisFor` and the projection `Snap`.
- `Host` (`host.dfy`) holds the collaborators: the opaque `Ink` (the tile
  picker), the shared `ToolProperties`, and the `World` tile map that
  `SetTileXY` writes. It also holds `Effect`, a record of one call into the
  world or the renderer, and `Traverse`, the calls made by walking a line.
- `Gesture` (`gesture.dfy`) is the press/move/release logic that both tools
  share, written as functions on a `ToolState` value. It also holds the lemmas
  about whole gestures.
- `BrushTool` (`brush.dfy`) and `PencilTool` (`pencil.dfy`) hold the two classes.
  Their fields and methods follow the C# code. Each method's `ensures` ties the
  new fields to the `Gesture` function of the old fields. It also ties the calls
  made to the per-tool `Stroke` of the line drawn, and for the Pencil the tiles
  to `Paint`. Each tool records the calls it has made, in order, in a ghost
  `effects` log.

On these points the code behaves in a way a reader might not expect:
- The axis is locked on the first right-button move even when the pointer has not
  moved. Zero displacement gives Vertical.
- The Brush asks the renderer to redraw once per line point. It does not send
  one union box per move.
- A press clears `_isSnapDirectionSet` but keeps `_snapDirection`. A right-button
  release with no move in between therefore projects with the previous
  gesture's axis. For a new tool that axis is Horizontal.
- The Pencil does not change the width or height. On activation it sets the
  minimum and maximum sizes to 1.

## Model

| member | source | states |
|---|---|---|
| Geometry.AxisForKeepsDominantDirection | TEditWPF/Tools/Brush.cs:114-117 | Horizontal is chosen iff \|dx\| > \|dy\| from the start tile (ties give Vertical); projecting on the chosen axis moves the pointer no further than projecting on the other |
| Geometry.SnapPins | TEditWPF/Tools/Brush.cs:122-125 | the projection puts the locked coordinate at the start tile's and keeps the pointer's other coordinate; it leaves a point already on the locked line unchanged and is idempotent |
| Host.TraverseAt | TEditWPF/Tools/Brush.cs:179-190 | walking a line where each point makes one world call then one renderer call makes exactly 2 calls per point, in line order, and nothing else |
| Host.World.SetTileXY | TEditWPF/Tools/Pencil.cs:180 | setting a tile changes that one tile of the world and no other |
| Gesture.MoveStep | TEditWPF/Tools/Brush.cs:105-134 | a move draws iff a button is down; with no button down it draws nothing and leaves the state unchanged; a move that draws leaves the start point at the drawn end; moves never change the buttons |
| Gesture.RightTakesPrecedence | TEditWPF/Tools/Brush.cs:108-132 | with the right button down, the left button changes neither the move's target and new state nor the release's target |
| Gesture.FirstRightMoveLocks | TEditWPF/Tools/Brush.cs:112-127 | the first right-button move sets the axis: Horizontal iff \|dx\| > \|dy\|, even with zero displacement. It draws to a point whose locked coordinate is the start tile's |
| Gesture.LockHolds | TEditWPF/Tools/Brush.cs:122-127 | once the axis is decided, later moves keep it and keep the right button down. Every segment they draw starts and ends on the locked line through the start point, because DrawLine (line 191) moves the start point to the projected end |
| Gesture.RightGesture | TEditWPF/Tools/Brush.cs:95-156 | after a right-button press at tile t, the axis is AxisFor(t, first move) for the rest of the gesture. Every segment of every move, and the segment the release draws, keeps t's locked coordinate |
| Gesture.Continuity | TEditWPF/Tools/Brush.cs:177-191 | while a button is down, each move draws one segment. The first starts at the start tile and each starts where the previous one ended. The last ends at the new start point |
| Gesture.IdleMoves | TEditWPF/Tools/Brush.cs:129-133 | with no button down, any run of moves draws nothing and leaves the state unchanged |
| Gesture.ReleaseEndsGesture | TEditWPF/Tools/Brush.cs:136-156 | a release clears both buttons and leaves the start point at its drawn target; after it, any run of moves draws nothing and changes nothing |
| Gesture.ReleaseWithoutMove | TEditWPF/Tools/Brush.cs:136-147 | a right-button release with no move after the press projects with the axis left over from before the press. For a new tool that is Horizontal (the field initialiser at line 41), so the release keeps the pressed row |
| BrushTool.StrokeAt | TEditWPF/Tools/Brush.cs:179-190 | for the i-th line point, with anchor = point − offset: call 2i is FillRectangle(anchor, W, H) for Square or FillEllipse(anchor, anchor + (W, H)) for Round. Call 2i+1 is UpdateWorldImage(anchor, W+1, H+1) for either shape |
| BrushTool.Brush.constructor | TEditWPF/Tools/Brush.cs:35-49 | a new brush has no button down, no axis decided, the axis Horizontal, start (0,0) (the assumed `PointInt32` default), is inactive and has made no calls |
| BrushTool.Brush.SetIsActive | TEditWPF/Tools/Brush.cs:77-90 | the flag takes the new value; a change to active sets MinWidth = MinHeight = 2; any other assignment leaves the sizes alone |
| BrushTool.Brush.PressTool | TEditWPF/Tools/Brush.cs:95-103 | records both buttons, clears the axis-decided flag, keeps the axis, starts at the pressed tile, draws nothing, returns true |
| BrushTool.Brush.MoveTool | TEditWPF/Tools/Brush.cs:105-134 | the new fields are Gesture.Move of the old ones; the calls made are exactly Stroke of the line from the old start point to MoveTarget (none if no button is down); returns false |
| BrushTool.Brush.ReleaseTool | TEditWPF/Tools/Brush.cs:136-156 | the new fields are Gesture.Release of the old ones (buttons cleared); the calls made are Stroke of the line to ReleaseTarget; returns true |
| BrushTool.Brush.PreviewTool | TEditWPF/Tools/Brush.cs:158-166 | the preview is (Width+1) x (Height+1) |
| BrushTool.Brush.DrawLine | TEditWPF/Tools/Brush.cs:177-192 | the calls made are Stroke of the line from the start point to the end, in order; the start point becomes the end point |
| PencilTool.StrokeAt | TEditWPF/Tools/Pencil.cs:176-184 | for the i-th line point, call 2i is SetTileXY of that point and call 2i+1 is UpdateWorldImage of that point. No SetTileXY is made for a tile off the line |
| PencilTool.PaintedTiles | TEditWPF/Tools/Pencil.cs:178-181 | after drawing a line every tile of the line holds the picked ink, and every other tile is as before |
| PencilTool.Pencil.constructor | TEditWPF/Tools/Pencil.cs:35-48 | a new pencil has no button down, no axis decided, the axis Horizontal, start (0,0) (the assumed `PointInt32` default), is inactive and has made no calls |
| PencilTool.Pencil.SetIsActive | TEditWPF/Tools/Pencil.cs:77-93 | the flag takes the new value; a change to active sets MinWidth = MinHeight = MaxWidth = MaxHeight = 1; any other assignment leaves the limits alone |
| PencilTool.Pencil.PressTool | TEditWPF/Tools/Pencil.cs:97-105 | records both buttons, clears the axis-decided flag, keeps the axis, starts at the pressed tile, draws nothing, returns true |
| PencilTool.Pencil.MoveTool | TEditWPF/Tools/Pencil.cs:107-136 | the new fields are Gesture.Move of the old ones. The calls made are Stroke of the line to MoveTarget. The world's tiles are Paint of that line. Returns false |
| PencilTool.Pencil.ReleaseTool | TEditWPF/Tools/Pencil.cs:138-158 | the new fields are Gesture.Release of the old ones. The calls made are Stroke, and the tiles Paint, of the line to ReleaseTarget. Returns true |
| PencilTool.Pencil.PreviewTool | TEditWPF/Tools/Pencil.cs:160-174 | the preview is a cleared 1 x 1 image whose one pixel is ARGB (127, 0, 90, 255) |
| PencilTool.Pencil.DrawLine | TEditWPF/Tools/Pencil.cs:176-184 | the calls made are Stroke of the line from the start point to the end. The tiles become Paint of that line. The start point becomes the end point |

## Left out

- Integer width: coordinates and sizes are unbounded integers. The source's 32-bit
  arithmetic can wrap in `p.X - Offset.X` and `Width + 1`, and `Math.Abs` of the least
  32-bit value throws. Neither is modelled, because tile coordinates stay far from those bounds.
- The line generator `WorldRenderer.DrawLine` is not part of this model. Each tool takes
  it as an opaque function `line`. Nothing is assumed about the points it yields: not
  its end points, not 8-connectedness, not symmetry.
- `World.FillRectangle` and `World.FillEllipse` are not part of this model. Their calls
  are recorded in the `effects` log, but their effect on the tiles is not modelled, so no
  claim is made about which cells a fill covers. `World.SetTileXY` is modelled as
  setting the one tile in the `World.tiles` map.
- `WorldRenderer.UpdateWorldImage` is not part of this model. Its calls are only recorded.
- `ToolProperties` is plain fields. Whatever its property setters do when a minimum or
  maximum changes (such as clamping the width) is not part of this model.
- Shape: `ToolBrushShape` is modelled with the two values the tools test, Square and
  Round. For any other value the source would make only the redraw call; that case is
  not modelled.
- The tile picker's contents: the ink is an opaque value passed through.
- `tilePicker`: each tool holds its ink as a value fixed when the tool is built. In the
  source `_tilePicker` is a shared object whose selection can change between gestures;
  that change is not modelled.
- The start point of a new tool: the constructors set it to (0, 0), the default of a
  value-type `PointInt32`. `PointInt32` is not part of this model, so this default is assumed.
- Gesture.Continuity: it proves that each segment starts where the previous one ended,
  as the arguments given to the line generator. Whether the drawn tiles form a stroke
  without gaps depends on `WorldRenderer.DrawLine`, which is not part of this model.
- `TileMouseEventArgs` is reduced to the tile and the two button states.
- Preview bitmaps: only the Brush preview's size is modelled, not the rectangle or
  ellipse it draws into the bitmap. DPI and pixel format are not modelled either.
- Dependency-injection wiring, the unused selection area, icons, names, tool types and
  the `IsActive` property-changed notification are left out, because they have no
  behaviour in the gesture pipeline.
