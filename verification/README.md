# Viewport controller of the circuit-diagram viewer, in Dafny

The viewer draws a static circuit schematic into a PixiJS container and lets
the user zoom it with the mouse wheel, pan it by dragging, and reset it with a
double click; a text label shows the current zoom as a percentage. This
project models that controller (`setupZoom`) as an immutable state record and
pure transition functions over real numbers, plus the background grid
generator (`drawGrid`), and proves the properties the code is built to keep.

Modules, one per part of the controller:

- `Viewport` (viewport.dfy): zoom limits 0.2 and 3.0, step 0.1 and the 300 ms
  double-click window. It also holds the controller's state record (scale,
  position, drag flag and offset, last click time, click count), the
  container's local/global coordinate maps, and the start and reset views.
- `Zoom` (zoom.dfy): the wheel handler, the clamp, and repeated wheel events.
- `Pan` (pan.dfy): pointer-down, pointer-move, pointer-up/leave.
- `DoubleClick` (double_click.dfy): the pointer-up timestamp/counter detector.
- `Readout` (readout.dfy): `Math.round(scale * 100)`.
- `Controller` (controller.dfy): all events as one state machine, runs of
  events from the start state, and the client/surface coordinate frames. The
  pointer-move handler is a parameter: as written, or corrected (see
  "## Findings").
- `Grid` (grid.dfy): the grid's line segments and their counts.

Inputs the source takes from its environment are parameters: the wall-clock
time of a pointer-up (`now`, in ms), the pointer and wheel coordinates, the
wheel's `deltaY`, the surface size, and the canvas's client position (its bounding
rectangle's top-left corner).
The renderer's `toLocal` is replaced by its closed form `(p - pos) / scale`.
That form is exact because the container is an unrotated direct child of the
untransformed stage.

## Model

| member | source | states |
|---|---|---|
| Viewport.ToLocal | src/main.ts:115 | the local point under a surface point is mapped back onto that surface point by the container's transform |
| Viewport.LocalOfGlobal | src/main.ts:115 | for a non-zero scale, converting a local point to the surface and back gives the same point, so toLocal is a bijection |
| Viewport.Home | src/main.ts:174-176 | the reset view has scale 1, which is in range and on whole tenths, and draws the container origin at the surface centre |
| Viewport.Init | src/main.ts:14-166 | the start state satisfies the controller invariant; its view is the reset view, scale 1 with the origin at the surface centre (lines 19-20); it is not dragging (lines 136-138) and has no clicks counted (lines 165-166) |
| Viewport.HomeIsInitialView | src/main.ts:174-176 | the view a double click restores is the view the application starts with |
| Zoom.NextScale | src/main.ts:99-121 | the new scale is always in [0.2, 3.0]; a negative deltaY raises the scale by one step or to 3.0, any other deltaY lowers it by one step or to 0.2; for an in-range scale it is exactly min(3.0, scale + 0.1) when zooming in and max(0.2, scale - 0.1) when zooming out, and stays unchanged exactly at the limit its direction points to |
| Zoom.NextScaleOnGrid | src/main.ts:118-121 | from an in-range scale of whole tenths, a wheel step lands on whole tenths again |
| Zoom.Wheel | src/main.ts:104-133 | the new scale is the clamped one; the diagram point under the cursor is the same before and after; when the clamped scale equals the old one the view is unchanged |
| Zoom.WheelNoOpExactlyAtLimit | src/main.ts:118-124 | for an in-range scale, a wheel event leaves the view unchanged if and only if it zooms in at 3.0 or out at 0.2 |
| Zoom.ZoomKeepsCursorPoint | src/main.ts:126-132 | on both axes, the new position plus the cursor's old local coordinate times the new scale equals the cursor position |
| Zoom.RepeatWheel | src/main.ts:104-133 | any number of wheel events keeps the scale within the zoom limits |
| Zoom.RepeatZoomIn | src/main.ts:108-121 | n zoom-in events from an in-range scale give min(3.0, scale + 0.1 n) |
| Zoom.RepeatZoomOut | src/main.ts:108-121 | n zoom-out events from an in-range scale give max(0.2, scale - 0.1 n) |
| Zoom.RepeatReachesLimit | src/main.ts:118-124 | 28 or more events in one direction reach that direction's limit, after which a further event changes nothing |
| Zoom.RepeatKeepsCursorPoint | src/main.ts:115-132 | any number of wheel events at one cursor position keep the same diagram point under the cursor |
| Pan.PointerDown | src/main.ts:140-145 | pointer-down starts a drag and records the offset so that container position plus offset is the pointer; view and click state are unchanged |
| Pan.PointerMove | src/main.ts:147-152 | while dragging, the container is placed so that position plus the recorded offset is the pointer; when not dragging nothing changes; only the position ever changes |
| Pan.ReleaseDrag | src/main.ts:154-162 | pointer-up and pointer-leave end the drag and change nothing else |
| Pan.DragFollowsPointer | src/main.ts:140-152 | after pointer-down at g with the container at c, a move to p puts the container at p - (g - c) |
| Pan.GrabbedPointStaysUnderPointer | src/main.ts:140-152 | the diagram point under the pointer at pointer-down is under the pointer after a move |
| Pan.MoveToPressPointIsNoOp | src/main.ts:140-152 | moving back to the press point restores the container's view |
| Pan.LastMoveWins | src/main.ts:147-152 | two moves in a row have the effect of the last one alone |
| Pan.MoveAfterReleaseIsNoOp | src/main.ts:147-162 | after pointer-up or pointer-leave, moving the pointer changes nothing |
| DoubleClick.ClickUp | src/main.ts:168-183 | the click time becomes now; the counter is 0 afterwards exactly when the pointer-up completes a double click, which resets the view; otherwise the view is unchanged; a slow pointer-up sets the counter to 1; the counter never exceeds 1 |
| DoubleClick.QuickPairResets | src/main.ts:168-183 | after a pause or a reset, two pointer-ups less than 300 ms apart reset the view and clear the counter |
| DoubleClick.SlowPairRestarts | src/main.ts:170-182 | two pointer-ups 300 ms or more apart do not reset; the counter restarts at 1 |
| DoubleClick.NoResetRightAfterReset | src/main.ts:171-180 | the pointer-up after a reset never resets again, however quick, and brings the counter only to 1 |
| DoubleClick.TripleQuickClick | src/main.ts:168-183 | of three quick pointer-ups from a cleared counter, the second resets and the third counts 1 and keeps the reset view |
| Readout.Round | src/main.ts:196 | the result is the integer within half a unit of the input, halves rounded up |
| Readout.RoundUnique | src/main.ts:196 | any integer within half a unit of x, halves rounded up, is the rounding of x |
| Readout.ZoomPercent | src/main.ts:195-197 | the readout is scale * 100 rounded to the nearest integer, halves up |
| Readout.PercentInRange | src/main.ts:196 | an in-range scale shows between 20% and 300% |
| Readout.PercentExactOnGrid | src/main.ts:196 | a scale of whole tenths shows exactly scale * 100, a multiple of 10 |
| Readout.PercentAfterReset | src/main.ts:174-196 | after a reset the readout shows 100% |
| Controller.ToSurface | src/main.ts:111-112 | the surface point plus the canvas's client position is the client point |
| Controller.MoveTarget | src/main.ts:147-152 | the move handler as written uses the client point unchanged; the corrected one uses the surface point; both agree when the canvas sits at the client origin |
| Controller.Step | src/main.ts:104-183 | every event keeps the scale within the zoom limits and on whole tenths and the counter at most 1; pointer-down starts a drag with position plus offset at the pointer's surface point; a move changes only the view, so a drag and its offset survive it; while dragging it keeps the scale and puts position plus offset at the handler's move target, and when not dragging it changes nothing; a wheel event changes only the view, to the clamped scale with the cursor's diagram point kept; pointer-up and leave end a drag, and leave changes nothing else; a pointer-up resets the view to the surface centre at scale 1 exactly when it lands on the container and completes a double click, and otherwise leaves the view alone; a pointer-up on the container stamps the click time and leaves the counter at 0 exactly on a reset; one off the container only ends the drag; only pointer-up touches the click state; pointer-down and leave leave the view alone |
| Controller.Run | src/main.ts:104-197 | with either move handler, any sequence of events from a valid state ends in a valid state |
| Controller.ReachableStatesInvariant | src/main.ts:99-197 | from the start state, with either move handler, whatever events arrive: scale in [0.2, 3.0], counter at most 1, readout in [20, 300] and equal to scale * 100 |
| Controller.PointerUpHandlersCommute | src/main.ts:154-183 | the surface's and the container's pointer-up handlers give the same state in either order |
| Controller.DragKeepsGrabbedPoint | src/main.ts:140-152 | with the corrected move handler, wherever the canvas sits in the client area, a drag keeps the grabbed diagram point under the pointer, and moving back to the press point restores the view |
| Controller.AsWrittenMoveJumps | src/main.ts:147-152 | with the move handler as written (`Step` with `AsWritten`) and a canvas away from the client origin, a move to the press point shifts the diagram by the canvas offset |
| Controller.ZoomThenDoubleClickScenario | src/main.ts:104-183 | from the start state, one zoom-in gives scale 1.1 with the cursor point kept, and a quick pair of pointer-ups then restores the start view |
| Grid.LineCount | src/main.ts:667-676 | a grid loop over a negative extent draws nothing; otherwise it draws n lines with (n - 1) * g <= extent < n * g |
| Grid.LinesWithinExtent | src/main.ts:667-676 | every grid line lies between 0 and the extent |
| Grid.DrawGrid | src/main.ts:658-677 | the grid is the horizontal lines at 0, g, 2g, ... up to the height, across the full width, followed by the vertical lines up to the width, across the full height, with exactly LineCount lines each |

## Left out

- The symbol, wire and label drawing functions (src/main.ts:200-655): fixed
  PixiJS drawing calls with no decisions.
- Start-up (src/main.ts:3-94): application and asset initialisation, the demo
  sprites, and scene assembly. This is I/O and set-up only. The initial
  position (lines 19-20) is modelled in `Viewport.Init`.
- Cursor affordance strings (src/main.ts:16, 144, 156, 161): UI side effects
  with no effect on the state.
- PixiJS hit testing: whether a pointer-down or pointer-up lands on the
  container is an input (`Controller.Event` delivers pointer-down only over
  the container, and pointer-up carries `onContainer`).
- Floating point: scales and coordinates are reals, so the drift of repeated
  `+ 0.1` and NaN/infinite deltas are not modelled.
- Window resizing and page scrolling: the surface is resized with the
  window, and scrolling moves the canvas's client position; a run uses one
  `Surface` value throughout.
- `preventDefault` and the DOM listener plumbing.
- Zoom.Wheel: requires a non-zero scale because `toLocal` divides by it. The
  scale never leaves [0.2, 3.0], so no reachable state is excluded.
- Grid.DrawGrid: requires a positive grid size for each loop whose extent is
  not negative. Without it the source's loop never terminates.

## Findings

| source | as written | input that shows it | evidently intended | confidence | as-written member | corrected member |
|---|---|---|---|---|---|---|
| src/main.ts:147-152 | pointer-move places the container at the client coordinates `clientX/clientY` minus the offset. Pointer-down recorded that offset from PixiJS's `event.global`, which is in canvas coordinates. | canvas at client position (8, 8); press at any point, then move to the same point: the diagram jumps by (8, 8) | subtract the canvas's client position, as the wheel handler does at lines 111-112, so the grabbed point stays under the pointer | not executed; shows only when the canvas is not at the client origin, and the page layout is not part of this model | Controller.AsWrittenMoveJumps | Controller.DragKeepsGrabbedPoint |

`Controller.Step` and `Controller.Run` take the move handler as a parameter
(`Controller.MoveHandler`). With `AsWritten` they model the source as it
stands. With `Corrected` they model the fix. The invariants hold for both.
