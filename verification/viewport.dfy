/**
 The viewport of the schematic viewer: the pannable, zoomable container that
 holds the diagram, and the record of controller state that the event
 handlers of `setupZoom` share through their closures.

 Coordinates and scales are real numbers. Points here are in surface
 coordinates (the renderer's global frame); the mapping from client
 coordinates onto them is the controller's. The container is a direct child of the
 untransformed stage and is never rotated, so its transform is a uniform
 scale followed by a translation.
 */
module Viewport {

  /** Lower and upper zoom limits and the zoom change per wheel event. */
  const MinScale: real := 0.2
  const MaxScale: real := 3.0
  const ScaleStep: real := 0.1

  /** Two pointer-ups on the container less than this many milliseconds
      apart count as a double click. */
  const DoubleClickWindow: int := 300

  datatype Point = Point(x: real, y: real) {
    function Plus(o: Point): Point { Point(x + o.x, y + o.y) }
    function Minus(o: Point): Point { Point(x - o.x, y - o.y) }
  }

  /** Size of the rendering surface. */
  datatype Screen = Screen(width: real, height: real) {
    function Center(): Point { Point(width / 2.0, height / 2.0) }
  }

  /** Transform of the container: a uniform scale, then a translation to `pos`. */
  datatype View = View(scale: real, pos: Point)

  /** Everything the controller's handlers read and write. */
  datatype State = State(
    view: View,
    isDragging: bool,
    dragStart: Point,   // pointer position minus container position at pointer-down
    clickTime: int,     // time of the previous pointer-up on the container, in ms
    clickCount: nat     // pointer-ups counted towards a double click
  )

  predicate InRange(scale: real) {
    MinScale <= scale <= MaxScale
  }

  /** The scale is a whole number of tenths. */
  predicate OnGrid(scale: real) {
    (scale * 10.0).Floor as real == scale * 10.0
  }

  /** What holds of every state the controller reaches from its start state. */
  predicate Valid(s: State) {
    InRange(s.view.scale) && OnGrid(s.view.scale) && s.clickCount <= 1
  }

  /** Surface coordinates of a point given in the container's local coordinates. */
  function ToGlobal(v: View, l: Point): Point {
    Point(l.x * v.scale + v.pos.x, l.y * v.scale + v.pos.y)
  }

  /** The container-local point drawn at surface point `p`: the closed form of
      the renderer's `toLocal` for an unrotated child of the stage. */
  function ToLocal(v: View, p: Point): (l: Point)
    requires v.scale != 0.0
    ensures ToGlobal(v, l) == p
  {
    Point((p.x - v.pos.x) / v.scale, (p.y - v.pos.y) / v.scale)
  }

  /** ToLocal inverts ToGlobal, so a scaled view is a bijection of the plane. */
  lemma LocalOfGlobal(v: View, l: Point)
    requires v.scale != 0.0
    ensures ToLocal(v, ToGlobal(v, l)) == l
  {
  }

  /** The view the double-click reset restores: scale 1, origin at the centre. */
  function Home(screen: Screen): (v: View)
    ensures v.scale == 1.0 && InRange(v.scale) && OnGrid(v.scale)
    ensures ToGlobal(v, Point(0.0, 0.0)) == screen.Center()
  {
    View(1.0, screen.Center())
  }

  /** The controller's start state: the sprite's default scale 1, its origin
      placed at the centre of the surface (src/main.ts lines 19-20), not
      dragging with a zero offset (lines 136-138), and no clicks seen at time 0
      (lines 165-166). */
  function Init(screen: Screen): (s: State)
    ensures Valid(s)
    ensures s.view == Home(screen)
    ensures !s.isDragging && s.clickCount == 0
  {
    State(View(1.0, Point(screen.width / 2.0, screen.height / 2.0)),
          false, Point(0.0, 0.0), 0, 0)
  }

  /** Resetting restores exactly the view the application starts with. */
  lemma HomeIsInitialView(screen: Screen)
    ensures Home(screen) == Init(screen).view
  {
  }
}
