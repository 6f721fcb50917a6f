/**
 The viewport controller as one state machine: the input events the handlers
 of `setupZoom` listen to, the transition each one makes, and runs of events
 from the start state.

 Pointer and wheel events arrive in client coordinates (relative to the
 browser viewport). The rendering surface's top-left corner sits at client
 position `origin`; surface coordinates are client coordinates minus that
 origin (the surface is drawn at its natural size).
 The source's pointer-move handler skips that conversion; `MoveHandler`
 selects between it as written and the corrected handler.
 */
module Controller {
  import opened Viewport
  import Zoom
  import Pan
  import DoubleClick
  import Readout

  /** The rendering surface: its size and the client position of its top-left corner. */
  datatype Surface = Surface(screen: Screen, origin: Point)

  /** Input events. A pointer-up always reaches the surface; it reaches the
      container's own handler as well when the renderer's hit test places it
      over the diagram (`onContainer`). Pointer-down is only delivered over
      the container. `now` is the wall-clock time of the event in ms. */
  datatype Event =
    | Wheel(deltaY: real, client: Point)
    | PointerDown(client: Point)
    | PointerMove(client: Point)
    | PointerUp(now: int, onContainer: bool)
    | PointerLeave

  /** Surface coordinates of a client point. */
  function ToSurface(surface: Surface, client: Point): (p: Point)
    ensures p.Plus(surface.origin) == client
  {
    client.Minus(surface.origin)
  }

  /** The pointer-move handler: as written it uses the client coordinates
      unchanged; corrected, it converts them to surface coordinates, the frame
      in which pointer-down recorded the drag offset. The two agree when the
      surface sits at the client origin. */
  datatype MoveHandler = AsWritten | Corrected

  /** Where the pointer-move handler places the pointer. */
  function MoveTarget(handler: MoveHandler, surface: Surface, client: Point): (p: Point)
    ensures handler.AsWritten? ==> p == client
    ensures handler.Corrected? ==> p == ToSurface(surface, client)
    ensures surface.origin == Point(0.0, 0.0) ==> p == client
  {
    match handler
    case AsWritten => client
    case Corrected => ToSurface(surface, client)
  }

  /** The effect of one event. */
  function Step(s: State, e: Event, surface: Surface, handler: MoveHandler): (r: State)
    requires Valid(s)
    ensures Valid(r)
    ensures e.PointerUp? || e.PointerLeave? ==> !r.isDragging
    ensures !e.PointerUp? ==> r.clickTime == s.clickTime && r.clickCount == s.clickCount
    ensures e.PointerDown? || e.PointerLeave? ==> r.view == s.view
    ensures e.PointerDown? ==> r.isDragging && r.view.pos.Plus(r.dragStart) == ToSurface(surface, e.client)
    ensures e.PointerMove? ==> r.(view := s.view) == s
    ensures e.PointerMove? && !s.isDragging ==> r == s
    ensures e.PointerMove? && s.isDragging ==>
              r.view.scale == s.view.scale &&
              r.view.pos.Plus(s.dragStart) == MoveTarget(handler, surface, e.client)
    ensures e.Wheel? ==>
              r.(view := s.view) == s &&
              r.view.scale == Zoom.NextScale(s.view.scale, e.deltaY) &&
              ToLocal(r.view, ToSurface(surface, e.client)) == ToLocal(s.view, ToSurface(surface, e.client))
    ensures e.PointerUp? ==>
              r.view == (if e.onContainer && DoubleClick.Triggers(s, e.now) then Home(surface.screen) else s.view)
    ensures e.PointerUp? && e.onContainer ==>
              r.clickTime == e.now && (r.clickCount == 0 <==> DoubleClick.Triggers(s, e.now))
    ensures e.PointerUp? && !e.onContainer ==> r == s.(isDragging := false)
    ensures e.PointerLeave? ==> r == s.(isDragging := false)
  {
    match e
    case Wheel(deltaY, client) =>
      Zoom.NextScaleOnGrid(s.view.scale, deltaY);
      s.(view := Zoom.Wheel(s.view, deltaY, ToSurface(surface, client)))
    case PointerDown(client) => Pan.PointerDown(s, ToSurface(surface, client))
    case PointerMove(client) => Pan.PointerMove(s, MoveTarget(handler, surface, client))
    case PointerUp(now, onContainer) =>
      var released := Pan.ReleaseDrag(s);
      if onContainer then DoubleClick.ClickUp(released, now, surface.screen) else released
    case PointerLeave => Pan.ReleaseDrag(s)
  }

  /** The state after a sequence of events. */
  function Run(s: State, events: seq<Event>, surface: Surface, handler: MoveHandler): (r: State)
    requires Valid(s)
    ensures Valid(r)
    decreases |events|
  {
    if events == [] then s
    else Run(Step(s, events[0], surface, handler), events[1..], surface, handler)
  }

  /** Whatever events arrive, with either move handler, the scale stays within
      the zoom limits, the readout stays between 20% and 300% and shows the
      scale exactly, and the click counter never rests above 1. */
  lemma ReachableStatesInvariant(surface: Surface, events: seq<Event>, handler: MoveHandler)
    ensures var r := Run(Init(surface.screen), events, surface, handler);
            InRange(r.view.scale) && r.clickCount <= 1 &&
            20 <= Readout.ZoomPercent(r.view.scale) <= 300 &&
            Readout.ZoomPercent(r.view.scale) as real == r.view.scale * 100.0
  {
    var r := Run(Init(surface.screen), events, surface, handler);
    Readout.PercentInRange(r.view.scale);
    Readout.PercentExactOnGrid(r.view.scale);
  }

  /** The surface's pointer-up handler and the container's touch disjoint
      parts of the state, so the order in which they run does not matter. */
  lemma PointerUpHandlersCommute(s: State, now: int, screen: Screen)
    ensures DoubleClick.ClickUp(Pan.ReleaseDrag(s), now, screen)
         == Pan.ReleaseDrag(DoubleClick.ClickUp(s, now, screen))
  {
  }

  /** With the corrected move handler, wherever the surface sits in the client area,
      a pointer pressed on the diagram and moved keeps the grabbed diagram
      point under the pointer, and moving back to the press point restores
      the position. */
  lemma DragKeepsGrabbedPoint(s: State, surface: Surface, press: Point, release: Point)
    requires Valid(s)
    ensures var d := Step(s, PointerDown(press), surface, Corrected);
            var m := Step(d, PointerMove(release), surface, Corrected);
            ToLocal(m.view, ToSurface(surface, release)) == ToLocal(s.view, ToSurface(surface, press)) &&
            Step(d, PointerMove(press), surface, Corrected).view == s.view
  {
    Pan.GrabbedPointStaysUnderPointer(s, ToSurface(surface, press), ToSurface(surface, release));
  }

  /** With the source's pointer-move handler, a surface that does not sit at
      the client origin makes the diagram jump by that offset on the first move,
      even a move to the very point where the pointer was pressed. */
  lemma AsWrittenMoveJumps(s: State, surface: Surface, press: Point)
    requires Valid(s)
    requires surface.origin != Point(0.0, 0.0)
    ensures var d := Step(s, PointerDown(press), surface, AsWritten);
            var m := Step(d, PointerMove(press), surface, AsWritten);
            m.view.pos == s.view.pos.Plus(surface.origin) && m.view != s.view
  {
  }

  /** From the start state: one zoom-in step at the cursor gives scale 1.1 and
      keeps the cursor's diagram point; a double click (two pointer-ups on the
      container 100 ms apart) then restores the start view. */
  lemma ZoomThenDoubleClickScenario(surface: Surface, client: Point, t: int, handler: MoveHandler)
    ensures var s0 := Init(surface.screen);
            var s1 := Step(s0, Wheel(-1.0, client), surface, handler);
            var s2 := Step(s1, PointerUp(t, true), surface, handler);
            var s3 := Step(s2, PointerUp(t + 100, true), surface, handler);
            var mouse := ToSurface(surface, client);
            s1.view.scale == 1.1 &&
            ToLocal(s1.view, mouse) == ToLocal(s0.view, mouse) &&
            s2.view == s1.view && s2.clickCount == 1 &&
            s3.view == s0.view && s3.clickCount == 0
  {
  }
}
