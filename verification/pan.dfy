/**
 Drag to pan. Pointer-down on the container records the offset between the
 pointer and the container's position and starts a drag; pointer-moves on the
 surface then place the container so that this offset is kept; pointer-up and
 pointer-leave on the surface end the drag.
 */
module Pan {
  import opened Viewport

  /** Pointer-down on the container at surface point `global`. */
  function PointerDown(s: State, global: Point): (r: State)
    ensures r.isDragging
    ensures r.view.pos.Plus(r.dragStart) == global
    ensures r.view == s.view && r.clickTime == s.clickTime && r.clickCount == s.clickCount
  {
    s.(isDragging := true, dragStart := global.Minus(s.view.pos))
  }

  /** Pointer-move on the surface to `client`. While dragging, the container
      follows the pointer at the recorded offset; otherwise nothing changes. */
  function PointerMove(s: State, client: Point): (r: State)
    ensures !s.isDragging ==> r == s
    ensures s.isDragging ==> r.view.pos.Plus(s.dragStart) == client
    ensures r.view.scale == s.view.scale
    ensures r.(view := s.view) == s
  {
    if s.isDragging then
      s.(view := s.view.(pos := client.Minus(s.dragStart)))
    else
      s
  }

  /** Pointer-up or pointer-leave on the surface: the drag ends, and nothing
      else changes. */
  function ReleaseDrag(s: State): (r: State)
    ensures !r.isDragging
    ensures r.(isDragging := s.isDragging) == s
  {
    s.(isDragging := false)
  }

  /** After pointer-down at `g` with the container at `c`, a move to `p`
      puts the container at `p - (g - c)`. */
  lemma DragFollowsPointer(s: State, g: Point, p: Point)
    ensures PointerMove(PointerDown(s, g), p).view.pos == p.Minus(g.Minus(s.view.pos))
  {
  }

  /** The diagram point grabbed at pointer-down stays under the pointer while
      it moves. */
  lemma GrabbedPointStaysUnderPointer(s: State, g: Point, p: Point)
    requires s.view.scale != 0.0
    ensures var r := PointerMove(PointerDown(s, g), p);
            r.view.scale != 0.0 && ToLocal(r.view, p) == ToLocal(s.view, g)
  {
    var d := PointerDown(s, g);
    var r := PointerMove(d, p);
    assert r.view.pos.Plus(d.dragStart) == p;
    assert d.view.pos.Plus(d.dragStart) == g;
  }

  /** Moving back to where the pointer went down leaves the container where it was. */
  lemma MoveToPressPointIsNoOp(s: State, g: Point)
    ensures PointerMove(PointerDown(s, g), g).view == s.view
  {
  }

  /** Only the latest pointer position of a drag matters. */
  lemma LastMoveWins(s: State, p1: Point, p2: Point)
    ensures PointerMove(PointerMove(s, p1), p2) == PointerMove(s, p2)
  {
  }

  /** Once the drag has ended, moving the pointer does nothing. */
  lemma MoveAfterReleaseIsNoOp(s: State, p: Point)
    ensures PointerMove(ReleaseDrag(s), p) == ReleaseDrag(s)
  {
  }
}
