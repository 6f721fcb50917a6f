/**
 Double-click reset. Every pointer-up on the container is timestamped; one that
 follows the previous one within the double-click window advances a counter,
 and the counter reaching 2 resets the view to scale 1 at the surface centre
 and clears the counter. A slower pointer-up restarts the counter at 1.
 */
module DoubleClick {
  import opened Viewport

  /** The pointer-up at `now` follows the previous one within the window. */
  predicate Quick(s: State, now: int) {
    now - s.clickTime < DoubleClickWindow
  }

  /** The pointer-up at `now` completes a double click. */
  predicate Triggers(s: State, now: int) {
    Quick(s, now) && s.clickCount + 1 == 2
  }

  /** Pointer-up on the container at time `now` (ms). */
  function ClickUp(s: State, now: int, screen: Screen): (r: State)
    ensures r.clickTime == now
    ensures r.isDragging == s.isDragging && r.dragStart == s.dragStart
    ensures r.clickCount == 0 <==> Triggers(s, now)
    ensures Triggers(s, now) ==> r.view == Home(screen)
    ensures !Triggers(s, now) ==> r.view == s.view
    ensures !Quick(s, now) ==> r.clickCount == 1
    ensures s.clickCount <= 1 ==> r.clickCount <= 1
  {
    if Quick(s, now) then
      var count := s.clickCount + 1;
      if count == 2 then
        s.(view := View(1.0, screen.Center()), clickCount := 0, clickTime := now)
      else
        s.(clickCount := count, clickTime := now)
    else
      s.(clickCount := 1, clickTime := now)
  }

  /** After a pause (or a reset), two pointer-ups less than the window apart
      reset the view and clear the counter. */
  lemma QuickPairResets(s: State, t1: int, t2: int, screen: Screen)
    requires s.clickCount == 0 || !Quick(s, t1)
    requires t2 - t1 < DoubleClickWindow
    ensures var r := ClickUp(ClickUp(s, t1, screen), t2, screen);
            r.view == Home(screen) && r.clickCount == 0 && r.clickTime == t2
  {
  }

  /** Two pointer-ups at least the window apart never reset: the second one
      restarts the counter at 1 and leaves the view alone. */
  lemma SlowPairRestarts(s: State, t1: int, t2: int, screen: Screen)
    requires t2 - t1 >= DoubleClickWindow
    ensures var m := ClickUp(s, t1, screen);
            var r := ClickUp(m, t2, screen);
            r.clickCount == 1 && r.view == m.view
  {
  }

  /** The pointer-up right after a reset never resets again, however quick:
      a quick third click only brings the counter to 1. */
  lemma NoResetRightAfterReset(s: State, t1: int, t2: int, screen: Screen)
    requires Triggers(s, t1)
    ensures var m := ClickUp(s, t1, screen);
            !Triggers(m, t2) && ClickUp(m, t2, screen).clickCount == 1
  {
  }

  /** Three quick pointer-ups from a cleared counter: the second resets, the
      third counts 1 and keeps the reset view. */
  lemma TripleQuickClick(s: State, t1: int, t2: int, t3: int, screen: Screen)
    requires s.clickCount == 0
    requires Quick(s, t1) && t2 - t1 < DoubleClickWindow && t3 - t2 < DoubleClickWindow
    ensures var a := ClickUp(s, t1, screen);
            var b := ClickUp(a, t2, screen);
            var c := ClickUp(b, t3, screen);
            a.clickCount == 1 && a.view == s.view &&
            b.clickCount == 0 && b.view == Home(screen) &&
            c.clickCount == 1 && c.view == Home(screen)
  {
  }
}
