/**
 Wheel zoom: each wheel event moves the scale one step towards the limit its
 direction points to, clamped to [MinScale, MaxScale], and re-positions the
 container so that the diagram point under the cursor stays under the cursor.
 */
module Zoom {
  import opened Viewport

  function Min(a: real, b: real): real { if a <= b then a else b }
  function Max(a: real, b: real): real { if a <= b then b else a }

  /** +1 zooms in (the wheel rolled away from the user, `deltaY < 0`);
      every other delta, zero included, zooms out. */
  function Direction(deltaY: real): real {
    if deltaY < 0.0 then 1.0 else -1.0
  }

  /** The scale already sits at the limit the wheel direction points to. */
  predicate AtLimit(scale: real, deltaY: real) {
    if deltaY < 0.0 then scale == MaxScale else scale == MinScale
  }

  /** Candidate scale after one wheel event, clamped to the zoom limits. */
  function NextScale(scale: real, deltaY: real): (r: real)
    ensures InRange(r)
    ensures InRange(scale) && deltaY < 0.0 ==>
              scale <= r && (r == scale + ScaleStep || r == MaxScale)
    ensures InRange(scale) && deltaY >= 0.0 ==>
              r <= scale && (r == scale - ScaleStep || r == MinScale)
    ensures InRange(scale) ==> (r == scale <==> AtLimit(scale, deltaY))
    ensures InRange(scale) && deltaY < 0.0 ==> r == Min(MaxScale, scale + ScaleStep)
    ensures InRange(scale) && deltaY >= 0.0 ==> r == Max(MinScale, scale - ScaleStep)
  {
    Max(MinScale, Min(MaxScale, scale + Direction(deltaY) * ScaleStep))
  }

  /** A step from a whole number of tenths lands on a whole number of tenths. */
  lemma NextScaleOnGrid(scale: real, deltaY: real)
    requires InRange(scale) && OnGrid(scale)
    ensures OnGrid(NextScale(scale, deltaY))
  {
    var r := NextScale(scale, deltaY);
    var n := (scale * 10.0).Floor;
    if r == MaxScale {
      assert r * 10.0 == 30.0;
    } else if r == MinScale {
      assert r * 10.0 == 2.0;
    } else if deltaY < 0.0 {
      assert r * 10.0 == (n + 1) as real;
    } else {
      assert r * 10.0 == (n - 1) as real;
    }
  }

  /** One wheel event on the view: the new scale, and the container position
      that keeps the cursor's local point fixed. When the clamped scale equals
      the current one the event changes nothing. */
  function Wheel(v: View, deltaY: real, mouse: Point): (r: View)
    requires v.scale != 0.0
    ensures r.scale == NextScale(v.scale, deltaY)
    ensures r.scale != 0.0
    ensures ToLocal(r, mouse) == ToLocal(v, mouse)
    ensures r.scale == v.scale ==> r == v
  {
    var newScale := NextScale(v.scale, deltaY);
    if newScale == v.scale then v
    else
      var local := ToLocal(v, mouse);
      View(newScale, Point(mouse.x - local.x * newScale, mouse.y - local.y * newScale))
  }

  /** Zooming in at the upper limit, or out at the lower one, is a no-op;
      at any other in-range scale the scale does change. */
  lemma WheelNoOpExactlyAtLimit(v: View, deltaY: real, mouse: Point)
    requires InRange(v.scale)
    ensures Wheel(v, deltaY, mouse) == v <==> AtLimit(v.scale, deltaY)
  {
  }

  /** The cursor's surface position is where its local point is drawn after the
      update, on both axes. */
  lemma ZoomKeepsCursorPoint(v: View, deltaY: real, mouse: Point)
    requires v.scale != 0.0
    ensures var r := Wheel(v, deltaY, mouse);
            r.pos.x + ToLocal(v, mouse).x * r.scale == mouse.x &&
            r.pos.y + ToLocal(v, mouse).y * r.scale == mouse.y
  {
    var r := Wheel(v, deltaY, mouse);
    assert ToGlobal(r, ToLocal(r, mouse)) == mouse;
  }

  /** `n` wheel events with the same delta at the same cursor position. */
  function RepeatWheel(v: View, deltaY: real, mouse: Point, n: nat): (r: View)
    requires InRange(v.scale)
    ensures InRange(r.scale)
    decreases n
  {
    if n == 0 then v else RepeatWheel(Wheel(v, deltaY, mouse), deltaY, mouse, n - 1)
  }

  /** Zooming in `n` times adds `n` steps, capped at the upper limit. */
  lemma {:induction false} RepeatZoomIn(v: View, deltaY: real, mouse: Point, n: nat)
    requires InRange(v.scale) && deltaY < 0.0
    ensures RepeatWheel(v, deltaY, mouse, n).scale == Min(MaxScale, v.scale + n as real * ScaleStep)
    decreases n
  {
    if n > 0 {
      var w := Wheel(v, deltaY, mouse);
      RepeatZoomIn(w, deltaY, mouse, n - 1);
    }
  }

  /** Zooming out `n` times removes `n` steps, capped at the lower limit. */
  lemma {:induction false} RepeatZoomOut(v: View, deltaY: real, mouse: Point, n: nat)
    requires InRange(v.scale) && deltaY >= 0.0
    ensures RepeatWheel(v, deltaY, mouse, n).scale == Max(MinScale, v.scale - n as real * ScaleStep)
    decreases n
  {
    if n > 0 {
      var w := Wheel(v, deltaY, mouse);
      RepeatZoomOut(w, deltaY, mouse, n - 1);
    }
  }

  /** 28 steps span the whole zoom range, so from any in-range scale that many
      events in one direction reach that direction's limit; further events in
      the same direction leave the view as it is. */
  lemma RepeatReachesLimit(v: View, deltaY: real, mouse: Point, n: nat)
    requires InRange(v.scale) && n >= 28
    ensures var r := RepeatWheel(v, deltaY, mouse, n);
            AtLimit(r.scale, deltaY) && Wheel(r, deltaY, mouse) == r
  {
    if deltaY < 0.0 {
      RepeatZoomIn(v, deltaY, mouse, n);
    } else {
      RepeatZoomOut(v, deltaY, mouse, n);
    }
  }

  /** However many wheel events arrive at one cursor position, the diagram
      point under the cursor stays the same. */
  lemma {:induction false} RepeatKeepsCursorPoint(v: View, deltaY: real, mouse: Point, n: nat)
    requires InRange(v.scale)
    ensures ToLocal(RepeatWheel(v, deltaY, mouse, n), mouse) == ToLocal(v, mouse)
    decreases n
  {
    if n > 0 {
      RepeatKeepsCursorPoint(Wheel(v, deltaY, mouse), deltaY, mouse, n - 1);
    }
  }
}
