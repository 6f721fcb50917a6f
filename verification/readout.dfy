/**
 The zoom readout refreshed on every frame: the scale as a percentage,
 rounded to the nearest integer the way JavaScript's `Math.round` does
 (halves go up).
 */
module Readout {
  import opened Viewport

  /** Nearest integer to `x`, halves rounded towards positive infinity. */
  function Round(x: real): (r: int)
    ensures r as real - 0.5 <= x < r as real + 0.5
  {
    (x + 0.5).Floor
  }

  /** Exactly one integer lies within half a unit of `x` (halves going up),
      and Round picks it. */
  lemma RoundUnique(x: real, k: int)
    requires k as real - 0.5 <= x < k as real + 0.5
    ensures k == Round(x)
  {
    var r := Round(x);
    assert r as real - k as real < 1.0 && k as real - r as real < 1.0;
  }

  /** The percentage the readout shows for `scale`. */
  function ZoomPercent(scale: real): (r: int)
    ensures r as real - 0.5 <= scale * 100.0 < r as real + 0.5
  {
    Round(scale * 100.0)
  }

  /** An in-range scale shows between 20% and 300%. */
  lemma PercentInRange(scale: real)
    requires InRange(scale)
    ensures 20 <= ZoomPercent(scale) <= 300
  {
  }

  /** A scale of whole tenths shows exactly its percentage, a multiple of ten. */
  lemma PercentExactOnGrid(scale: real)
    requires OnGrid(scale)
    ensures ZoomPercent(scale) as real == scale * 100.0
    ensures ZoomPercent(scale) % 10 == 0
  {
    var n := (scale * 10.0).Floor;
    assert scale * 100.0 == (10 * n) as real;
    RoundUnique(scale * 100.0, 10 * n);
  }

  /** After a reset the readout shows 100%. */
  lemma PercentAfterReset(screen: Screen)
    ensures ZoomPercent(Home(screen).scale) == 100
  {
  }
}
