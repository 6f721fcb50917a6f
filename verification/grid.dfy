/**
 The background grid: horizontal lines at every multiple of the grid size
 from 0 up to the height, then vertical lines at every multiple up to the
 width. The drawing calls become a list of line segments.
 */
module Grid {
  import opened Viewport

  datatype Segment = Segment(from: Point, to: Point)

  /** Number of multiples 0, g, 2g, ... not beyond `extent`: the number of
      iterations of one of the grid loops. */
  function LineCount(extent: real, g: real): (n: nat)
    requires g > 0.0 || extent < 0.0
    ensures extent < 0.0 ==> n == 0
    ensures extent >= 0.0 ==> (n - 1) as real * g <= extent < n as real * g
  {
    if extent < 0.0 then 0
    else
      var f := (extent / g).Floor;
      FloorDivBounds(extent, g);
      f + 1
  }

  lemma FloorDivBounds(extent: real, g: real)
    requires g > 0.0
    ensures (extent / g).Floor as real * g <= extent < ((extent / g).Floor + 1) as real * g
  {
    var q := extent / g;
    var f := q.Floor;
    assert q * g == extent;
    assert q < (f + 1) as real;
    MulMonotone(f as real, q, g);
    MulMonotone(q, (f + 1) as real, g);
    assert extent < (f + 1) as real * g;
  }

  lemma MulMonotone(a: real, b: real, g: real)
    requires a <= b && g > 0.0
    ensures a * g <= b * g
    ensures a < b ==> a * g < b * g
  {
  }

  lemma MulCancel(a: real, b: real, g: real)
    requires g > 0.0 && a * g <= b * g
    ensures a <= b
    ensures a * g < b * g ==> a < b
  {
  }

  /** A multiple of `g` within `extent` is one of the first LineCount of them. */
  lemma WithinCount(extent: real, g: real, k: nat)
    requires g > 0.0 && k as real * g <= extent
    ensures k < LineCount(extent, g)
  {
    var q := extent / g;
    assert q * g == extent;
    MulCancel(k as real, q, g);
    assert k <= q.Floor;
  }

  /** A multiple of `g` beyond `extent` is not among the first LineCount of them. */
  lemma BeyondCount(extent: real, g: real, k: nat)
    requires g > 0.0 || extent < 0.0
    requires k as real * g > extent
    ensures k >= LineCount(extent, g)
  {
    if extent >= 0.0 {
      var q := extent / g;
      assert q * g == extent;
      MulCancel(q, k as real, g);
      assert q.Floor < k;
    }
  }

  /** Every line a grid loop draws lies within the surface: its offset is
      between 0 and the extent. */
  lemma LinesWithinExtent(extent: real, g: real, k: nat)
    requires g > 0.0 || extent < 0.0
    requires k < LineCount(extent, g)
    ensures 0.0 <= k as real * g <= extent
  {
    var n := LineCount(extent, g);
    assert extent >= 0.0 && g > 0.0;
    assert k as real <= (n - 1) as real;
    MulMonotone(0.0, k as real, g);
    MulMonotone(k as real, (n - 1) as real, g);
    var lower := k as real * g;
    var last := (n - 1) as real * g;
    assert lower <= last;
    assert last <= extent;
  }

  function HorizontalLine(k: nat, width: real, g: real): Segment {
    Segment(Point(0.0, k as real * g), Point(width, k as real * g))
  }

  function VerticalLine(k: nat, height: real, g: real): Segment {
    Segment(Point(k as real * g, 0.0), Point(k as real * g, height))
  }

  /** The segments the grid consists of, in drawing order. A loop whose
      extent is not negative runs forever when the grid size is not
      positive, hence the precondition. */
  method DrawGrid(width: real, height: real, gridSize: real) returns (segs: seq<Segment>)
    requires gridSize > 0.0 || height < 0.0
    requires gridSize > 0.0 || width < 0.0
    ensures |segs| == LineCount(height, gridSize) + LineCount(width, gridSize)
    ensures forall k :: 0 <= k < LineCount(height, gridSize) ==>
              segs[k] == HorizontalLine(k, width, gridSize)
    ensures forall k :: 0 <= k < LineCount(width, gridSize) ==>
              segs[LineCount(height, gridSize) + k] == VerticalLine(k, height, gridSize)
  {
    var rows := LineCount(height, gridSize);
    var cols := LineCount(width, gridSize);
    segs := [];
    var y := 0.0;
    var k := 0;
    while y <= height
      invariant 0 <= k <= rows
      invariant y == k as real * gridSize
      invariant |segs| == k
      invariant forall j :: 0 <= j < k ==> segs[j] == HorizontalLine(j, width, gridSize)
      decreases rows - k
    {
      WithinCount(height, gridSize, k);
      segs := segs + [HorizontalLine(k, width, gridSize)];
      y := y + gridSize;
      k := k + 1;
    }
    BeyondCount(height, gridSize, k);
    var x := 0.0;
    k := 0;
    while x <= width
      invariant 0 <= k <= cols
      invariant x == k as real * gridSize
      invariant |segs| == rows + k
      invariant forall j :: 0 <= j < rows ==> segs[j] == HorizontalLine(j, width, gridSize)
      invariant forall j :: 0 <= j < k ==> segs[rows + j] == VerticalLine(j, height, gridSize)
      decreases cols - k
    {
      WithinCount(width, gridSize, k);
      segs := segs + [VerticalLine(k, height, gridSize)];
      x := x + gridSize;
      k := k + 1;
    }
    BeyondCount(width, gridSize, k);
  }
}
