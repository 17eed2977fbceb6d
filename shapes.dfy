/**
 * Shape stream generators (lib/shapes.js).
 *
 * Every generator yields a flat coordinate stream x0, y0, x1, y1, ... meant
 * for a triangle-strip draw.  The streams are modelled eagerly as finite
 * sequences of reals.
 */
module Shapes {

  /** `rectangle(X1, Y1, X2, Y2)`: the four corners of a quad, unclosed. */
  function Rectangle(x1: real, y1: real, x2: real, y2: real): (r: seq<real>)
    ensures |r| == 8
    ensures forall p :: 0 <= p < 4 ==> IsQuadCorner(r, p, x1, y1, x2, y2)
  {
    [x1, y1, x2, y1, x1, y2, x2, y2]
  }

  /**
   * Point `p` of the stream `r` is the quad corner whose x is picked by the
   * low bit of `p` and whose y is picked by the high bit.
   */
  predicate IsQuadCorner(r: seq<real>, p: nat, x1: real, y1: real, x2: real, y2: real)
    requires 2 * p + 1 < |r|
  {
    && r[2 * p] == (if p % 2 == 0 then x1 else x2)
    && r[2 * p + 1] == (if p < 2 then y1 else y2)
  }

  /** The smaller of two coordinates, as `X1 > X2 ? [X2, X1] : [X1, X2]` picks it. */
  function Lo(a: real, b: real): real { if a > b then b else a }

  /** The larger of two coordinates, as `X1 > X2 ? [X2, X1] : [X1, X2]` picks it. */
  function Hi(a: real, b: real): real { if a > b then a else b }

  /**
   * `box(X1, Y1, X2, Y2, W)`: a hollow frame of border width W, emitted as ten
   * points alternating between an inner (B) and an outer (A) corner, bottom,
   * right, top, left, and back to the start.
   */
  function Box(x1: real, y1: real, x2: real, y2: real, w: real): (r: seq<real>)
    ensures |r| == 20
    ensures r[0] == Lo(x1, x2) + w / 2.0 && r[1] == Lo(y1, y2) + w / 2.0
    ensures r[16..] == r[..4]
  {
    var lx, hx := Lo(x1, x2), Hi(x1, x2);
    var ly, hy := Lo(y1, y2), Hi(y1, y2);
    var d := w / 2.0;
    var x1a, x1b := lx - d, lx + d;
    var y1a, y1b := ly - d, ly + d;
    var x2a, x2b := hx + d, hx - d;
    var y2a, y2b := hy + d, hy - d;
    [ x1b, y1b, x1a, y1a,
      x2b, y1b, x2a, y1a,
      x2b, y2b, x2a, y2a,
      x1b, y2b, x1a, y2a,
      x1b, y1b, x1a, y1a ]
  }

  /** Which way the outer point of corner pair `q` lies from the inner one along x: left on the X1 side, right on the X2 side. */
  function OutX(q: nat): real { if q == 1 || q == 2 then 1.0 else -1.0 }

  /** Which way the outer point of corner pair `q` lies from the inner one along y: down on the Y1 side, up on the Y2 side. */
  function OutY(q: nat): real { if q == 2 || q == 3 then 1.0 else -1.0 }

  /**
   * In corner pair `q` of a box stream, the outer point (A) lies exactly `w`
   * outward from the inner point (B) along each axis, and the two straddle
   * the box corner (cx, cy) they belong to.
   */
  predicate CornerGap(r: seq<real>, q: nat, w: real, cx: real, cy: real)
    requires 4 * q + 3 < |r|
  {
    && r[4 * q + 2] - r[4 * q] == OutX(q) * w
    && r[4 * q + 3] - r[4 * q + 1] == OutY(q) * w
    && (r[4 * q] + r[4 * q + 2]) / 2.0 == cx
    && (r[4 * q + 1] + r[4 * q + 3]) / 2.0 == cy
  }

  /**
   * The frame is a border of width W centred on the normalised rectangle:
   * pairs 0 and 4 sit at (X1, Y1), pair 1 at (X2, Y1), pair 2 at (X2, Y2) and
   * pair 3 at (X1, Y2), each with its outer point outside the inner one.
   */
  lemma BoxBorderWidth(x1: real, y1: real, x2: real, y2: real, w: real)
    ensures var r, lx, hx, ly, hy := Box(x1, y1, x2, y2, w), Lo(x1, x2), Hi(x1, x2), Lo(y1, y2), Hi(y1, y2);
      && CornerGap(r, 0, w, lx, ly) && CornerGap(r, 1, w, hx, ly) && CornerGap(r, 2, w, hx, hy)
      && CornerGap(r, 3, w, lx, hy) && CornerGap(r, 4, w, lx, ly)
  {
  }

  /** The corners are normalised first, so the order of either pair does not matter. */
  lemma BoxSwapInvariant(x1: real, y1: real, x2: real, y2: real, w: real)
    ensures Box(x2, y1, x1, y2, w) == Box(x1, y1, x2, y2, w)
    ensures Box(x1, y2, x2, y1, w) == Box(x1, y1, x2, y2, w)
    ensures Box(x2, y2, x1, y1, w) == Box(x1, y1, x2, y2, w)
  {
  }

  /**
   * The last value `close` buffered in slot `parity` of `buf`: the last element
   * of `s` at an index of that parity, or 0 when there is none.
   */
  function LastOfParity(s: seq<real>, parity: nat): (v: real)
    requires parity < 2
    ensures |s| > parity ==> v == s[LastIndexOfParity(|s|, parity)]
    ensures |s| <= parity ==> v == 0.0
  {
    if |s| == 0 then 0.0
    else if (|s| - 1) % 2 == parity then s[|s| - 1]
    else LastOfParity(s[..|s| - 1], parity)
  }

  /** The largest index below `n` of the given parity. */
  function LastIndexOfParity(n: nat, parity: nat): nat
    requires parity < 2 && n > parity
  {
    if (n - 1) % 2 == parity then n - 1 else n - 2
  }

  /**
   * What `close(shape)` yields: the stream itself with its first pair yielded
   * a second time right after it appears, followed by the last value seen in
   * each of the two slots of its buffer.
   */
  function Closed(s: seq<real>): seq<real>
  {
    (if |s| >= 2 then s[..2] + s else s) + [LastOfParity(s, 0), LastOfParity(s, 1)]
  }

  /**
   * On a stream of n >= 1 whole points, `close` duplicates the first point in
   * place and repeats the last point once more at the end.
   */
  lemma ClosePoints(s: seq<real>)
    requires |s| >= 2 && |s| % 2 == 0
    ensures Closed(s) == s[..2] + s + s[|s| - 2..]
    ensures |Closed(s)| == |s| + 4
  {
    assert LastOfParity(s, 0) == s[|s| - 2];
    assert LastOfParity(s, 1) == s[|s| - 1];
  }

  /** An empty stream closes to the buffer's initial contents. */
  lemma CloseEmpty()
    ensures Closed([]) == [0.0, 0.0]
  {
  }

  /** `close` always ends with the last value of each parity. */
  lemma CloseEnds(s: seq<real>)
    ensures |Closed(s)| == |s| + (if |s| >= 2 then 4 else 2)
    ensures Closed(s)[|Closed(s)| - 2] == LastOfParity(s, 0)
    ensures Closed(s)[|Closed(s)| - 1] == LastOfParity(s, 1)
  {
  }

  /** `close(shape)`, with its two-slot buffer and counter. */
  method Close(shape: seq<real>) returns (out: seq<real>)
    ensures out == Closed(shape)
  {
    var p := 0;
    var buf := new real[2];
    buf[0], buf[1] := 0.0, 0.0;
    out := [];
    for i := 0 to |shape|
      invariant p == i
      invariant buf[0] == LastOfParity(shape[..i], 0)
      invariant buf[1] == LastOfParity(shape[..i], 1)
      invariant out == if i >= 2 then shape[..2] + shape[..i] else shape[..i]
    {
      assert shape[..i + 1][..i] == shape[..i];
      buf[p % 2] := shape[i];
      out := out + [buf[p % 2]];
      p := p + 1;
      if p == 2 {
        out := out + [buf[0], buf[1]];
      }
    }
    assert shape[..|shape|] == shape;
    out := out + [buf[0], buf[1]];
  }

  /** The offset added to grid cell (i, j): x-offset to even indices, y-offset to odd. */
  function CellOffset(origin: (real, real), step: (real, real), i: int, j: int): (real, real)
  {
    (origin.0 + step.0 * i as real, origin.1 + step.1 * j as real)
  }

  /** Element k of the closed shape moved by `off`: x-offset on even indices, y-offset on odd. */
  function CellValue(closed: seq<real>, off: (real, real), k: nat): real
    requires k < |closed|
  {
    closed[k] + (if k % 2 == 0 then off.0 else off.1)
  }

  /** One grid cell: the closed shape moved by `off`. */
  function Shifted(closed: seq<real>, off: (real, real)): seq<real>
  {
    seq(|closed|, k requires 0 <= k < |closed| => CellValue(closed, off, k))
  }

  /** Row i of the grid: cells j = 0 .. n-1. */
  function Row(closed: seq<real>, origin: (real, real), step: (real, real), i: int, n: nat): seq<real>
  {
    if n == 0 then []
    else Row(closed, origin, step, i, n - 1) + Shifted(closed, CellOffset(origin, step, i, n - 1))
  }

  /** Rows i = 0 .. m-1, i outer and j inner. */
  function Grid(closed: seq<real>, origin: (real, real), step: (real, real), m: nat, n: nat): seq<real>
  {
    if m == 0 then []
    else Grid(closed, origin, step, m - 1, n) + Row(closed, origin, step, m - 1, n)
  }

  /** A loop `for (i = 0; i < c; i++)` runs max(c, 0) times. */
  function Runs(c: int): nat { if c > 0 then c else 0 }

  /** One pass of the innermost loop of `array`: the closed shape, offset cell by cell. */
  method EmitCell(closed: seq<real>, offset: (real, real)) returns (cell: seq<real>)
    ensures cell == Shifted(closed, offset)
  {
    var f := 0;
    cell := [];
    for k := 0 to |closed|
      invariant f == k
      invariant cell == Shifted(closed, offset)[..k]
    {
      cell := cell + [closed[k] + (if f % 2 == 0 then offset.0 else offset.1)];
      f := f + 1;
    }
  }

  /** `array(shape, origin, step, dup)`. */
  method Array(shape: seq<real>, origin: (real, real), step: (real, real), dup: (int, int))
    returns (out: seq<real>)
    ensures out == Grid(Closed(shape), origin, step, Runs(dup.0), Runs(dup.1))
  {
    var closed := Close(shape);
    out := [];
    var i := 0;
    while i < dup.0
      invariant 0 <= i <= Runs(dup.0)
      invariant out == Grid(closed, origin, step, i, Runs(dup.1))
    {
      ghost var rowStart := out;
      var j := 0;
      while j < dup.1
        invariant 0 <= j <= Runs(dup.1)
        invariant out == rowStart + Row(closed, origin, step, i, j)
      {
        var cell := EmitCell(closed, CellOffset(origin, step, i, j));
        out := out + cell;
        j := j + 1;
      }
      i := i + 1;
    }
  }

  lemma {:induction false} RowLength(closed: seq<real>, origin: (real, real), step: (real, real), i: int, n: nat)
    ensures |Row(closed, origin, step, i, n)| == n * |closed|
  {
    if n > 0 {
      RowLength(closed, origin, step, i, n - 1);
    }
  }

  /** `array` emits m * n * |close(shape)| numbers. */
  lemma {:induction false} GridLength(closed: seq<real>, origin: (real, real), step: (real, real), m: nat, n: nat)
    ensures |Grid(closed, origin, step, m, n)| == m * (n * |closed|)
  {
    if m > 0 {
      GridLength(closed, origin, step, m - 1, n);
      RowLength(closed, origin, step, m - 1, n);
      MulSucc(m - 1, n * |closed|);
    }
  }

  lemma MulSucc(a: nat, b: nat)
    ensures a * b + b == (a + 1) * b
  {
  }

  /** Cell j of a row starts after the cells before it. */
  lemma {:induction false} RowCellAt(closed: seq<real>, origin: (real, real), step: (real, real), i: int, n: nat, j: nat, k: nat)
    requires j < n && k < |closed|
    ensures |Row(closed, origin, step, i, j)| + k < |Row(closed, origin, step, i, n)|
    ensures Row(closed, origin, step, i, n)[|Row(closed, origin, step, i, j)| + k]
         == CellValue(closed, CellOffset(origin, step, i, j), k)
  {
    var prev := Row(closed, origin, step, i, n - 1);
    var last := Shifted(closed, CellOffset(origin, step, i, n - 1));
    var t := |Row(closed, origin, step, i, j)| + k;
    assert Row(closed, origin, step, i, n) == prev + last;
    if j < n - 1 {
      RowCellAt(closed, origin, step, i, n - 1, j, k);
      assert (prev + last)[t] == prev[t];
    } else {
      assert (prev + last)[t] == last[k];
    }
  }

  /**
   * Cells appear with i outer and j inner: cell (i, j) starts after all the
   * rows before i and all the cells of row i before j, and its element k is
   * element k of the closed shape plus the x-offset (k even) or the y-offset
   * (k odd).
   */
  lemma {:induction false} GridCellAt(closed: seq<real>, origin: (real, real), step: (real, real),
                                      m: nat, n: nat, i: nat, j: nat, k: nat)
    requires i < m && j < n && k < |closed|
    ensures |Grid(closed, origin, step, i, n)| + |Row(closed, origin, step, i, j)| + k < |Grid(closed, origin, step, m, n)|
    ensures Grid(closed, origin, step, m, n)[|Grid(closed, origin, step, i, n)| + |Row(closed, origin, step, i, j)| + k]
         == CellValue(closed, CellOffset(origin, step, i, j), k)
  {
    var prev := Grid(closed, origin, step, m - 1, n);
    var last := Row(closed, origin, step, m - 1, n);
    var t := |Grid(closed, origin, step, i, n)| + |Row(closed, origin, step, i, j)| + k;
    var v := CellValue(closed, CellOffset(origin, step, i, j), k);
    assert Grid(closed, origin, step, m, n) == prev + last;
    if i < m - 1 {
      assert t < |prev| && prev[t] == v by {
        GridCellAt(closed, origin, step, m - 1, n, i, j, k);
      }
      assert (prev + last)[t] == prev[t];
    } else {
      assert t - |prev| < |last| && last[t - |prev|] == v by {
        RowCellAt(closed, origin, step, i, n, j, k);
      }
      assert (prev + last)[t] == last[t - |prev|];
    }
  }

  /** The same cell addressed as `((i * n) + j) * |closed| + k`. */
  lemma GridCell(closed: seq<real>, origin: (real, real), step: (real, real),
                 m: nat, n: nat, i: nat, j: nat, k: nat)
    requires i < m && j < n && k < |closed|
    ensures (i * n + j) * |closed| + k < |Grid(closed, origin, step, m, n)|
    ensures Grid(closed, origin, step, m, n)[(i * n + j) * |closed| + k]
         == CellValue(closed, CellOffset(origin, step, i, j), k)
  {
    GridCellAt(closed, origin, step, m, n, i, j, k);
    GridLength(closed, origin, step, i, n);
    RowLength(closed, origin, step, i, j);
    CellIndex(i, j, k, n, |closed|);
  }

  lemma CellIndex(i: nat, j: nat, k: nat, n: nat, L: nat)
    ensures (i * n + j) * L + k == i * (n * L) + j * L + k
  {
    assert (i * n + j) * L == (i * n) * L + j * L;
    assert (i * n) * L == i * (n * L);
  }

  /** `combine(...shapes)`: the closed streams one after the other. */
  function Combine(shapes: seq<seq<real>>): seq<real>
  {
    if |shapes| == 0 then [] else Closed(shapes[0]) + Combine(shapes[1..])
  }

  /** Combining concatenates in argument order. */
  lemma {:induction false} CombineAppend(a: seq<seq<real>>, b: seq<seq<real>>)
    ensures Combine(a + b) == Combine(a) + Combine(b)
  {
    if |a| > 0 {
      assert (a + b)[1..] == a[1..] + b;
      CombineAppend(a[1..], b);
    } else {
      assert a + b == b;
    }
  }

  /** Total length of the closed streams of all the shapes. */
  function ClosedLengths(shapes: seq<seq<real>>): nat
  {
    if |shapes| == 0 then 0 else |Closed(shapes[0])| + ClosedLengths(shapes[1..])
  }

  /** Shape k's closed stream sits between the streams of the shapes before and after it. */
  lemma CombinePiece(shapes: seq<seq<real>>, k: nat)
    requires k < |shapes|
    ensures Combine(shapes) == Combine(shapes[..k]) + Closed(shapes[k]) + Combine(shapes[k + 1..])
    ensures |Combine(shapes[..k])| == ClosedLengths(shapes[..k])
  {
    CombineLength(shapes[..k]);
    assert shapes == shapes[..k] + ([shapes[k]] + shapes[k + 1..]);
    CombineAppend(shapes[..k], [shapes[k]] + shapes[k + 1..]);
    CombineAppend([shapes[k]], shapes[k + 1..]);
    assert Combine([shapes[k]]) == Closed(shapes[k]) by {
      assert [shapes[k]][1..] == [];
    }
  }

  lemma {:induction false} CombineLength(shapes: seq<seq<real>>)
    ensures |Combine(shapes)| == ClosedLengths(shapes)
  {
    if |shapes| > 0 {
      CombineLength(shapes[1..]);
    }
  }

  /** The stream `rectangle(0, 0, 1, 1)` and the first points of `box(0, 0, 1, 1, 0.1)`. */
  lemma Examples()
    ensures Rectangle(0.0, 0.0, 1.0, 1.0) == [0.0, 0.0, 1.0, 0.0, 0.0, 1.0, 1.0, 1.0]
    ensures Box(0.0, 0.0, 1.0, 1.0, 0.1)[..8] == [0.05, 0.05, -0.05, -0.05, 0.95, 0.05, 1.05, -0.05]
  {
  }
}
