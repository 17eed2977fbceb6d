// Wheel gestures (lib/gesture.js): a raw, unbounded scale is mapped to a
// positive zoom factor by `normalizeScale`; a wheel event either pans the
// view or zooms it about the cursor.  `Math.exp` is a parameter.

module Gesture {

  /**
   * What the model needs of `Math.exp`: 1 at 0, positive, strictly
   * increasing.
   */
  ghost predicate ExpLike(exp: real -> real)
  {
    && exp(0.0) == 1.0
    && (forall v :: exp(v) > 0.0)
    && (forall u, v :: u < v ==> exp(u) < exp(v))
  }

  /** A stand-in for `Math.exp`: 1/(1 - v) up to 0, then 1 + v. */
  function WitnessExp(v: real): real
  {
    if v <= 0.0 then 1.0 / (1.0 - v) else 1.0 + v
  }

  lemma WitnessExpIncreasing(u: real, v: real)
    requires u < v
    ensures 0.0 < WitnessExp(u) < WitnessExp(v)
  {
    if v <= 0.0 {
      assert 1.0 - v < 1.0 - u;
      DivLess(1.0 - v, 1.0 - u);
    } else if u <= 0.0 {
      assert 1.0 <= 1.0 - u;
      DivAtMostOne(1.0 - u);
    }
  }

  /** A function with those three properties exists, so they are not contradictory. */
  lemma ExpLikeSatisfiable()
    ensures ExpLike(WitnessExp)
  {
    forall u, v | u < v ensures WitnessExp(u) < WitnessExp(v) {
      WitnessExpIncreasing(u, v);
    }
    forall v ensures WitnessExp(v) > 0.0 {
      WitnessExpIncreasing(v, v + 1.0);
    }
  }

  lemma DivLess(a: real, b: real)
    requires 0.0 < a < b
    ensures 1.0 / b < 1.0 / a
  {
    assert (1.0 / a) * a == 1.0;
    assert (1.0 / b) * b == 1.0;
  }

  lemma DivAtMostOne(a: real)
    requires 1.0 <= a
    ensures 1.0 / a <= 1.0
  {
    if a > 1.0 {
      DivLess(1.0, a);
    }
  }

  lemma MulPos(a: real, b: real)
    requires a > 0.0 && b > 0.0
    ensures a * b > 0.0
  {
  }

  /** `normalizeScale(val)`: `val ** 2 + val + 1` above 0, `Math.exp(val)` otherwise. */
  function NormalizeScale(exp: real -> real, v: real): real
  {
    if v > 0.0 then v * v + v + 1.0 else exp(v)
  }

  /** The zoom factor is always positive, 1 at raw scale 0, above 1 for a positive raw scale and at most 1 otherwise. */
  lemma NormalizeScaleRange(exp: real -> real, v: real)
    requires ExpLike(exp)
    ensures NormalizeScale(exp, v) > 0.0
    ensures NormalizeScale(exp, 0.0) == 1.0
    ensures v > 0.0 ==> NormalizeScale(exp, v) > 1.0
    ensures v <= 0.0 ==> NormalizeScale(exp, v) <= 1.0
  {
    if v > 0.0 {
      MulPos(v, v);
    } else if v < 0.0 {
      assert exp(v) < exp(0.0);
    }
  }

  /** `normalizeScale` is strictly increasing on the whole line, across the seam at 0. */
  lemma NormalizeScaleIncreasing(exp: real -> real, u: real, v: real)
    requires ExpLike(exp) && u < v
    ensures NormalizeScale(exp, u) < NormalizeScale(exp, v)
  {
    if u > 0.0 {
      SquareLess(u, v);
      assert NormalizeScale(exp, u) == u * u + u + 1.0;
      assert NormalizeScale(exp, v) == v * v + v + 1.0;
    } else if v > 0.0 {
      NormalizeScaleRange(exp, u);
      NormalizeScaleRange(exp, v);
    }
  }

  lemma MulLessRight(a: real, b: real, c: real)
    requires a < b && c > 0.0
    ensures a * c < b * c
  {
    MulPos(b - a, c);
    assert (b - a) * c == b * c - a * c;
  }

  lemma SquareLess(u: real, v: real)
    requires 0.0 < u < v
    ensures u * u < v * v
  {
    MulLessRight(u, v, u);
    MulLessRight(u, v, v);
    assert u * v == v * u;
  }

  /** The gesture state: pan offset and raw scale. */
  datatype Pose = Pose(x: real, y: real, scale: real)

  datatype Canvas = Canvas(clientWidth: real, clientHeight: real)

  /** The fields of a wheel event that `handleGesture` reads. */
  datatype WheelEvent = WheelEvent(
    deltaX: real, deltaY: real, wheelDelta: real,
    ctrlKey: bool, altKey: bool,
    offsetX: real, offsetY: real)

  predicate ValidCanvas(c: Canvas)
  {
    c.clientWidth > 0.0 && c.clientHeight > 0.0
  }

  /** The wheel delta per unit of raw scale: finer with alt held. */
  function ZoomStep(altKey: bool): real
  {
    if altKey then 10000.0 else 4000.0
  }

  /** The cursor's horizontal position in device coordinates. */
  function MouseX(c: Canvas, e: WheelEvent): real
    requires ValidCanvas(c)
  {
    2.0 * e.offsetX / c.clientWidth - 1.0
  }

  /** The cursor's vertical position in device coordinates, upwards. */
  function MouseY(c: Canvas, e: WheelEvent): real
    requires ValidCanvas(c)
  {
    1.0 - 2.0 * e.offsetY / c.clientHeight
  }

  /** The pan for a wheel delta: the delta over the canvas size times the zoom factor. */
  function PanStep(delta: real, size: real, zoom: real): real
    requires size > 0.0 && zoom > 0.0
  {
    MulPos(size, zoom);
    delta / (size * zoom)
  }

  /** The raw scale after a zoom: the wheel delta over the step is added. */
  function Zoomed(scale: real, e: WheelEvent): real
  {
    scale + e.wheelDelta / ZoomStep(e.altKey)
  }

  /** `dS`: the relative change from the current to the target zoom factor. */
  function ZoomGap(target: real, current: real): real
    requires target > 0.0 && current > 0.0
  {
    MulPos(target, current);
    (target - current) / (target * current)
  }

  /** The state `handleGesture(canvas, state, event)` leaves behind. */
  function Step(exp: real -> real, c: Canvas, st: Pose, e: WheelEvent): Pose
    requires ExpLike(exp) && ValidCanvas(c)
  {
    var current := NormalizeScale(exp, st.scale);
    NormalizeScaleRange(exp, st.scale);
    if !e.ctrlKey then
      Pose(st.x - PanStep(e.deltaX, c.clientWidth, current),
           st.y + PanStep(e.deltaY, c.clientHeight, current),
           st.scale)
    else
      var scale := Zoomed(st.scale, e);
      var target := NormalizeScale(exp, scale);
      NormalizeScaleRange(exp, scale);
      var dS := ZoomGap(target, current);
      Pose(st.x - MouseX(c, e) * dS, st.y - MouseY(c, e) * dS, scale)
  }

  /** The object `handleGesture` updates in place. */
  class State {
    var x: real
    var y: real
    var scale: real

    function Value(): Pose
      reads this
    {
      Pose(x, y, scale)
    }

    /** The initial `{ x: 0, y: 0, scale: 0 }`. */
    constructor()
      ensures Value() == Pose(0.0, 0.0, 0.0)
    {
      x, y, scale := 0.0, 0.0, 0.0;
    }
  }

  /** `handleGesture`: pan without ctrl, zoom about the cursor with it. */
  method HandleGesture(c: Canvas, state: State, e: WheelEvent, exp: real -> real)
    requires ExpLike(exp) && ValidCanvas(c)
    modifies state
    ensures state.Value() == Step(exp, c, old(state.Value()), e)
  {
    var current := NormalizeScale(exp, state.scale);
    NormalizeScaleRange(exp, state.scale);
    if !e.ctrlKey {
      state.x := state.x - PanStep(e.deltaX, c.clientWidth, current);
      state.y := state.y + PanStep(e.deltaY, c.clientHeight, current);
    } else {
      var scale := Zoomed(state.scale, e);
      var target := NormalizeScale(exp, scale);
      NormalizeScaleRange(exp, scale);
      var mX := MouseX(c, e);
      var mY := MouseY(c, e);
      var dS := ZoomGap(target, current);
      state.scale := scale;
      state.x := state.x - mX * dS;
      state.y := state.y - mY * dS;
    }
  }

  lemma DivMul(a: real, b: real)
    requires b != 0.0
    ensures (a / b) * b == a
  {
  }

  /**
   * A pan keeps the scale, and the offset change times the canvas size
   * times the zoom factor is the wheel's delta.  When the scene is drawn at
   * (p + offset) * zoom, the drawn shift, in device units, is deltaX over
   * the canvas width (deltaY over its height, upwards), whatever the zoom.
   */
  lemma PanShift(exp: real -> real, c: Canvas, st: Pose, e: WheelEvent)
    requires ExpLike(exp) && ValidCanvas(c) && !e.ctrlKey
    ensures Step(exp, c, st, e).scale == st.scale
    ensures (st.x - Step(exp, c, st, e).x) * (c.clientWidth * NormalizeScale(exp, st.scale)) == e.deltaX
    ensures (Step(exp, c, st, e).y - st.y) * (c.clientHeight * NormalizeScale(exp, st.scale)) == e.deltaY
    ensures (st.x - Step(exp, c, st, e).x) * NormalizeScale(exp, st.scale) == e.deltaX / c.clientWidth
    ensures (Step(exp, c, st, e).y - st.y) * NormalizeScale(exp, st.scale) == e.deltaY / c.clientHeight
  {
    var s := NormalizeScale(exp, st.scale);
    NormalizeScaleRange(exp, st.scale);
    MulPos(c.clientWidth, s);
    MulPos(c.clientHeight, s);
    DivMul(e.deltaX, c.clientWidth * s);
    DivMul(e.deltaY, c.clientHeight * s);
    var r := Step(exp, c, st, e);
    PerSize(st.x - r.x, s, c.clientWidth, e.deltaX);
    PerSize(r.y - st.y, s, c.clientHeight, e.deltaY);
  }

  lemma PerSize(d: real, s: real, size: real, delta: real)
    requires size > 0.0 && d * (size * s) == delta
    ensures d * s == delta / size
  {
    assert (d * s) * size == delta;
    DivMul(d * s, size);
    MulCancel(d * s, delta / size, size);
  }

  /**
   * A zoom moves the raw scale by the wheel delta over 10000 with alt and
   * 4000 without; scrolling up zooms in and scrolling down zooms out.
   */
  lemma ZoomScale(exp: real -> real, c: Canvas, st: Pose, e: WheelEvent)
    requires ExpLike(exp) && ValidCanvas(c) && e.ctrlKey
    ensures e.altKey ==> Step(exp, c, st, e).scale == st.scale + e.wheelDelta / 10000.0
    ensures !e.altKey ==> Step(exp, c, st, e).scale == st.scale + e.wheelDelta / 4000.0
    ensures e.wheelDelta > 0.0 ==> NormalizeScale(exp, Step(exp, c, st, e).scale) > NormalizeScale(exp, st.scale)
    ensures e.wheelDelta < 0.0 ==> NormalizeScale(exp, Step(exp, c, st, e).scale) < NormalizeScale(exp, st.scale)
  {
    var r := Step(exp, c, st, e);
    if e.wheelDelta > 0.0 {
      NormalizeScaleIncreasing(exp, st.scale, r.scale);
    } else if e.wheelDelta < 0.0 {
      NormalizeScaleIncreasing(exp, r.scale, st.scale);
    }
  }

  lemma ReciprocalDifference(t: real, s: real)
    requires t > 0.0 && s > 0.0
    ensures (t - s) / (t * s) == 1.0 / s - 1.0 / t
  {
    MulPos(t, s);
    assert (1.0 / s - 1.0 / t) * (t * s) == t - s by {
      assert (1.0 / s) * (t * s) == t * ((1.0 / s) * s);
      assert (1.0 / t) * (t * s) == s * ((1.0 / t) * t);
    }
    DivMul(t - s, t * s);
    MulCancel((t - s) / (t * s), 1.0 / s - 1.0 / t, t * s);
  }

  lemma MulCancel(a: real, b: real, k: real)
    requires k != 0.0 && a * k == b * k
    ensures a == b
  {
    assert (a - b) * k == 0.0;
  }

  /**
   * A zoom shifts the offset by the cursor position times the change in
   * inverse zoom factor: `dS` is 1/current - 1/target.
   */
  lemma ZoomShift(exp: real -> real, c: Canvas, st: Pose, e: WheelEvent)
    requires ExpLike(exp) && ValidCanvas(c) && e.ctrlKey
    ensures var r := Step(exp, c, st, e);
      var dS := 1.0 / NormalizeScale(exp, st.scale) - 1.0 / NormalizeScale(exp, r.scale);
      && r.x == st.x - MouseX(c, e) * dS
      && r.y == st.y - MouseY(c, e) * dS
  {
    var r := Step(exp, c, st, e);
    NormalizeScaleRange(exp, st.scale);
    NormalizeScaleRange(exp, r.scale);
    ReciprocalDifference(NormalizeScale(exp, r.scale), NormalizeScale(exp, st.scale));
  }

  /**
   * Zooming keeps the point under the cursor still.  When a point p of the
   * scene is drawn at (p + offset) * zoom, the point drawn under the cursor
   * before the zoom is drawn under it again afterwards.
   */
  lemma ZoomAnchorsCursor(exp: real -> real, c: Canvas, st: Pose, e: WheelEvent)
    requires ExpLike(exp) && ValidCanvas(c) && e.ctrlKey
    ensures var r := Step(exp, c, st, e);
      var before := NormalizeScale(exp, st.scale);
      var after := NormalizeScale(exp, r.scale);
      && (MouseX(c, e) / before - st.x + r.x) * after == MouseX(c, e)
      && (MouseY(c, e) / before - st.y + r.y) * after == MouseY(c, e)
  {
    var r := Step(exp, c, st, e);
    NormalizeScaleRange(exp, st.scale);
    NormalizeScaleRange(exp, r.scale);
    ZoomShift(exp, c, st, e);
    AnchorPair(MouseX(c, e), MouseY(c, e), NormalizeScale(exp, st.scale), NormalizeScale(exp, r.scale),
               st.x, st.y, r.x, r.y);
  }

  lemma AnchorPair(mX: real, mY: real, before: real, after: real, x: real, y: real, x': real, y': real)
    requires before > 0.0 && after > 0.0
    requires x' == x - mX * (1.0 / before - 1.0 / after)
    requires y' == y - mY * (1.0 / before - 1.0 / after)
    ensures (mX / before - x + x') * after == mX
    ensures (mY / before - y + y') * after == mY
  {
    AnchorAlgebra(mX, before, after, x, x');
    AnchorAlgebra(mY, before, after, y, y');
  }

  lemma AnchorAlgebra(m: real, before: real, after: real, x: real, x': real)
    requires before > 0.0 && after > 0.0
    requires x' == x - m * (1.0 / before - 1.0 / after)
    ensures (m / before - x + x') * after == m
  {
    assert m / before == m * (1.0 / before);
    assert m / before - x + x' == m * (1.0 / after);
    assert (1.0 / after) * after == 1.0;
  }

  /** A zoom with no wheel movement, or one at the centre of the canvas, leaves the offset alone. */
  lemma ZoomStill(exp: real -> real, c: Canvas, st: Pose, e: WheelEvent)
    requires ExpLike(exp) && ValidCanvas(c) && e.ctrlKey
    ensures e.wheelDelta == 0.0 ==> Step(exp, c, st, e) == st
    ensures MouseX(c, e) == 0.0 && MouseY(c, e) == 0.0 ==>
      Step(exp, c, st, e).x == st.x && Step(exp, c, st, e).y == st.y
  {
  }

  /** The cursor on the canvas lies in [-1, 1] on both axes, the centre at 0. */
  lemma MouseBounds(c: Canvas, e: WheelEvent)
    requires ValidCanvas(c)
    ensures 0.0 <= e.offsetX <= c.clientWidth ==> -1.0 <= MouseX(c, e) <= 1.0
    ensures 0.0 <= e.offsetY <= c.clientHeight ==> -1.0 <= MouseY(c, e) <= 1.0
    ensures 2.0 * e.offsetX == c.clientWidth ==> MouseX(c, e) == 0.0
    ensures 2.0 * e.offsetY == c.clientHeight ==> MouseY(c, e) == 0.0
  {
    if 0.0 <= e.offsetX <= c.clientWidth {
      DivBetween(2.0 * e.offsetX, c.clientWidth);
    }
    if 0.0 <= e.offsetY <= c.clientHeight {
      DivBetween(2.0 * e.offsetY, c.clientHeight);
    }
    DivSelf(c.clientWidth);
    DivSelf(c.clientHeight);
  }

  lemma DivSelf(w: real)
    requires w > 0.0
    ensures w / w == 1.0
  {
  }

  lemma DivBetween(a: real, w: real)
    requires w > 0.0 && 0.0 <= a <= 2.0 * w
    ensures 0.0 <= a / w <= 2.0
  {
    assert (a / w) * w == a;
  }
}
