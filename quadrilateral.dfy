/**
 * The reference quadrilateral and its orientation-adjusted copy
 * (`get_default_points` and `get_imu_points` in imuSimulator.py).
 * Angles are exact reals; Python's `int()` on the shifted coordinates is
 * truncation toward zero.
 */
module Quadrilateral {
  import opened Telemetry

  datatype Point = Point(x: int, y: int)

  /** Four corners in image pixels; `Corners()` is the list order the program passes around. */
  datatype Quad = Quad(topLeft: Point, bottomLeft: Point, topRight: Point, bottomRight: Point) {
    function Corners(): seq<Point> {
      [topLeft, bottomLeft, topRight, bottomRight]
    }
  }

  /** `n` is `x` truncated toward zero, as Python's `int(x)` computes it. */
  predicate TruncatesTo(x: real, n: int) {
    if x >= 0.0 then n as real <= x < n as real + 1.0
    else n as real - 1.0 < x <= n as real
  }

  /** Python's `int()` on a number: truncation toward zero. */
  function Trunc(x: real): (n: int)
    ensures TruncatesTo(x, n)
  {
    if x >= 0.0 then x.Floor else -((-x).Floor)
  }

  /** Truncation is determined by its defining bounds. */
  lemma TruncUnique(x: real, n: int, m: int)
    requires TruncatesTo(x, n) && TruncatesTo(x, m)
    ensures n == m
  {
  }

  lemma TruncOfInteger(n: int)
    ensures Trunc(n as real) == n
  {
    TruncUnique(n as real, n, Trunc(n as real));
  }

  lemma TruncMonotone(x: real, y: real)
    requires x <= y
    ensures Trunc(x) <= Trunc(y)
  {
  }

  /** The reference region (imuSimulator.py:241-246): a trapezoid, narrower at the top, inside the 800x600 frame. */
  function DefaultPoints(): (q: Quad)
    ensures q.topLeft.y == q.topRight.y < q.bottomLeft.y == q.bottomRight.y
    ensures q.bottomLeft.x < q.topLeft.x < q.topRight.x < q.bottomRight.x
    ensures forall p :: p in q.Corners() ==> 0 <= p.x <= 800 && 0 <= p.y <= 600
  {
    Quad(Point(250, 334), Point(0, 500), Point(570, 334), Point(800, 500))
  }

  /** Per-axis difference between the current orientation and the zero reference. */
  function Delta(current: Angles, zero: Angles): (d: Angles)
    ensures forall k :: 0 <= k < 3 ==> d.Axis(k) + zero.Axis(k) == current.Axis(k)
  {
    Angles(current.roll - zero.roll, current.pitch - zero.pitch, current.yaw - zero.yaw)
  }

  /** `roll_adjustment + yaw_adjustment`: how far each top corner moves outward horizontally. */
  function HorizontalShift(ratio: real, current: Angles, zero: Angles): real {
    Delta(current, zero).roll * ratio + Delta(current, zero).yaw * ratio
  }

  /** `pitch_adjustment`: how far both top corners move up. */
  function VerticalShift(ratio: real, current: Angles, zero: Angles): real {
    Delta(current, zero).pitch * ratio
  }

  /** `int()` applied to both coordinates of a point. */
  function TruncPoint(x: real, y: real): Point {
    Point(Trunc(x), Trunc(y))
  }

  /**
   * `get_imu_points`: top-left moves left and top-right moves right by the
   * horizontal shift, both move up by the vertical shift, the bottom corners
   * stay, and every coordinate is truncated toward zero.  Nothing is clamped.
   */
  function ImuPoints(q: Quad, ratio: real, current: Angles, zero: Angles): (r: Quad)
    ensures r.bottomLeft == q.bottomLeft && r.bottomRight == q.bottomRight
    ensures TruncatesTo(q.topLeft.x as real - HorizontalShift(ratio, current, zero), r.topLeft.x)
    ensures TruncatesTo(q.topRight.x as real + HorizontalShift(ratio, current, zero), r.topRight.x)
    ensures TruncatesTo(q.topLeft.y as real - VerticalShift(ratio, current, zero), r.topLeft.y)
    ensures TruncatesTo(q.topRight.y as real - VerticalShift(ratio, current, zero), r.topRight.y)
  {
    var h := HorizontalShift(ratio, current, zero);
    var v := VerticalShift(ratio, current, zero);
    TruncOfInteger(q.bottomLeft.x);
    TruncOfInteger(q.bottomLeft.y);
    TruncOfInteger(q.bottomRight.x);
    TruncOfInteger(q.bottomRight.y);
    Quad(TruncPoint(q.topLeft.x as real - h, q.topLeft.y as real - v),
         TruncPoint(q.bottomLeft.x as real, q.bottomLeft.y as real),
         TruncPoint(q.topRight.x as real + h, q.topRight.y as real - v),
         TruncPoint(q.bottomRight.x as real, q.bottomRight.y as real))
  }

  /** Whole-pixel shifts move the top corners by exactly that many pixels. */
  lemma IntegerShift(q: Quad, ratio: real, current: Angles, zero: Angles, h: int, v: int)
    requires HorizontalShift(ratio, current, zero) == h as real
    requires VerticalShift(ratio, current, zero) == v as real
    ensures ImuPoints(q, ratio, current, zero) ==
      Quad(Point(q.topLeft.x - h, q.topLeft.y - v), q.bottomLeft,
           Point(q.topRight.x + h, q.topRight.y - v), q.bottomRight)
  {
    var r := ImuPoints(q, ratio, current, zero);
    TruncUnique(q.topLeft.x as real - h as real, r.topLeft.x, q.topLeft.x - h);
    TruncUnique(q.topRight.x as real + h as real, r.topRight.x, q.topRight.x + h);
    TruncUnique(q.topLeft.y as real - v as real, r.topLeft.y, q.topLeft.y - v);
    TruncUnique(q.topRight.y as real - v as real, r.topRight.y, q.topRight.y - v);
  }

  /** With the current orientation equal to the zero reference, the quadrilateral is returned unchanged. */
  lemma ZeroDeltaIdentity(q: Quad, ratio: real, a: Angles)
    ensures ImuPoints(q, ratio, a, a) == q
  {
    IntegerShift(q, ratio, a, a, 0, 0);
  }

  /** A roll of +10 degrees over the zero reference at ratio 1 moves top-left 10 pixels left and top-right 10 right. */
  lemma RollTenExample(zero: Angles)
    ensures ImuPoints(DefaultPoints(), 1.0, Angles(zero.roll + 10.0, zero.pitch, zero.yaw), zero) ==
      Quad(Point(240, 334), Point(0, 500), Point(580, 334), Point(800, 500))
  {
    IntegerShift(DefaultPoints(), 1.0, Angles(zero.roll + 10.0, zero.pitch, zero.yaw), zero, 10, 0);
  }

  /**
   * A non-negative horizontal shift never narrows the top edge and a
   * non-positive one never widens it; the bottom edge is untouched.
   */
  lemma TopEdgeWidth(q: Quad, ratio: real, current: Angles, zero: Angles)
    ensures var r := ImuPoints(q, ratio, current, zero);
      && (HorizontalShift(ratio, current, zero) >= 0.0 ==>
            r.topLeft.x <= q.topLeft.x && q.topRight.x <= r.topRight.x)
      && (HorizontalShift(ratio, current, zero) <= 0.0 ==>
            q.topLeft.x <= r.topLeft.x && r.topRight.x <= q.topRight.x)
  {
    var h := HorizontalShift(ratio, current, zero);
    TruncOfInteger(q.topLeft.x);
    TruncOfInteger(q.topRight.x);
    if h >= 0.0 {
      TruncMonotone(q.topLeft.x as real - h, q.topLeft.x as real);
      TruncMonotone(q.topRight.x as real, q.topRight.x as real + h);
    } else {
      TruncMonotone(q.topLeft.x as real, q.topLeft.x as real - h);
      TruncMonotone(q.topRight.x as real + h, q.topRight.x as real);
    }
  }

  /**
   * Truncation toward zero treats the two top corners differently under a
   * fractional shift: in the positive quadrant a shift strictly between 0
   * and 1 pixel moves top-left a whole pixel and leaves top-right in place.
   */
  lemma FractionalShiftAsymmetric(q: Quad, ratio: real, current: Angles, zero: Angles)
    requires 0.0 < HorizontalShift(ratio, current, zero) < 1.0
    requires q.topLeft.x >= 1 && q.topRight.x >= 0
    ensures ImuPoints(q, ratio, current, zero).topLeft.x == q.topLeft.x - 1
    ensures ImuPoints(q, ratio, current, zero).topRight.x == q.topRight.x
  {
    var h := HorizontalShift(ratio, current, zero);
    var r := ImuPoints(q, ratio, current, zero);
    TruncUnique(q.topLeft.x as real - h, r.topLeft.x, q.topLeft.x - 1);
    TruncUnique(q.topRight.x as real + h, r.topRight.x, q.topRight.x);
  }

  /** No clamping: a large enough roll pushes top-left outside the frame. */
  lemma NoClamping()
    ensures ImuPoints(DefaultPoints(), 1.0, Angles(300.0, 0.0, 0.0), Angles(0.0, 0.0, 0.0)).topLeft.x == -50
  {
    IntegerShift(DefaultPoints(), 1.0, Angles(300.0, 0.0, 0.0), Angles(0.0, 0.0, 0.0), 300, 0);
  }
}
