/** The pressure curve of a run manifest: its validation, and the scan that interpolates it. Floats are reals. */
module PressureCurve {

  datatype Point = Point(offsetSec: nat, pressure: real)

  function Clamp(x: real, lo: real, hi: real): real
    requires lo <= hi
  {
    if x < lo then lo else if x > hi then hi else x
  }

  function Unit(x: real): real
  {
    Clamp(x, 0.0, 1.0)
  }

  predicate Increasing(points: seq<Point>)
  {
    forall i, j :: 0 <= i < j < |points| ==> points[i].offsetSec < points[j].offsetSec
  }

  predicate ValidCurve(points: seq<Point>)
  {
    |points| >= 2 && Increasing(points)
  }

  /** The curve part of RunManifest::validate, which only compares neighbours. */
  method ValidateCurve(points: seq<Point>) returns (ok: bool)
    ensures ok <==> ValidCurve(points)
  {
    if |points| < 2 {
      return false;
    }
    var previous: int := -1;
    for i := 0 to |points|
      invariant Increasing(points[..i])
      invariant if i == 0 then previous == -1 else previous == points[i - 1].offsetSec
    {
      if points[i].offsetSec <= previous {
        return false;
      }
      previous := points[i].offsetSec;
    }
    assert points[..|points|] == points;
    return true;
  }

  // ---------------------------------------------------------------- the scan

  /** One window of the scan, with the floor on the span and the clamps as written. */
  function Window(left: Point, right: Point, x: real): real
  {
    var width := right.offsetSec as real - left.offsetSec as real;
    var span := if width > 1.0 then width else 1.0;
    var t := Unit((x - left.offsetSec as real) / span);
    Unit(left.pressure + (right.pressure - left.pressure) * t)
  }

  function ScanFrom(points: seq<Point>, i: nat, x: real): real
    requires i < |points|
    decreases |points| - i
  {
    if i + 1 == |points| then Unit(points[i].pressure)
    else if x <= points[i + 1].offsetSec as real then Window(points[i], points[i + 1], x)
    else ScanFrom(points, i + 1, x)
  }

  /** Randomization::pressure_at. */
  function PressureAt(points: seq<Point>, offsetSec: real): real
  {
    if points == [] then 0.0
    else
      var x := if offsetSec > 0.0 then offsetSec else 0.0;
      if x <= points[0].offsetSec as real then Unit(points[0].pressure) else ScanFrom(points, 0, x)
  }

  /** The same as a loop over windows with an early return, as the source writes it. */
  method ScanPressure(points: seq<Point>, offsetSec: real) returns (pressure: real)
    ensures pressure == PressureAt(points, offsetSec)
  {
    if points == [] {
      return 0.0;
    }
    var x := if offsetSec > 0.0 then offsetSec else 0.0;
    if x <= points[0].offsetSec as real {
      return Unit(points[0].pressure);
    }
    for i := 0 to |points| - 1
      invariant ScanFrom(points, i, x) == ScanFrom(points, 0, x)
    {
      if x <= points[i + 1].offsetSec as real {
        return Window(points[i], points[i + 1], x);
      }
    }
    return Unit(points[|points| - 1].pressure);
  }

  // ---------------------------------------------------------------- what the scan computes

  /** The straight line through two control points. */
  function Line(left: Point, right: Point, x: real): real
    requires left.offsetSec < right.offsetSec
  {
    left.pressure
    + (right.pressure - left.pressure)
      * ((x - left.offsetSec as real) / (right.offsetSec as real - left.offsetSec as real))
  }

  lemma FractionBounds(a: real, b: real)
    requires 0.0 <= a <= b && b > 0.0
    ensures 0.0 <= a / b <= 1.0
    ensures a == b ==> a / b == 1.0
    ensures a == 0.0 ==> a / b == 0.0
  {
  }

  /** Neither the floor on the span nor the clamp on the fraction ever takes effect on a validated window. */
  lemma WindowIsLine(left: Point, right: Point, x: real)
    requires left.offsetSec < right.offsetSec
    requires left.offsetSec as real <= x <= right.offsetSec as real
    ensures Window(left, right, x) == Unit(Line(left, right, x))
    ensures x == left.offsetSec as real ==> Line(left, right, x) == left.pressure
    ensures x == right.offsetSec as real ==> Line(left, right, x) == right.pressure
  {
    assert left.offsetSec + 1 <= right.offsetSec;
    assert left.offsetSec as real + 1.0 <= right.offsetSec as real;
    FractionBounds(x - left.offsetSec as real, right.offsetSec as real - left.offsetSec as real);
  }

  lemma {:induction false} ScanReaches(points: seq<Point>, i: nat, k: nat, x: real)
    requires ValidCurve(points) && i <= k < |points| - 1
    requires points[k].offsetSec as real < x <= points[k + 1].offsetSec as real
    ensures ScanFrom(points, i, x) == Window(points[k], points[k + 1], x)
    decreases k - i
  {
    if i < k {
      assert points[i + 1].offsetSec <= points[k].offsetSec;
      ScanReaches(points, i + 1, k, x);
    }
  }

  lemma {:induction false} ScanRunsOut(points: seq<Point>, i: nat, x: real)
    requires ValidCurve(points) && i < |points| && points[|points| - 1].offsetSec as real < x
    ensures ScanFrom(points, i, x) == Unit(points[|points| - 1].pressure)
    decreases |points| - i
  {
    if i + 1 < |points| {
      assert points[i + 1].offsetSec <= points[|points| - 1].offsetSec;
      ScanRunsOut(points, i + 1, x);
    }
  }

  /**
   pressure_at on a validated curve is the clamp to [0, 1] of the piecewise-linear interpolant: the
   line of the segment an offset lies in (either one, at a control point), and constant outside.
   */
  lemma PressureAtInterpolates(points: seq<Point>, x: real)
    requires ValidCurve(points)
    ensures forall k :: 0 <= k < |points| - 1 && points[k].offsetSec as real <= x <= points[k + 1].offsetSec as real
              ==> PressureAt(points, x) == Unit(Line(points[k], points[k + 1], x))
    ensures forall k :: 0 <= k < |points| && x == points[k].offsetSec as real ==>
      PressureAt(points, x) == Unit(points[k].pressure)
    ensures x <= points[0].offsetSec as real ==> PressureAt(points, x) == Unit(points[0].pressure)
    ensures x >= points[|points| - 1].offsetSec as real ==> PressureAt(points, x) == Unit(points[|points| - 1].pressure)
  {
    var last := |points| - 1;
    forall k | 0 <= k < last && points[k].offsetSec as real <= x <= points[k + 1].offsetSec as real
      ensures PressureAt(points, x) == Unit(Line(points[k], points[k + 1], x))
      ensures x == points[k].offsetSec as real ==> PressureAt(points, x) == Unit(points[k].pressure)
      ensures x == points[k + 1].offsetSec as real ==> PressureAt(points, x) == Unit(points[k + 1].pressure)
    {
      SegmentValue(points, k, x);
    }
    forall k | 0 <= k < |points| && x == points[k].offsetSec as real
      ensures PressureAt(points, x) == Unit(points[k].pressure)
    {
      if k < last {
        assert points[k].offsetSec < points[k + 1].offsetSec;
        SegmentValue(points, k, x);
      } else {
        assert points[last - 1].offsetSec < points[last].offsetSec;
        SegmentValue(points, last - 1, x);
      }
    }
    if x > points[last].offsetSec as real {
      assert points[0].offsetSec < points[last].offsetSec;
      ScanRunsOut(points, 0, x);
    }
  }

  lemma SegmentValue(points: seq<Point>, k: nat, x: real)
    requires ValidCurve(points) && k < |points| - 1
    requires points[k].offsetSec as real <= x <= points[k + 1].offsetSec as real
    ensures PressureAt(points, x) == Unit(Line(points[k], points[k + 1], x))
    ensures x == points[k].offsetSec as real ==> PressureAt(points, x) == Unit(points[k].pressure)
    ensures x == points[k + 1].offsetSec as real ==> PressureAt(points, x) == Unit(points[k + 1].pressure)
  {
    WindowIsLine(points[k], points[k + 1], x);
    if x > points[k].offsetSec as real {
      assert k > 0 ==> points[0].offsetSec < points[k].offsetSec;
      ScanReaches(points, 0, k, x);
    } else if k > 0 {
      assert points[0].offsetSec < points[k].offsetSec;
      assert points[k - 1].offsetSec < points[k].offsetSec;
      WindowIsLine(points[k - 1], points[k], x);
      ScanReaches(points, 0, k - 1, x);
    }
  }

  // ---------------------------------------------------------------- monotonicity

  predicate Ascending(points: seq<Point>)
  {
    forall i, j :: 0 <= i <= j < |points| ==> points[i].pressure <= points[j].pressure
  }

  lemma ProductMonotone(rise: real, p: real, q: real)
    requires rise >= 0.0 && p <= q
    ensures rise * p <= rise * q
  {
    assert rise * (q - p) >= 0.0;
    assert rise * q == rise * p + rise * (q - p);
  }

  /** A point further along a rising line is no lower. */
  lemma Rising(base: real, rise: real, p: real, q: real)
    requires rise >= 0.0 && 0.0 <= p <= q <= 1.0
    ensures base <= base + rise * p <= base + rise * q <= base + rise
  {
    ProductMonotone(rise, 0.0, p);
    ProductMonotone(rise, p, q);
    ProductMonotone(rise, q, 1.0);
  }

  lemma FractionsAscend(a: real, b: real, width: real)
    requires 0.0 <= a <= b <= width && width > 0.0
    ensures 0.0 <= a / width <= b / width <= 1.0
  {
    FractionBounds(a, width);
    FractionBounds(b, width);
    assert b / width - a / width == (b - a) / width >= 0.0;
  }

  lemma LineMonotone(left: Point, right: Point, x: real, y: real)
    requires left.offsetSec < right.offsetSec && left.pressure <= right.pressure
    requires left.offsetSec as real <= x <= y <= right.offsetSec as real
    ensures left.pressure <= Line(left, right, x) <= Line(left, right, y) <= right.pressure
  {
    var a, b := left.offsetSec as real, right.offsetSec as real;
    FractionsAscend(x - a, y - a, b - a);
    Rising(left.pressure, right.pressure - left.pressure, (x - a) / (b - a), (y - a) / (b - a));
  }

  /** Which piece of the curve an offset beyond the first point and up to the last lies in. */
  lemma {:induction false} FindSegment(points: seq<Point>, x: real, n: nat) returns (k: nat)
    requires ValidCurve(points) && 1 <= n < |points|
    requires points[0].offsetSec as real <= x <= points[n].offsetSec as real
    ensures k < n && points[k].offsetSec as real <= x <= points[k + 1].offsetSec as real
    decreases n
  {
    if n == 1 || points[n - 1].offsetSec as real <= x {
      k := n - 1;
    } else {
      k := FindSegment(points, x, n - 1);
    }
  }

  /** A later offset never has a lower pressure when the control points ascend. */
  lemma PressureAtMonotone(points: seq<Point>, x: real, y: real)
    requires ValidCurve(points) && Ascending(points) && x <= y
    ensures PressureAt(points, x) <= PressureAt(points, y)
  {
    var last := |points| - 1;
    PressureAtInterpolates(points, x);
    PressureAtInterpolates(points, y);
    assert points[0].pressure <= points[last].pressure;
    if x <= points[0].offsetSec as real {
      if y < points[last].offsetSec as real && y > points[0].offsetSec as real {
        var k := FindSegment(points, y, last);
        assert points[k].offsetSec < points[k + 1].offsetSec
          && points[0].pressure <= points[k].pressure <= points[k + 1].pressure;
        LineMonotone(points[k], points[k + 1], y, y);
      }
    } else if x < points[last].offsetSec as real {
      var i := FindSegment(points, x, last);
      assert points[i].offsetSec < points[i + 1].offsetSec
        && points[i].pressure <= points[i + 1].pressure <= points[last].pressure;
      LineMonotone(points[i], points[i + 1], x, x);
      if y < points[last].offsetSec as real {
        var k := FindSegment(points, y, last);
        assert points[k].offsetSec < points[k + 1].offsetSec && points[k].pressure <= points[k + 1].pressure;
        LineMonotone(points[k], points[k + 1], y, y);
        if i == k {
          LineMonotone(points[i], points[i + 1], x, y);
        } else if i < k {
          assert points[i + 1].pressure <= points[k].pressure;
        } else {
          assert points[k + 1].offsetSec <= points[i].offsetSec;
        }
      }
    }
  }
}
