/**
 * The straight-line waypoint generator `RobotPath.calculate_path`: from a start
 * point, an end point and a step distance it lists the start, the points every
 * `step` along the segment from start to end, and then the end itself when the
 * last of those points fell short of it.
 *
 * Coordinates are exact reals, so the model ignores floating-point rounding.
 * Dafny has no square root: the length of the segment, which the source
 * computes with `math.sqrt`, is passed in as `total`, constrained by
 * `IsLength` to be the non-negative root of the squared length.
 */
module Zigzag {
  import opened Wrappers
  import opened Squares

  /** A point of the plane, Python's `(x, y)` tuple. */
  datatype Point2 = Point2(x: real, y: real)

  /** What `calculate_path` raises: `total_distance / step` with a zero step. */
  datatype PathError = ZeroDivision

  /** The squared Euclidean distance between two points, `dx**2 + dy**2`. */
  function Dist2(p: Point2, q: Point2): real {
    Sq(q.x - p.x) + Sq(q.y - p.y)
  }

  /** `total` is `math.sqrt(dx**2 + dy**2)` for the segment from `start` to `end`. */
  predicate IsLength(start: Point2, end: Point2, total: real) {
    total >= 0.0 && Sq(total) == Dist2(start, end)
  }

  /** The point at parameter `t` of the segment from `a` to `b` (t = 0 at `a`, t = 1 at `b`). */
  function Lerp(a: Point2, b: Point2, t: real): Point2 {
    Point2(a.x + t * (b.x - a.x), a.y + t * (b.y - a.y))
  }

  /** Python's `int()` applied to a float: truncation toward zero. */
  function Trunc(q: real): (n: int)
    ensures 0.0 <= q ==> 0 <= n && n as real <= q < n as real + 1.0
    ensures q < 0.0 ==> n <= 0 && n as real - 1.0 < q <= n as real
  {
    if q >= 0.0 then q.Floor else -((-q).Floor)
  }

  /** `num_steps = int(total_distance / step)`. */
  function NumSteps(total: real, step: real): int
    requires step != 0.0
  {
    Trunc(total / step)
  }

  /** The point `start + u * d` for the direction `u = (ux, uy)`. */
  function Waypoint(start: Point2, ux: real, uy: real, d: real): Point2 {
    Point2(start.x + ux * d, start.y + uy * d)
  }

  /** The intermediate points number 1 to `k`, in order. */
  function Intermediates(start: Point2, ux: real, uy: real, step: real, k: nat): (ps: seq<Point2>)
    ensures |ps| == k
  {
    if k == 0 then []
    else Intermediates(start, ux, uy, step, k - 1) + [Waypoint(start, ux, uy, k as real * step)]
  }

  /** Intermediate point number `j` is at distance `j * step` from `start`. */
  lemma {:induction false} IntermediatesAt(start: Point2, ux: real, uy: real, step: real, k: nat, j: int)
    requires 1 <= j <= k
    ensures Intermediates(start, ux, uy, step, k)[j - 1] == Waypoint(start, ux, uy, j as real * step)
  {
    var prev := Intermediates(start, ux, uy, step, k - 1);
    assert Intermediates(start, ux, uy, step, k) == prev + [Waypoint(start, ux, uy, k as real * step)];
    if j < k {
      IntermediatesAt(start, ux, uy, step, k - 1, j);
      assert Intermediates(start, ux, uy, step, k)[j - 1] == prev[j - 1];
    }
  }

  /** One more intermediate point extends the list by the point one step further on. */
  lemma IntermediatesNext(start: Point2, ux: real, uy: real, step: real, k: nat)
    requires k >= 1
    ensures Intermediates(start, ux, uy, step, k)
         == Intermediates(start, ux, uy, step, k - 1) + [Waypoint(start, ux, uy, k as real * step)]
  {
  }

  /** The list `calculate_path` returns for a non-zero step. */
  function StraightPath(start: Point2, end: Point2, step: real, total: real): seq<Point2>
    requires step != 0.0
  {
    if total > 0.0 then
      var n := NumSteps(total, step);
      var ux, uy := (end.x - start.x) / total, (end.y - start.y) / total;
      [start] + Intermediates(start, ux, uy, step, if n > 0 then n else 0)
        + (if n as real * step < total then [end] else [])
    else
      [start]
  }

  /** `StraightPath` for a segment of positive length, with `num_steps` written out. */
  lemma StraightPathUnfold(start: Point2, end: Point2, step: real, total: real)
    requires step != 0.0 && total > 0.0
    ensures var n, ux, uy := Trunc(total / step), (end.x - start.x) / total, (end.y - start.y) / total;
      StraightPath(start, end, step, total)
        == [start] + Intermediates(start, ux, uy, step, if n > 0 then n else 0)
           + (if n as real * step < total then [end] else [])
  {
  }

  /** `RobotPath`: the last computed path is kept in `points`. */
  class RobotPath {
    var points: seq<Point2>

    constructor ()
      ensures points == []
    {
      points := [];
    }

    /**
     * Recomputes `points` from scratch and returns it. A zero step raises
     * after `points` has been emptied; the model returns that as a failure.
     */
    method CalculatePath(start: Point2, end: Point2, step: real, total: real)
      returns (r: Result<seq<Point2>, PathError>)
      requires IsLength(start, end, total)
      modifies this
      ensures step == 0.0 ==> r == Failure(ZeroDivision) && points == []
      ensures step != 0.0 ==> r == Success(points) && points == StraightPath(start, end, step, total)
    {
      points := [];
      var dx := end.x - start.x;
      var dy := end.y - start.y;
      if step == 0.0 {
        return Failure(ZeroDivision);
      }
      var numSteps := Trunc(total / step);
      if !(total > 0.0) {
        // start and end are the same point
        points := points + [start];
        return Success(points);
      }
      var ux := dx / total;
      var uy := dy / total;
      points := points + [start];
      var i := 1;
      while i <= numSteps
        invariant 1 <= i <= if numSteps > 0 then numSteps + 1 else 1
        invariant points == [start] + Intermediates(start, ux, uy, step, i - 1)
      {
        var distance := i as real * step;
        IntermediatesNext(start, ux, uy, step, i);
        points := points + [Waypoint(start, ux, uy, distance)];
        i := i + 1;
      }
      StraightPathUnfold(start, end, step, total);
      if numSteps as real * step < total {
        points := points + [end];
      }
      return Success(points);
    }
  }

  // ---------------------------------------------------------------------------
  // Arithmetic facts the path lemmas rest on. The nonlinear steps are kept in
  // lemmas over plain variables, each stating one ring identity or sign fact.
  // ---------------------------------------------------------------------------

  lemma MulMonotone(a: real, b: real, c: real)
    requires a <= b && c >= 0.0
    ensures a * c <= b * c
  {
    assert b * c - a * c == (b - a) * c;
  }

  lemma MulStrictMonotone(a: real, b: real, c: real)
    requires a < b && c > 0.0
    ensures a * c < b * c
  {
    assert b * c - a * c == (b - a) * c;
  }

  lemma DivSwap(d: real, e: real, t: real)
    requires t > 0.0
    ensures (d / t) * e == (e / t) * d
  {
  }

  lemma DivMul(d: real, t: real)
    requires t > 0.0
    ensures (d / t) * t == d
  {
  }

  lemma SqDivMul(d: real, t: real)
    requires t > 0.0
    ensures Sq(d / t) * Sq(t) == Sq(d)
  {
    var u := d / t;
    assert u * t == d;
    assert (u * u) * (t * t) == (u * t) * (u * t);
  }

  lemma ShiftEqual(s: real, a: real, b: real)
    requires a == b
    ensures s + a == s + b
  {
  }

  lemma DivGap(d: real, t: real, a: real, b: real)
    requires t > 0.0
    ensures (d / t) * b - (d / t) * a == d * ((b - a) / t)
  {
  }

  lemma DistOfScaled(p: Point2, q: Point2, dx: real, dy: real, k: real)
    requires q.x - p.x == dx * k && q.y - p.y == dy * k
    ensures Dist2(p, q) == Sq(k) * (Sq(dx) + Sq(dy))
  {
  }

  lemma ScaleEqual(k: real, d: real, e: real)
    requires d == e
    ensures k * d == k * e
  {
  }

  lemma NextStep(i: int, step: real)
    ensures (i + 1) as real * step == i as real * step + step
  {
  }

  lemma FloorBelow(total: real, step: real)
    requires step > 0.0 && total >= 0.0
    ensures (total / step).Floor as real * step <= total
  {
    var q := total / step;
    assert q * step == total;
    MulMonotone(q.Floor as real, q, step);
  }

  lemma FloorAbove(total: real, step: real)
    requires step > 0.0 && total >= 0.0
    ensures total < ((total / step).Floor + 1) as real * step
  {
    var q := total / step;
    assert q * step == total;
    MulStrictMonotone(q, (q.Floor + 1) as real, step);
  }

  /** For a positive step, `num_steps` is the number of whole steps that fit in `total`. */
  lemma NumStepsBounds(total: real, step: real)
    requires step > 0.0 && total >= 0.0
    ensures 0 <= NumSteps(total, step)
    ensures NumSteps(total, step) as real * step <= total < (NumSteps(total, step) + 1) as real * step
  {
    assert total / step >= 0.0;
    assert NumSteps(total, step) == (total / step).Floor;
    FloorBelow(total, step);
    FloorAbove(total, step);
  }

  /** At least one whole step fits in `total`: the segment is not empty. */
  lemma SomeStepMeansPositiveLength(total: real, step: real)
    requires step > 0.0 && total >= 0.0 && NumSteps(total, step) >= 1
    ensures total > 0.0
  {
    NumStepsBounds(total, step);
    MulMonotone(1.0, NumSteps(total, step) as real, step);
  }

  /** A zero length means the same point. */
  lemma ZeroLengthSamePoint(start: Point2, end: Point2, total: real)
    requires IsLength(start, end, total) && total == 0.0
    ensures end == start
  {
    SquareNonNegative(end.x - start.x);
    SquareNonNegative(end.y - start.y);
    if end.x != start.x {
      SquarePositive(end.x - start.x);
    }
    if end.y != start.y {
      SquarePositive(end.y - start.y);
    }
  }

  /** Moving from distance `a` to `b` along `(dx, dy) / t` moves by `(dx, dy)` scaled by `(b - a) / t`. */
  lemma WaypointGap(start: Point2, dx: real, dy: real, t: real, a: real, b: real)
    requires t > 0.0
    ensures var p, q := Waypoint(start, dx / t, dy / t, a), Waypoint(start, dx / t, dy / t, b);
      q.x - p.x == dx * ((b - a) / t) && q.y - p.y == dy * ((b - a) / t)
  {
    DivGap(dx, t, a, b);
    DivGap(dy, t, a, b);
  }

  /**
   * Along the direction `(end - start) / total` of a segment of length
   * `total`, the points at distances `a` and `b` are exactly `|b - a|` apart.
   */
  lemma UnitWaypointDistance(start: Point2, end: Point2, total: real, a: real, b: real)
    requires IsLength(start, end, total) && total > 0.0
    ensures var ux, uy := (end.x - start.x) / total, (end.y - start.y) / total;
      Dist2(Waypoint(start, ux, uy, a), Waypoint(start, ux, uy, b)) == Sq(b - a)
  {
    var dx, dy := end.x - start.x, end.y - start.y;
    var ux, uy := dx / total, dy / total;
    var k := (b - a) / total;
    var p, q := Waypoint(start, ux, uy, a), Waypoint(start, ux, uy, b);
    WaypointGap(start, dx, dy, total, a, b);
    DistOfScaled(p, q, dx, dy, k);
    ScaleEqual(Sq(k), Sq(dx) + Sq(dy), Sq(total));
    SqDivMul(b - a, total);
  }

  /** The point at distance `total` along the direction of the segment is its end. */
  lemma WaypointAtLength(start: Point2, end: Point2, total: real)
    requires total > 0.0
    ensures Waypoint(start, (end.x - start.x) / total, (end.y - start.y) / total, total) == end
  {
    DivMul(end.x - start.x, total);
    DivMul(end.y - start.y, total);
  }

  /** The point at distance `d` along the direction of the segment is at fraction `d / total` of it. */
  lemma WaypointIsLerp(start: Point2, end: Point2, total: real, d: real)
    requires total > 0.0
    ensures Waypoint(start, (end.x - start.x) / total, (end.y - start.y) / total, d)
         == Lerp(start, end, d / total)
  {
    DivSwap(end.x - start.x, d, total);
    DivSwap(end.y - start.y, d, total);
    ShiftEqual(start.x, ((end.x - start.x) / total) * d, (d / total) * (end.x - start.x));
    ShiftEqual(start.y, ((end.y - start.y) / total) * d, (d / total) * (end.y - start.y));
  }

  /** Point `i` of the path (0 <= i <= num_steps) is `start + u * (i * step)`. */
  lemma StraightPathPoint(start: Point2, end: Point2, step: real, total: real, i: int)
    requires step > 0.0 && total > 0.0
    requires 0 <= i <= NumSteps(total, step)
    ensures i < |StraightPath(start, end, step, total)|
    ensures StraightPath(start, end, step, total)[i]
         == Waypoint(start, (end.x - start.x) / total, (end.y - start.y) / total, i as real * step)
  {
    var n := NumSteps(total, step);
    var ux, uy := (end.x - start.x) / total, (end.y - start.y) / total;
    StraightPathUnfold(start, end, step, total);
    if i > 0 {
      IntermediatesAt(start, ux, uy, step, n, i);
    }
  }

  // ---------------------------------------------------------------------------
  // Properties of the generated path (positive step)
  // ---------------------------------------------------------------------------

  /** The path always begins at `start`. */
  lemma StraightPathStartsAtStart(start: Point2, end: Point2, step: real, total: real)
    requires step != 0.0
    ensures |StraightPath(start, end, step, total)| >= 1
    ensures StraightPath(start, end, step, total)[0] == start
  {
  }

  /** When start and end coincide the path is the single point `[start]`. */
  lemma StraightPathSamePoint(start: Point2, step: real, total: real)
    requires step != 0.0 && IsLength(start, start, total)
    ensures StraightPath(start, start, step, total) == [start]
  {
    if total != 0.0 {
      SquarePositive(total);
    }
  }

  /**
   * The path has `num_steps + 1` points, plus one when `end` is appended, and
   * `end` is appended exactly when the whole steps fall short of `total`.
   */
  lemma StraightPathLength(start: Point2, end: Point2, step: real, total: real)
    requires step > 0.0 && IsLength(start, end, total)
    ensures var n := NumSteps(total, step);
      |StraightPath(start, end, step, total)| == if n as real * step < total then n + 2 else n + 1
  {
    NumStepsBounds(total, step);
  }

  /**
   * Intermediate point `i` (1 <= i <= num_steps) lies on the segment from
   * start to end, at the fraction `i * step / total` of its length.
   */
  lemma StraightPathOnSegment(start: Point2, end: Point2, step: real, total: real, i: int)
    requires step > 0.0 && IsLength(start, end, total)
    requires 1 <= i <= NumSteps(total, step)
    ensures i < |StraightPath(start, end, step, total)|
    ensures 0.0 < i as real * step <= total
    ensures StraightPath(start, end, step, total)[i] == Lerp(start, end, i as real * step / total)
  {
    NumStepsBounds(total, step);
    SomeStepMeansPositiveLength(total, step);
    var n := NumSteps(total, step);
    MulMonotone(i as real, n as real, step);
    MulStrictMonotone(0.0, i as real, step);
    StraightPathPoint(start, end, step, total, i);
    WaypointIsLerp(start, end, total, i as real * step);
  }

  /** Intermediate point `i` is at distance `i * step` from `start`. */
  lemma StraightPathDistanceFromStart(start: Point2, end: Point2, step: real, total: real, i: int)
    requires step > 0.0 && IsLength(start, end, total)
    requires 1 <= i <= NumSteps(total, step)
    ensures i < |StraightPath(start, end, step, total)|
    ensures Dist2(start, StraightPath(start, end, step, total)[i]) == Sq(i as real * step)
  {
    SomeStepMeansPositiveLength(total, step);
    StraightPathPoint(start, end, step, total, i);
    UnitWaypointDistance(start, end, total, 0.0, i as real * step);
    var ux, uy := (end.x - start.x) / total, (end.y - start.y) / total;
    assert Waypoint(start, ux, uy, 0.0) == start;
  }

  /** Consecutive points among the start and the intermediate points are exactly `step` apart. */
  lemma StraightPathSpacing(start: Point2, end: Point2, step: real, total: real, i: int)
    requires step > 0.0 && IsLength(start, end, total)
    requires 0 <= i < NumSteps(total, step)
    ensures i + 1 < |StraightPath(start, end, step, total)|
    ensures var r := StraightPath(start, end, step, total); Dist2(r[i], r[i + 1]) == Sq(step)
  {
    SomeStepMeansPositiveLength(total, step);
    StraightPathPoint(start, end, step, total, i);
    StraightPathPoint(start, end, step, total, i + 1);
    NextStep(i, step);
    UnitWaypointDistance(start, end, total, i as real * step, i as real * step + step);
    assert (i as real * step + step) - i as real * step == step;
  }

  /** Over the reals the path always ends exactly at `end`. */
  lemma StraightPathEndsAtEnd(start: Point2, end: Point2, step: real, total: real)
    requires step > 0.0 && IsLength(start, end, total)
    ensures var r := StraightPath(start, end, step, total); r[|r| - 1] == end
  {
    NumStepsBounds(total, step);
    var n := NumSteps(total, step);
    if total == 0.0 {
      ZeroLengthSamePoint(start, end, total);
    } else if n as real * step >= total {
      // the last intermediate point is at distance num_steps * step == total
      assert n as real * step == total;
      StraightPathLength(start, end, step, total);
      StraightPathPoint(start, end, step, total, n);
      WaypointAtLength(start, end, total);
    }
  }

  /**
   * When `end` is appended, the last segment is strictly shorter than `step`
   * and not empty: its length is `total - num_steps * step`.
   */
  lemma StraightPathFinalSegment(start: Point2, end: Point2, step: real, total: real)
    requires step > 0.0 && IsLength(start, end, total)
    requires NumSteps(total, step) as real * step < total
    ensures var n := NumSteps(total, step); 0.0 < total - n as real * step < step
    ensures var r, rest := StraightPath(start, end, step, total), total - NumSteps(total, step) as real * step;
      |r| >= 2 && Dist2(r[|r| - 2], r[|r| - 1]) == Sq(rest)
  {
    NumStepsBounds(total, step);
    var n := NumSteps(total, step);
    assert (n + 1) as real * step == n as real * step + step;
    StraightPathLength(start, end, step, total);
    StraightPathPoint(start, end, step, total, n);
    UnitWaypointDistance(start, end, total, n as real * step, total);
    WaypointAtLength(start, end, total);
  }

  /** From (0,0) to (3,0) with step 1: the last whole step lands on the end, which is not repeated. */
  lemma StraightPathExactSteps()
    ensures StraightPath(Point2(0.0, 0.0), Point2(3.0, 0.0), 1.0, 3.0)
         == [Point2(0.0, 0.0), Point2(1.0, 0.0), Point2(2.0, 0.0), Point2(3.0, 0.0)]
  {
    assert NumSteps(3.0, 1.0) == 3;
  }

  /** From (0,0) to (10,0) with step 1 the path has 11 points, from (0,0) to (10,0). */
  lemma StraightPathTenUnitSteps()
    ensures var r := StraightPath(Point2(0.0, 0.0), Point2(10.0, 0.0), 1.0, 10.0);
      |r| == 11 && r[0] == Point2(0.0, 0.0) && r[10] == Point2(10.0, 0.0)
  {
    var o, e := Point2(0.0, 0.0), Point2(10.0, 0.0);
    assert NumSteps(10.0, 1.0) == 10;
    StraightPathLength(o, e, 1.0, 10.0);
    StraightPathEndsAtEnd(o, e, 1.0, 10.0);
  }

  /** From (0,0) to (5,0) with step 2: two whole steps, then the end. */
  lemma StraightPathAppendsEnd()
    ensures StraightPath(Point2(0.0, 0.0), Point2(5.0, 0.0), 2.0, 5.0)
         == [Point2(0.0, 0.0), Point2(2.0, 0.0), Point2(4.0, 0.0), Point2(5.0, 0.0)]
  {
    assert NumSteps(5.0, 2.0) == 2;
  }

  // ---------------------------------------------------------------------------
  // A negative step is not rejected by the source
  // ---------------------------------------------------------------------------

  /**
   * With a negative step `int()` truncates toward zero, `num_steps <= 0` and
   * the loop adds nothing: the path is `[start]` or `[start, end]`, and `end`
   * is there exactly when the segment is not empty and the (non-positive)
   * whole steps fall short of it.
   */
  lemma NegativeStepPath(start: Point2, end: Point2, step: real, total: real)
    requires step < 0.0 && IsLength(start, end, total)
    ensures var r := StraightPath(start, end, step, total); r == [start] || r == [start, end]
    ensures StraightPath(start, end, step, total) == [start, end]
        <==> total > 0.0 && NumSteps(total, step) as real * step < total
  {
  }

  /** ... and `end` is missing when `total` is a whole multiple of `-step`. */
  lemma NegativeStepDropsEnd()
    ensures StraightPath(Point2(0.0, 0.0), Point2(2.0, 0.0), -1.0, 2.0) == [Point2(0.0, 0.0)]
  {
    assert NumSteps(2.0, -1.0) == -2;
  }
}
