/** Surface-local coordinates of touches, their centroid and their average
    distance to a point (graph/KidneyXWeb.js, averagePoint and averageDistToPoint). */
module Geometry {

  /** A contact as a touch event reports it: a stable identifier and page coordinates. */
  datatype Touch = Touch(id: int, clientX: real, clientY: real)

  datatype Point = Point(x: real, y: real)

  /** The tracker keeps one table per axis; Axis selects a coordinate. */
  datatype Axis = X | Y

  function Coord(p: Point, axis: Axis): real
  {
    match axis
    case X => p.x
    case Y => p.y
  }

  /** Surface-local position: page coordinates minus the surface offset. */
  function Local(t: Touch, offset: Point): (p: Point)
    ensures p.x + offset.x == t.clientX && p.y + offset.y == t.clientY
  {
    Point(t.clientX - offset.x, t.clientY - offset.y)
  }

  /** The per-touch distance (Math.sqrt of the squared differences in the
      source) is a parameter; all the model uses is that it is non-negative. */
  ghost predicate IsDistance(dist: (real, real) -> real)
  {
    forall dx, dy :: dist(dx, dy) >= 0.0
  }

  /** Sum of the surface-local positions, accumulated in event order. */
  function SumLocal(ts: seq<Touch>, offset: Point): Point
  {
    if ts == [] then Point(0.0, 0.0)
    else
      var s := SumLocal(ts[..|ts| - 1], offset);
      var p := Local(ts[|ts| - 1], offset);
      Point(s.x + p.x, s.y + p.y)
  }

  /** When every touch sits at the position of the first, the sum is that
      position times the number of touches. */
  lemma {:induction false} SumLocalCoincident(ts: seq<Touch>, offset: Point)
    ensures ts != [] && Coincident(ts, offset) ==>
              var p := Local(ts[0], offset);
              SumLocal(ts, offset) == Point(|ts| as real * p.x, |ts| as real * p.y)
  {
    if ts != [] && Coincident(ts, offset) {
      var n := |ts| - 1;
      var p := Local(ts[0], offset);
      if n > 0 {
        assert ts[..n][0] == ts[0];
        assert Coincident(ts[..n], offset) by {
          assert forall i :: 0 <= i < n ==> ts[..n][i] == ts[i];
        }
        SumLocalCoincident(ts[..n], offset);
        assert Local(ts[n], offset) == p;
        assert (n + 1) as real * p.x == n as real * p.x + p.x;
        assert (n + 1) as real * p.y == n as real * p.y + p.y;
      }
    }
  }

  /** Every touch of ts is at the surface-local position of the first. */
  predicate Coincident(ts: seq<Touch>, offset: Point)
    requires ts != []
  {
    forall i :: 0 <= i < |ts| ==> Local(ts[i], offset) == Local(ts[0], offset)
  }

  /** The centroid: the arithmetic mean of the surface-local positions. Touches
      that all sit at one position have that position as centroid. */
  function AveragePoint(ts: seq<Touch>, offset: Point): (r: Point)
    requires |ts| > 0
    ensures Coincident(ts, offset) ==> r == Local(ts[0], offset)
  {
    SumLocalCoincident(ts, offset);
    var s := SumLocal(ts, offset);
    var n := |ts| as real;
    assert Coincident(ts, offset) ==> s.x / n == Local(ts[0], offset).x && s.y / n == Local(ts[0], offset).y;
    Point(s.x / n, s.y / n)
  }

  /** Some touch lies at or below the centroid on each axis and some touch at
      or above it: the centroid never leaves the range of the touches. */
  lemma CentroidWithinTouches(ts: seq<Touch>, offset: Point, axis: Axis)
    requires |ts| > 0
    ensures exists i :: 0 <= i < |ts| && Coord(Local(ts[i], offset), axis) <= Coord(AveragePoint(ts, offset), axis)
    ensures exists j :: 0 <= j < |ts| && Coord(Local(ts[j], offset), axis) >= Coord(AveragePoint(ts, offset), axis)
  {
    var n := |ts| as real;
    var c := Coord(AveragePoint(ts, offset), axis);
    var s := Coord(SumLocal(ts, offset), axis);
    assert c == s / n by {
      match axis
      case X =>
      case Y =>
    }
    assert c * n == s;
    if forall i :: 0 <= i < |ts| ==> Coord(Local(ts[i], offset), axis) > c {
      SumLocalAbove(ts, offset, axis, c);
    }
    if forall j :: 0 <= j < |ts| ==> Coord(Local(ts[j], offset), axis) < c {
      SumLocalBelow(ts, offset, axis, c);
    }
  }

  /** When every touch lies strictly above m on an axis, so does their mean. */
  lemma {:induction false} SumLocalAbove(ts: seq<Touch>, offset: Point, axis: Axis, m: real)
    requires ts != []
    requires forall i :: 0 <= i < |ts| ==> Coord(Local(ts[i], offset), axis) > m
    ensures Coord(SumLocal(ts, offset), axis) > |ts| as real * m
  {
    var n := |ts| - 1;
    if n > 0 {
      assert forall i :: 0 <= i < n ==> ts[..n][i] == ts[i];
      SumLocalAbove(ts[..n], offset, axis, m);
    }
    assert (n + 1) as real * m == n as real * m + m;
    match axis
    case X =>
    case Y =>
  }

  /** When every touch lies strictly below m on an axis, so does their mean. */
  lemma {:induction false} SumLocalBelow(ts: seq<Touch>, offset: Point, axis: Axis, m: real)
    requires ts != []
    requires forall i :: 0 <= i < |ts| ==> Coord(Local(ts[i], offset), axis) < m
    ensures Coord(SumLocal(ts, offset), axis) < |ts| as real * m
  {
    var n := |ts| - 1;
    if n > 0 {
      assert forall i :: 0 <= i < n ==> ts[..n][i] == ts[i];
      SumLocalBelow(ts[..n], offset, axis, m);
    }
    assert (n + 1) as real * m == n as real * m + m;
    match axis
    case X =>
    case Y =>
  }

  /** Sum of the distances from the point c to each surface-local position. */
  function SumDist(ts: seq<Touch>, offset: Point, c: Point, dist: (real, real) -> real): (r: real)
    ensures IsDistance(dist) ==> r >= 0.0
  {
    if ts == [] then 0.0
    else
      var p := Local(ts[|ts| - 1], offset);
      SumDist(ts[..|ts| - 1], offset, c, dist) + dist(c.x - p.x, c.y - p.y)
  }

  /** Mean distance from c to the touches: the pinch state. */
  function AverageDistToPoint(ts: seq<Touch>, offset: Point, c: Point, dist: (real, real) -> real): (r: real)
    requires |ts| > 0
    ensures IsDistance(dist) ==> r >= 0.0
  {
    SumDist(ts, offset, c, dist) / |ts| as real
  }

  /** Every touch of ts moved by d (same identifiers, same order). */
  function Shift(ts: seq<Touch>, d: Point): seq<Touch>
  {
    seq(|ts|, i requires 0 <= i < |ts| => Touch(ts[i].id, ts[i].clientX + d.x, ts[i].clientY + d.y))
  }

  /** Moving every touch by d adds |ts| times d to the sum of positions. */
  lemma {:induction false} SumLocalShift(ts: seq<Touch>, offset: Point, d: Point)
    ensures SumLocal(Shift(ts, d), offset).x == SumLocal(ts, offset).x + |ts| as real * d.x
    ensures SumLocal(Shift(ts, d), offset).y == SumLocal(ts, offset).y + |ts| as real * d.y
  {
    if ts != [] {
      var n := |ts| - 1;
      assert Shift(ts, d)[..n] == Shift(ts[..n], d);
      SumLocalShift(ts[..n], offset, d);
    }
  }

  /** The centroid moves with the touches: translating every touch by d
      translates the centroid by d. */
  lemma CentroidShift(ts: seq<Touch>, offset: Point, d: Point)
    requires |ts| > 0
    ensures AveragePoint(Shift(ts, d), offset)
         == Point(AveragePoint(ts, offset).x + d.x, AveragePoint(ts, offset).y + d.y)
  {
    SumLocalShift(ts, offset, d);
    var n := |ts| as real;
    var s := SumLocal(ts, offset);
    var s' := SumLocal(Shift(ts, d), offset);
    assert |Shift(ts, d)| == |ts|;
    MeanOfShiftedSum(s.x, n, d.x);
    MeanOfShiftedSum(s.y, n, d.y);
    assert AveragePoint(Shift(ts, d), offset) == Point(s'.x / n, s'.y / n);
    assert AveragePoint(ts, offset) == Point(s.x / n, s.y / n);
  }

  lemma MeanOfShiftedSum(a: real, n: real, b: real)
    requires n > 0.0
    ensures (a + n * b) / n == a / n + b
  {
    var q := a / n;
    assert q * n == a;
    assert a + n * b == n * (q + b);
  }

  /** Distances are taken between positions, so translating the touches and
      the point together leaves the sum of distances unchanged. */
  lemma {:induction false} SumDistShift(ts: seq<Touch>, offset: Point, c: Point, d: Point, dist: (real, real) -> real)
    ensures SumDist(Shift(ts, d), offset, Point(c.x + d.x, c.y + d.y), dist) == SumDist(ts, offset, c, dist)
  {
    if ts != [] {
      var n := |ts| - 1;
      assert Shift(ts, d)[..n] == Shift(ts[..n], d);
      SumDistShift(ts[..n], offset, c, d, dist);
    }
  }

  /** A rigid translation keeps the average distance to the (translated) centroid. */
  lemma AverageDistShift(ts: seq<Touch>, offset: Point, d: Point, dist: (real, real) -> real)
    requires |ts| > 0
    ensures var c := AveragePoint(ts, offset);
            AverageDistToPoint(Shift(ts, d), offset, AveragePoint(Shift(ts, d), offset), dist)
            == AverageDistToPoint(ts, offset, c, dist)
  {
    CentroidShift(ts, offset, d);
    SumDistShift(ts, offset, AveragePoint(ts, offset), d, dist);
  }
}
