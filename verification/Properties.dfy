/** What the touch handlers of graph/KidneyXWeb.js guarantee, stated on the
    functions of module Gesture: where each finger is stored, when "center"
    and the pinch state are resynchronised, what a move emits, and a few
    whole gestures (a drag, a rigid two-finger drag, a pinch, a tap). */
module Properties {
  import opened Geometry
  import opened Contacts
  import opened Gesture

  // ---------------------------------------------------------------- touch start

  /** A finger going down is stored at its surface-local position; when an
      identifier repeats within the event, its last touch wins. */
  lemma TouchStartStores(s: TrackerState, e: TouchEvent, offset: Point, dist: (real, real) -> real, i: int)
    requires 0 <= i < |e.changed| && LastOccurrence(e.changed, i)
    ensures var r := AfterTouchStart(s, e, offset, dist).next;
            var k := Finger(e.changed[i].id);
            k in r.lastX && k in r.lastY
            && r.lastX[k] == Local(e.changed[i], offset).x
            && r.lastY[k] == Local(e.changed[i], offset).y
  {
    StoreAllLastWins(s.lastX, e.changed, offset, X, i);
    StoreAllLastWins(s.lastY, e.changed, offset, Y, i);
  }

  /** Touch start adds exactly the changed identifiers (and "center" when it
      resynchronises) and leaves every other finger's entry as it was. */
  lemma TouchStartKeys(s: TrackerState, e: TouchEvent, offset: Point, dist: (real, real) -> real)
    ensures var r := AfterTouchStart(s, e, offset, dist).next;
            var added := Fingers(e.changed) + (if |e.targets| > 1 then {Center} else {});
            r.lastX.Keys == s.lastX.Keys + added && r.lastY.Keys == s.lastY.Keys + added
    ensures var r := AfterTouchStart(s, e, offset, dist).next;
            forall k :: k in s.lastX && k !in Fingers(e.changed) && k != Center ==> k in r.lastX && r.lastX[k] == s.lastX[k]
    ensures var r := AfterTouchStart(s, e, offset, dist).next;
            forall k :: k in s.lastY && k !in Fingers(e.changed) && k != Center ==> k in r.lastY && r.lastY[k] == s.lastY[k]
  {
    StoreAllKeys(s.lastX, e.changed, offset, X);
    StoreAllKeys(s.lastY, e.changed, offset, Y);
    StoreAllKeeps(s.lastX, e.changed, offset, X);
    StoreAllKeeps(s.lastY, e.changed, offset, Y);
  }

  /** Touch start warns exactly when some changed identifier is already in a
      table or repeats within the event, and every warning names a changed finger. */
  lemma TouchStartWarnings(s: TrackerState, e: TouchEvent, offset: Point, dist: (real, real) -> real)
    ensures AfterTouchStart(s, e, offset, dist).warnings == [] <==>
            forall i :: 0 <= i < |e.changed| ==>
              Finger(e.changed[i].id) !in s.lastX && Finger(e.changed[i].id) !in s.lastY && FirstOccurrence(e.changed, i)
    ensures forall w :: w in AfterTouchStart(s, e, offset, dist).warnings ==>
              w.DuplicateDown? && Finger(w.id) in Fingers(e.changed)
  {
    StartWarningsEmpty(s.lastX.Keys + s.lastY.Keys, e.changed);
    StartWarningsAbout(s.lastX.Keys + s.lastY.Keys, e.changed);
  }

  /** With more than one finger on the surface, touch start stores the centroid
      under "center" and the average distance to it as the pinch state;
      otherwise both are left as they were. */
  lemma TouchStartResyncs(s: TrackerState, e: TouchEvent, offset: Point, dist: (real, real) -> real)
    ensures var r := AfterTouchStart(s, e, offset, dist).next;
            |e.targets| > 1 ==>
              var c := AveragePoint(e.targets, offset);
              Center in r.lastX && Center in r.lastY && r.lastX[Center] == c.x && r.lastY[Center] == c.y
              && r.lastAvgDist == AverageDistToPoint(e.targets, offset, c, dist)
    ensures var r := AfterTouchStart(s, e, offset, dist).next;
            |e.targets| <= 1 ==>
              r.lastAvgDist == s.lastAvgDist
              && (Center in r.lastX <==> Center in s.lastX) && (Center in r.lastY <==> Center in s.lastY)
              && (Center in s.lastX ==> r.lastX[Center] == s.lastX[Center])
              && (Center in s.lastY ==> r.lastY[Center] == s.lastY[Center])
  {
    StoreAllKeys(s.lastX, e.changed, offset, X);
    StoreAllKeys(s.lastY, e.changed, offset, Y);
    StoreAllKeeps(s.lastX, e.changed, offset, X);
    StoreAllKeeps(s.lastY, e.changed, offset, Y);
  }

  // ---------------------------------------------------------------- resetScale

  /** resetScale touches only "center" and the pinch state, and doing it twice
      with the same touches is doing it once. */
  lemma ResetScaleIdempotent(s: TrackerState, targets: seq<Touch>, offset: Point, dist: (real, real) -> real)
    requires |targets| > 0
    ensures var r := AfterResetScale(s, targets, offset, dist);
            AfterResetScale(r, targets, offset, dist) == r
    ensures var r := AfterResetScale(s, targets, offset, dist);
            forall k :: k in s.lastX && k != Center ==> r.lastX[k] == s.lastX[k]
    ensures var r := AfterResetScale(s, targets, offset, dist);
            forall k :: k in s.lastY && k != Center ==> r.lastY[k] == s.lastY[k]
  {
  }

  // ---------------------------------------------------------------- touch end

  /** Touch end removes exactly the changed identifiers, keeps "center" only
      when it resynchronises, and leaves every remaining finger's entry as it was. */
  lemma TouchEndRemoves(s: TrackerState, e: TouchEvent, offset: Point, dist: (real, real) -> real)
    ensures var r := AfterTouchEnd(s, e, offset, dist).next;
            var center := if |e.targets| > 1 then {Center} else {};
            r.lastX.Keys == s.lastX.Keys - Fingers(e.changed) - {Center} + center
            && r.lastY.Keys == s.lastY.Keys - Fingers(e.changed) - {Center} + center
    ensures var r := AfterTouchEnd(s, e, offset, dist).next;
            forall k :: k in r.lastX && k != Center ==> k in s.lastX && r.lastX[k] == s.lastX[k]
    ensures var r := AfterTouchEnd(s, e, offset, dist).next;
            forall k :: k in r.lastY && k != Center ==> k in s.lastY && r.lastY[k] == s.lastY[k]
  {
    RemoveAllKeys(s.lastX, e.changed);
    RemoveAllKeys(s.lastY, e.changed);
    RemoveAllKeeps(s.lastX, e.changed);
    RemoveAllKeeps(s.lastY, e.changed);
  }

  /** Touch end warns exactly when some changed identifier is missing from a
      table or repeats within the event, and every warning names a changed finger. */
  lemma TouchEndWarnings(s: TrackerState, e: TouchEvent, offset: Point, dist: (real, real) -> real)
    ensures AfterTouchEnd(s, e, offset, dist).warnings == [] <==>
            forall i :: 0 <= i < |e.changed| ==>
              Finger(e.changed[i].id) in s.lastX && Finger(e.changed[i].id) in s.lastY && FirstOccurrence(e.changed, i)
    ensures forall w :: w in AfterTouchEnd(s, e, offset, dist).warnings ==>
              w.MissingOnEnd? && Finger(w.id) in Fingers(e.changed)
  {
    EndWarningsEmpty(s.lastX.Keys, s.lastY.Keys, e.changed);
    EndWarningsAbout(s.lastX.Keys, s.lastY.Keys, e.changed);
  }

  /** When at most one finger remains, touch end drops "center" from both
      tables and zeroes the pinch state; otherwise it resynchronises both. */
  lemma TouchEndClearsCenter(s: TrackerState, e: TouchEvent, offset: Point, dist: (real, real) -> real)
    ensures var r := AfterTouchEnd(s, e, offset, dist).next;
            |e.targets| <= 1 ==> Center !in r.lastX && Center !in r.lastY && r.lastAvgDist == 0.0
    ensures var r := AfterTouchEnd(s, e, offset, dist).next;
            |e.targets| > 1 ==>
              var c := AveragePoint(e.targets, offset);
              Center in r.lastX && Center in r.lastY && r.lastX[Center] == c.x && r.lastY[Center] == c.y
              && r.lastAvgDist == AverageDistToPoint(e.targets, offset, c, dist)
  {
  }

  // ---------------------------------------------------------------- touch move

  /** One finger moving pans by its displacement since it was last stored,
      exactly when it is stored in both tables, and it is then stored where it is now. */
  lemma SingleTouchMovePan(s: TrackerState, e: TouchEvent, offset: Point, dist: (real, real) -> real)
    requires |e.targets| == 1
    ensures var t := e.targets[0];
            var k := Finger(t.id);
            var p := Local(t, offset);
            var r := AfterTouchMove(s, e, offset, dist);
            |r.emitted| <= 1
            && (r.emitted != [] <==> k in s.lastX && k in s.lastY)
            && (r.emitted != [] ==>
                  r.emitted[0].Pan? && s.lastX[k] + r.emitted[0].dx == p.x && s.lastY[k] + r.emitted[0].dy == p.y)
            && r.next == TrackerState(s.lastX[k := p.x], s.lastY[k := p.y], s.lastAvgDist)
  {
    var t := e.targets[0];
    var k := Finger(t.id);
    var p := Local(t, offset);
    assert e.targets == [t] && e.targets[..0] == [];
    assert MoveGesture(s, e.targets, offset, dist).next == s;
    assert StoreAll(s.lastX, e.targets, offset, X) == s.lastX[k := p.x];
    assert StoreAll(s.lastY, e.targets, offset, Y) == s.lastY[k := p.y];
  }

  /** Several fingers moving pan by the centroid's displacement (undefined
      without a stored "center"), then zoom about the new centroid by the ratio
      of the new average distance to the stored one (undefined when that is 0);
      the new centroid and distance become the pinch state. */
  lemma MultiTouchMovePanZoom(s: TrackerState, e: TouchEvent, offset: Point, dist: (real, real) -> real)
    requires |e.targets| > 1
    ensures var c := AveragePoint(e.targets, offset);
            var d := AverageDistToPoint(e.targets, offset, c, dist);
            var r := AfterTouchMove(s, e, offset, dist);
            |r.emitted| == 2
            && (r.emitted[0].Pan? <==> Center in s.lastX && Center in s.lastY)
            && (!r.emitted[0].Pan? ==> r.emitted[0] == PanUndefined)
            && (r.emitted[0].Pan? ==> s.lastX[Center] + r.emitted[0].dx == c.x && s.lastY[Center] + r.emitted[0].dy == c.y)
            && r.emitted[1].ZoomAbout? && r.emitted[1].x == c.x && r.emitted[1].y == c.y
            && (r.emitted[1].ratio.Scale? <==> s.lastAvgDist != 0.0)
            && (r.emitted[1].ratio.Scale? ==> r.emitted[1].ratio.factor * s.lastAvgDist == d)
            && Center in r.next.lastX && Center in r.next.lastY
            && r.next.lastX[Center] == c.x && r.next.lastY[Center] == c.y && r.next.lastAvgDist == d
  {
    var c := AveragePoint(e.targets, offset);
    var d := AverageDistToPoint(e.targets, offset, c, dist);
    var g := MoveGesture(s, e.targets, offset, dist).next;
    StoreAllKeeps(g.lastX, e.targets, offset, X);
    StoreAllKeeps(g.lastY, e.targets, offset, Y);
    if s.lastAvgDist != 0.0 {
      assert d / s.lastAvgDist * s.lastAvgDist == d;
    }
  }

  /** From a state whose tables share one key set, a multi-finger move pans
      by an undefined amount exactly when "center" is not stored. */
  lemma MultiTouchPanUndefined(s: TrackerState, e: TouchEvent, offset: Point, dist: (real, real) -> real)
    requires s.Valid() && |e.targets| > 1
    ensures var r := AfterTouchMove(s, e, offset, dist);
            r.emitted[0] == PanUndefined <==> Center !in s.lastX
  {
    MultiTouchMovePanZoom(s, e, offset, dist);
  }

  /** After a move, every target finger is stored at its current position (the
      last touch wins when an identifier repeats). */
  lemma TouchMoveRefreshesTargets(s: TrackerState, e: TouchEvent, offset: Point, dist: (real, real) -> real, i: int)
    requires 0 <= i < |e.targets| && LastOccurrence(e.targets, i)
    ensures var r := AfterTouchMove(s, e, offset, dist).next;
            var k := Finger(e.targets[i].id);
            k in r.lastX && k in r.lastY
            && r.lastX[k] == Local(e.targets[i], offset).x
            && r.lastY[k] == Local(e.targets[i], offset).y
  {
    var g := MoveGesture(s, e.targets, offset, dist).next;
    StoreAllLastWins(g.lastX, e.targets, offset, X, i);
    StoreAllLastWins(g.lastY, e.targets, offset, Y, i);
  }

  /** A move adds exactly the target identifiers (and "center" when several
      fingers move) and leaves every other finger's entry as it was. */
  lemma TouchMoveKeys(s: TrackerState, e: TouchEvent, offset: Point, dist: (real, real) -> real)
    ensures var r := AfterTouchMove(s, e, offset, dist).next;
            var added := Fingers(e.targets) + (if |e.targets| > 1 then {Center} else {});
            r.lastX.Keys == s.lastX.Keys + added && r.lastY.Keys == s.lastY.Keys + added
    ensures var r := AfterTouchMove(s, e, offset, dist).next;
            forall k :: k in s.lastX && k !in Fingers(e.targets) && k != Center ==> k in r.lastX && r.lastX[k] == s.lastX[k]
    ensures var r := AfterTouchMove(s, e, offset, dist).next;
            forall k :: k in s.lastY && k !in Fingers(e.targets) && k != Center ==> k in r.lastY && r.lastY[k] == s.lastY[k]
  {
    var g := MoveGesture(s, e.targets, offset, dist).next;
    StoreAllKeys(g.lastX, e.targets, offset, X);
    StoreAllKeys(g.lastY, e.targets, offset, Y);
    StoreAllKeeps(g.lastX, e.targets, offset, X);
    StoreAllKeeps(g.lastY, e.targets, offset, Y);
  }

  // ---------------------------------------------------------------- whole gestures

  /** The handlers' effect over a run of one-finger moves, each sample its own event. */
  function MoveRun(s: TrackerState, ts: seq<Touch>, offset: Point, dist: (real, real) -> real): Step
  {
    if ts == [] then Step(s, [], [])
    else
      var prev := MoveRun(s, ts[..|ts| - 1], offset, dist);
      var t := ts[|ts| - 1];
      var step := AfterTouchMove(prev.next, TouchEvent([t], [t]), offset, dist);
      Step(step.next, prev.emitted + step.emitted, prev.warnings + step.warnings)
  }

  /** The sum of the pans in a command list. */
  function PanTotal(cs: seq<Command>): Point
  {
    if cs == [] then Point(0.0, 0.0)
    else
      var p := PanTotal(cs[..|cs| - 1]);
      var c := cs[|cs| - 1];
      if c.Pan? then Point(p.x + c.dx, p.y + c.dy) else p
  }

  /** The last sample of a one-finger run, for a finger stored in both tables:
      one pan from the stored position to the sample, which is then stored. */
  lemma MoveRunLast(s: TrackerState, id: int, ts: seq<Touch>, offset: Point, dist: (real, real) -> real)
    requires ts != [] && ts[|ts| - 1].id == id
    requires var prev := MoveRun(s, ts[..|ts| - 1], offset, dist).next;
             Finger(id) in prev.lastX && Finger(id) in prev.lastY
    ensures var prev := MoveRun(s, ts[..|ts| - 1], offset, dist);
            var r := MoveRun(s, ts, offset, dist);
            var k := Finger(id);
            var p := Local(ts[|ts| - 1], offset);
            r.warnings == prev.warnings
            && |r.emitted| == |prev.emitted| + 1 && r.emitted[..|prev.emitted|] == prev.emitted
            && r.emitted[|prev.emitted|].Pan?
            && prev.next.lastX[k] + r.emitted[|prev.emitted|].dx == p.x
            && prev.next.lastY[k] + r.emitted[|prev.emitted|].dy == p.y
            && r.next.lastX == prev.next.lastX[k := p.x] && r.next.lastY == prev.next.lastY[k := p.y]
  {
    var prev := MoveRun(s, ts[..|ts| - 1], offset, dist);
    var t := ts[|ts| - 1];
    SingleTouchMovePan(prev.next, TouchEvent([t], [t]), offset, dist);
  }

  /** A one-finger drag logs nothing, pans once per sample, and leaves the
      finger stored at its last sample. */
  lemma {:induction false} SingleFingerRunPans(s: TrackerState, id: int, ts: seq<Touch>, offset: Point, dist: (real, real) -> real)
    requires Finger(id) in s.lastX && Finger(id) in s.lastY
    requires forall j :: 0 <= j < |ts| ==> ts[j].id == id
    ensures var r := MoveRun(s, ts, offset, dist);
            r.warnings == [] && |r.emitted| == |ts| && (forall c :: c in r.emitted ==> c.Pan?)
            && Finger(id) in r.next.lastX && Finger(id) in r.next.lastY
    ensures var r := MoveRun(s, ts, offset, dist);
            ts != [] ==>
              r.next.lastX[Finger(id)] == Local(ts[|ts| - 1], offset).x && r.next.lastY[Finger(id)] == Local(ts[|ts| - 1], offset).y
  {
    if ts != [] {
      var n := |ts| - 1;
      assert forall j :: 0 <= j < n ==> ts[..n][j] == ts[j];
      SingleFingerRunPans(s, id, ts[..n], offset, dist);
      MoveRunLast(s, id, ts, offset, dist);
      var prev := MoveRun(s, ts[..n], offset, dist).emitted;
      var all := MoveRun(s, ts, offset, dist).emitted;
      assert forall c :: c in all ==> c in prev || c == all[|prev|];
    }
  }

  /** The pans of a one-finger drag add up to the finger's net displacement
      from where it was stored to where it is stored after the drag. */
  lemma {:induction false} SingleFingerPansTelescope(s: TrackerState, id: int, ts: seq<Touch>, offset: Point, dist: (real, real) -> real)
    requires Finger(id) in s.lastX && Finger(id) in s.lastY
    requires forall j :: 0 <= j < |ts| ==> ts[j].id == id
    ensures var r := MoveRun(s, ts, offset, dist);
            Finger(id) in r.next.lastX && Finger(id) in r.next.lastY
            && s.lastX[Finger(id)] + PanTotal(r.emitted).x == r.next.lastX[Finger(id)]
            && s.lastY[Finger(id)] + PanTotal(r.emitted).y == r.next.lastY[Finger(id)]
  {
    if ts != [] {
      var n := |ts| - 1;
      assert forall j :: 0 <= j < n ==> ts[..n][j] == ts[j];
      SingleFingerRunPans(s, id, ts[..n], offset, dist);
      SingleFingerPansTelescope(s, id, ts[..n], offset, dist);
      MoveRunLast(s, id, ts, offset, dist);
      var prev := MoveRun(s, ts[..n], offset, dist).emitted;
      var all := MoveRun(s, ts, offset, dist).emitted;
      assert all[..|all| - 1] == prev;
    }
  }

  /** Dragging two or more fingers rigidly by d, from a state synchronised with
      their old positions, pans by exactly d and zooms by exactly 1 about the
      new centroid. */
  lemma RigidDragUnitZoom(s: TrackerState, ts: seq<Touch>, d: Point, offset: Point, dist: (real, real) -> real)
    requires |ts| > 1
    requires Center in s.lastX && Center in s.lastY
    requires s.lastX[Center] == AveragePoint(ts, offset).x && s.lastY[Center] == AveragePoint(ts, offset).y
    requires s.lastAvgDist == AverageDistToPoint(ts, offset, AveragePoint(ts, offset), dist)
    requires s.lastAvgDist != 0.0
    ensures var moved := Shift(ts, d);
            var c := AveragePoint(moved, offset);
            AfterTouchMove(s, TouchEvent(moved, moved), offset, dist).emitted
              == [Pan(d.x, d.y), ZoomAbout(c.x, c.y, Scale(1.0))]
  {
    var moved := Shift(ts, d);
    var e := TouchEvent(moved, moved);
    assert |moved| == |ts|;
    CentroidShift(ts, offset, d);
    AverageDistShift(ts, offset, d, dist);
    var c := AveragePoint(moved, offset);
    MultiTouchMovePanZoom(s, e, offset, dist);
    var r := AfterTouchMove(s, e, offset, dist).emitted;
    UnitFactor(r[1].ratio.factor, s.lastAvgDist);
    assert r == [r[0], r[1]];
  }

  lemma UnitFactor(f: real, a: real)
    requires a != 0.0 && f * a == a
    ensures f == 1.0
  {
    assert (f - 1.0) * a == 0.0;
  }

  /** A two-finger pinch: fingers down at (0,0) and (10,0), one after the
      other, then the second moves to (20,0): the centroid pans by (5,0) and the
      view zooms by 2 about (10,0). */
  lemma PinchScenario(dist: (real, real) -> real)
    requires forall dx :: dist(dx, 0.0) == if dx < 0.0 then -dx else dx
    ensures var origin := Point(0.0, 0.0);
            var a := Touch(0, 0.0, 0.0);
            var b := Touch(1, 10.0, 0.0);
            var b' := Touch(1, 20.0, 0.0);
            var first := AfterTouchStart(TrackerState(map[], map[], 0.0), TouchEvent([a], [a]), origin, dist);
            var second := AfterTouchStart(first.next, TouchEvent([b], [a, b]), origin, dist);
            var move := AfterTouchMove(second.next, TouchEvent([b'], [a, b']), origin, dist);
            first.warnings == [] && second.warnings == []
            && move.emitted == [Pan(5.0, 0.0), ZoomAbout(10.0, 0.0, Scale(2.0))]
  {
    var origin := Point(0.0, 0.0);
    var a := Touch(0, 0.0, 0.0);
    var b' := Touch(1, 20.0, 0.0);
    var e := TouchEvent([b'], [a, b']);
    var second := PinchDown(dist);
    PairGeometry(a, b', 10.0, dist);
    MultiTouchMovePanZoom(second, e, origin, dist);
    var r := AfterTouchMove(second, e, origin, dist).emitted;
    assert AverageDistToPoint(e.targets, origin, AveragePoint(e.targets, origin), dist) == 10.0;
    assert r[1].ratio.factor * 5.0 == 10.0;
    assert r == [r[0], r[1]];
  }

  /** The first two steps of the pinch: after both fingers are down, "center"
      holds their centroid (5,0) and the pinch state their distance 5 to it. */
  lemma PinchDown(dist: (real, real) -> real) returns (second: TrackerState)
    requires forall dx :: dist(dx, 0.0) == if dx < 0.0 then -dx else dx
    ensures var origin := Point(0.0, 0.0);
            var a := Touch(0, 0.0, 0.0);
            var b := Touch(1, 10.0, 0.0);
            var first := AfterTouchStart(TrackerState(map[], map[], 0.0), TouchEvent([a], [a]), origin, dist);
            first.warnings == []
            && AfterTouchStart(first.next, TouchEvent([b], [a, b]), origin, dist).warnings == []
            && AfterTouchStart(first.next, TouchEvent([b], [a, b]), origin, dist).next == second
    ensures Center in second.lastX && Center in second.lastY
    ensures second.lastX[Center] == 5.0 && second.lastY[Center] == 0.0 && second.lastAvgDist == 5.0
  {
    var origin := Point(0.0, 0.0);
    var a := Touch(0, 0.0, 0.0);
    var b := Touch(1, 10.0, 0.0);
    var empty := TrackerState(map[], map[], 0.0);
    var first := AfterTouchStart(empty, TouchEvent([a], [a]), origin, dist);
    second := AfterTouchStart(first.next, TouchEvent([b], [a, b]), origin, dist).next;
    PairGeometry(a, b, 5.0, dist);
    assert [a][..0] == [] && [b][..0] == [];
    assert Fingers([a]) == {Finger(0)};
    TouchStartWarnings(empty, TouchEvent([a], [a]), origin, dist);
    TouchStartKeys(empty, TouchEvent([a], [a]), origin, dist);
    TouchStartWarnings(first.next, TouchEvent([b], [a, b]), origin, dist);
    TouchStartResyncs(first.next, TouchEvent([b], [a, b]), origin, dist);
  }

  /** Two fingers on the x-axis, the first at the origin and the second at 2h:
      their centroid is (h, 0) and both are h away from it. */
  lemma PairGeometry(a: Touch, b: Touch, h: real, dist: (real, real) -> real)
    requires h > 0.0 && a.clientX == 0.0 && a.clientY == 0.0 && b.clientX == 2.0 * h && b.clientY == 0.0
    requires forall dx :: dist(dx, 0.0) == if dx < 0.0 then -dx else dx
    ensures AveragePoint([a, b], Point(0.0, 0.0)) == Point(h, 0.0)
    ensures AverageDistToPoint([a, b], Point(0.0, 0.0), Point(h, 0.0), dist) == h
  {
    var origin := Point(0.0, 0.0);
    assert [a, b][..1] == [a] && [a][..0] == [];
    assert SumLocal([a], origin) == Point(0.0, 0.0);
    assert SumLocal([a, b], origin) == Point(2.0 * h, 0.0);
    assert dist(h, 0.0) == h && dist(-h, 0.0) == h;
    assert SumDist([a], origin, Point(h, 0.0), dist) == h;
    assert SumDist([a, b], origin, Point(h, 0.0), dist) == 2.0 * h;
  }

  /** A tap on an unknown finger, a finger going down and lifting with nothing
      else on the surface, logs nothing and leaves the tables as they were
      without "center", with the pinch state zeroed. */
  lemma TapLeavesNoContact(s: TrackerState, t: Touch, offset: Point, dist: (real, real) -> real)
    requires Finger(t.id) !in s.lastX && Finger(t.id) !in s.lastY
    ensures var down := AfterTouchStart(s, TouchEvent([t], [t]), offset, dist);
            var up := AfterTouchEnd(down.next, TouchEvent([t], []), offset, dist);
            down.warnings == [] && up.warnings == []
            && up.next == TrackerState(s.lastX - {Center}, s.lastY - {Center}, 0.0)
  {
    var k := Finger(t.id);
    assert [t][..0] == [];
    var down := AfterTouchStart(s, TouchEvent([t], [t]), offset, dist);
    assert StoreAll(s.lastX, [t], offset, X) == s.lastX[k := Local(t, offset).x];
    assert StoreAll(s.lastY, [t], offset, Y) == s.lastY[k := Local(t, offset).y];
    assert down.next.lastX == s.lastX[k := Local(t, offset).x];
    assert down.next.lastY == s.lastY[k := Local(t, offset).y];
    assert Fingers([t][..0]) == {};
    assert down.warnings == StartWarnings(s.lastX.Keys + s.lastY.Keys, [t]) == [];
    assert RemoveAll(down.next.lastX, [t]) == down.next.lastX - {k} == s.lastX;
    assert RemoveAll(down.next.lastY, [t]) == down.next.lastY - {k} == s.lastY;
    assert EndWarnings(down.next.lastX.Keys, down.next.lastY.Keys, [t]) == [];
  }

  /** The wheel step is the sign of the browser's magnitude: 120 and -120
      (wheelDelta) give 1 and -1, and with no wheelDelta a detail of 3 gives -1. */
  lemma WheelSteps()
    ensures WheelDelta(WheelEvent(0.0, 0.0, 120, 0)) == 1
    ensures WheelDelta(WheelEvent(0.0, 0.0, -120, 0)) == -1
    ensures WheelDelta(WheelEvent(0.0, 0.0, 0, 3)) == -1
    ensures WheelDelta(WheelEvent(0.0, 0.0, 0, 0)) == 0
  {
  }
}
