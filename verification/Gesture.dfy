/** What each input handler of graph/KidneyXWeb.js does, as pure functions:
    the commands it emits to the rendering engine, the diagnostics it logs, and
    the contact tables and pinch state it leaves behind. */
module Gesture {
  import opened Geometry
  import opened Contacts

  /** The zoom factor newAvgDist / lastAvgDist; Undefined when lastAvgDist is 0,
      where the source divides by zero (Infinity or NaN). */
  datatype Ratio = Scale(factor: real) | Undefined

  /** Commands sent to the rendering engine. */
  datatype Command =
    | Click(x: real, y: real)                     // jOnClick
    | Pan(dx: real, dy: real)                     // jOnMouseMove
    | PanUndefined                                // jOnMouseMove with "center" missing (NaN deltas)
    | ZoomAbout(x: real, y: real, ratio: Ratio)   // jOnZoomAbout
    | Wheel(x: real, y: real, delta: int)         // jOnMouseWheel

  /** Consistency diagnostics the handlers log and then carry on. */
  datatype Warning =
    | DuplicateDown(id: int)                      // a location already stored for a finger going down
    | MissingOnEnd(id: int, axis: Axis)           // no stored location (on that axis) for a finger lifting

  /** A touch event: changedTouches and targetTouches. */
  datatype TouchEvent = TouchEvent(changed: seq<Touch>, targets: seq<Touch>)

  /** A mouse event: page position, the pressed button (`which`) and the movement since the last event. */
  datatype MouseEvent = MouseEvent(clientX: real, clientY: real, which: int, movementX: real, movementY: real)

  /** A wheel event: page position, `wheelDelta` (0 when the browser does not
      report it) and `detail`. */
  datatype WheelEvent = WheelEvent(clientX: real, clientY: real, wheelDelta: int, detail: int)

  /** The tracker's state: the two contact tables and the pinch state. */
  datatype TrackerState = TrackerState(lastX: map<Key, real>, lastY: map<Key, real>, lastAvgDist: real)
  {
    /** Both tables are always written together, so they share one key set;
        the average distance is never negative. */
    predicate Valid()
    {
      lastX.Keys == lastY.Keys && lastAvgDist >= 0.0
    }
  }

  /** The effect of one handler call. */
  datatype Step = Step(next: TrackerState, emitted: seq<Command>, warnings: seq<Warning>)

  // ---------------------------------------------------------------- mouse and wheel

  /** processClick: the click position in surface-local coordinates. */
  function ClickCommand(e: MouseEvent, offset: Point): (c: Command)
    ensures c.Click? && c.x + offset.x == e.clientX && c.y + offset.y == e.clientY
  {
    Click(e.clientX - offset.x, e.clientY - offset.y)
  }

  /** processMouseMove: a drag with the primary button pans by the event's own movement. */
  function MouseMoveCommands(e: MouseEvent): (cs: seq<Command>)
    ensures |cs| <= 1
    ensures cs != [] <==> e.which == 1
    ensures forall c :: c in cs ==> c == Pan(e.movementX, e.movementY)
  {
    if e.which == 1 then [Pan(e.movementX, e.movementY)] else []
  }

  /** `wheelDelta || -detail`: the browser-specific magnitude, with 0 standing
      for absent. It is 0 only when neither field reports a scroll; a reported
      `wheelDelta` wins, and `detail`, negated, is used only when it is absent. */
  function RawWheel(e: WheelEvent): (r: int)
    ensures r == 0 <==> e.wheelDelta == 0 && e.detail == 0
    ensures e.wheelDelta != 0 ==> r == e.wheelDelta
    ensures e.wheelDelta == 0 ==> r + e.detail == 0
  {
    if e.wheelDelta != 0 then e.wheelDelta else -e.detail
  }

  function Sign(v: int): int
  {
    if v > 0 then 1 else if v < 0 then -1 else 0
  }

  /** Math.max(-1, Math.min(1, raw)): on integers, the sign of the raw magnitude. */
  function WheelDelta(e: WheelEvent): (d: int)
    ensures -1 <= d <= 1
    ensures d == Sign(RawWheel(e))
  {
    var raw := RawWheel(e);
    var upper := if raw < 1 then raw else 1;
    if upper > -1 then upper else -1
  }

  /** processScroll: a unit wheel step at the surface-local cursor position. */
  function ScrollCommand(e: WheelEvent, offset: Point): (c: Command)
    ensures c.Wheel? && c.x + offset.x == e.clientX && c.y + offset.y == e.clientY
    ensures c.delta == Sign(RawWheel(e))
  {
    Wheel(e.clientX - offset.x, e.clientY - offset.y, WheelDelta(e))
  }

  // ---------------------------------------------------------------- touch

  /** resetScale: store the centroid of the target touches under "center" and
      their average distance to it as the pinch state. */
  function AfterResetScale(s: TrackerState, targets: seq<Touch>, offset: Point, dist: (real, real) -> real): (r: TrackerState)
    requires |targets| > 0
    ensures r.lastX.Keys == s.lastX.Keys + {Center} && r.lastY.Keys == s.lastY.Keys + {Center}
    ensures s.Valid() && IsDistance(dist) ==> r.Valid()
  {
    var c := AveragePoint(targets, offset);
    TrackerState(s.lastX[Center := c.x], s.lastY[Center := c.y], AverageDistToPoint(targets, offset, c, dist))
  }

  /** The warnings of the touch-start loop: touch i warns when its identifier is
      already in either table, whether from before the event (`known`) or from
      an earlier touch of the same event. */
  function StartWarnings(known: set<Key>, ts: seq<Touch>): seq<Warning>
  {
    if ts == [] then []
    else
      var n := |ts| - 1;
      StartWarnings(known, ts[..n])
        + (if Finger(ts[n].id) in known || Finger(ts[n].id) in Fingers(ts[..n]) then [DuplicateDown(ts[n].id)] else [])
  }

  /** Touch start logs nothing exactly when every changed identifier is new:
      in neither table, and not repeated within the event. */
  lemma {:induction false} StartWarningsEmpty(known: set<Key>, ts: seq<Touch>)
    ensures StartWarnings(known, ts) == [] <==>
            forall i :: 0 <= i < |ts| ==> Finger(ts[i].id) !in known && FirstOccurrence(ts, i)
  {
    if ts != [] {
      var n := |ts| - 1;
      var pre := ts[..n];
      StartWarningsEmpty(known, pre);
      FirstOccurrenceLast(ts);
      forall i | 0 <= i < n
        ensures (Finger(pre[i].id) !in known && FirstOccurrence(pre, i)) <==> (Finger(ts[i].id) !in known && FirstOccurrence(ts, i))
      {
        FirstOccurrencePrefix(ts, i);
      }
      var k := Finger(ts[n].id);
      var last := if k in known || k in Fingers(pre) then [DuplicateDown(ts[n].id)] else [];
      assert StartWarnings(known, ts) == StartWarnings(known, pre) + last;
      assert StartWarnings(known, ts) == [] <==> StartWarnings(known, pre) == [] && last == [];
    }
  }

  /** Every touch-start warning names a changed identifier. */
  lemma {:induction false} StartWarningsAbout(known: set<Key>, ts: seq<Touch>)
    ensures forall w :: w in StartWarnings(known, ts) ==> w.DuplicateDown? && Finger(w.id) in Fingers(ts)
  {
    if ts != [] {
      StartWarningsAbout(known, ts[..|ts| - 1]);
    }
  }

  /** Touch start logs at most one warning per changed touch. */
  lemma {:induction false} StartWarningsCount(known: set<Key>, ts: seq<Touch>)
    ensures |StartWarnings(known, ts)| <= |ts|
  {
    if ts != [] {
      StartWarningsCount(known, ts[..|ts| - 1]);
    }
  }

  /** One more iteration of the touch-start loop. */
  lemma StartWarningsStep(known: set<Key>, ts: seq<Touch>, i: int)
    requires 0 <= i < |ts|
    ensures StartWarnings(known, ts[..i + 1]) == StartWarnings(known, ts[..i])
      + (if Finger(ts[i].id) in known || Finger(ts[i].id) in Fingers(ts[..i]) then [DuplicateDown(ts[i].id)] else [])
  {
    assert ts[..i + 1][..i] == ts[..i];
  }

  /** The warnings of the touch-end loop: for each touch, one per table that no
      longer holds its identifier (never stored, or removed by an earlier touch
      of the same event), X first. */
  function EndWarnings(keysX: set<Key>, keysY: set<Key>, ts: seq<Touch>): seq<Warning>
  {
    if ts == [] then []
    else
      var n := |ts| - 1;
      var k := Finger(ts[n].id);
      EndWarnings(keysX, keysY, ts[..n])
        + (if k in keysX - Fingers(ts[..n]) then [] else [MissingOnEnd(ts[n].id, X)])
        + (if k in keysY - Fingers(ts[..n]) then [] else [MissingOnEnd(ts[n].id, Y)])
  }

  /** Touch end logs nothing exactly when every changed identifier is in both
      tables and not repeated within the event. */
  lemma {:induction false} EndWarningsEmpty(keysX: set<Key>, keysY: set<Key>, ts: seq<Touch>)
    ensures EndWarnings(keysX, keysY, ts) == [] <==>
            forall i :: 0 <= i < |ts| ==> Finger(ts[i].id) in keysX && Finger(ts[i].id) in keysY && FirstOccurrence(ts, i)
  {
    if ts != [] {
      var n := |ts| - 1;
      var pre := ts[..n];
      EndWarningsEmpty(keysX, keysY, pre);
      FirstOccurrenceLast(ts);
      forall i | 0 <= i < n
        ensures (Finger(pre[i].id) in keysX && Finger(pre[i].id) in keysY && FirstOccurrence(pre, i))
            <==> (Finger(ts[i].id) in keysX && Finger(ts[i].id) in keysY && FirstOccurrence(ts, i))
      {
        FirstOccurrencePrefix(ts, i);
      }
      var k := Finger(ts[n].id);
      var lastX := if k in keysX - Fingers(pre) then [] else [MissingOnEnd(ts[n].id, X)];
      var lastY := if k in keysY - Fingers(pre) then [] else [MissingOnEnd(ts[n].id, Y)];
      assert EndWarnings(keysX, keysY, ts) == EndWarnings(keysX, keysY, pre) + lastX + lastY;
      assert EndWarnings(keysX, keysY, ts) == [] <==> EndWarnings(keysX, keysY, pre) == [] && lastX == [] && lastY == [];
    }
  }

  /** Every touch-end warning names a changed identifier. */
  lemma {:induction false} EndWarningsAbout(keysX: set<Key>, keysY: set<Key>, ts: seq<Touch>)
    ensures forall w :: w in EndWarnings(keysX, keysY, ts) ==> w.MissingOnEnd? && Finger(w.id) in Fingers(ts)
  {
    if ts != [] {
      EndWarningsAbout(keysX, keysY, ts[..|ts| - 1]);
    }
  }

  /** Touch end logs at most two warnings per changed touch, one per table. */
  lemma {:induction false} EndWarningsCount(keysX: set<Key>, keysY: set<Key>, ts: seq<Touch>)
    ensures |EndWarnings(keysX, keysY, ts)| <= 2 * |ts|
  {
    if ts != [] {
      EndWarningsCount(keysX, keysY, ts[..|ts| - 1]);
    }
  }

  /** One more iteration of the touch-end loop. */
  lemma EndWarningsStep(keysX: set<Key>, keysY: set<Key>, ts: seq<Touch>, i: int)
    requires 0 <= i < |ts|
    ensures EndWarnings(keysX, keysY, ts[..i + 1]) == EndWarnings(keysX, keysY, ts[..i])
      + (if Finger(ts[i].id) in keysX - Fingers(ts[..i]) then [] else [MissingOnEnd(ts[i].id, X)])
      + (if Finger(ts[i].id) in keysY - Fingers(ts[..i]) then [] else [MissingOnEnd(ts[i].id, Y)])
  {
    assert ts[..i + 1][..i] == ts[..i];
  }

  /** processTouchStart: store every changed touch, then resynchronise the pinch
      state when more than one touch is on the surface. */
  function AfterTouchStart(s: TrackerState, e: TouchEvent, offset: Point, dist: (real, real) -> real): (r: Step)
    ensures r.emitted == []
    ensures s.Valid() && IsDistance(dist) ==> r.next.Valid()
  {
    StoreAllKeys(s.lastX, e.changed, offset, X);
    StoreAllKeys(s.lastY, e.changed, offset, Y);
    var stored := TrackerState(StoreAll(s.lastX, e.changed, offset, X), StoreAll(s.lastY, e.changed, offset, Y), s.lastAvgDist);
    var next := if |e.targets| > 1 then AfterResetScale(stored, e.targets, offset, dist) else stored;
    Step(next, [], StartWarnings(s.lastX.Keys + s.lastY.Keys, e.changed))
  }

  /** processTouchEnd: forget every changed touch; then resynchronise the pinch
      state if more than one touch remains, otherwise drop "center" and zero it. */
  function AfterTouchEnd(s: TrackerState, e: TouchEvent, offset: Point, dist: (real, real) -> real): (r: Step)
    ensures r.emitted == []
    ensures s.Valid() && IsDistance(dist) ==> r.next.Valid()
  {
    RemoveAllKeys(s.lastX, e.changed);
    RemoveAllKeys(s.lastY, e.changed);
    var removed := TrackerState(RemoveAll(s.lastX, e.changed), RemoveAll(s.lastY, e.changed), s.lastAvgDist);
    var next := if |e.targets| > 1 then AfterResetScale(removed, e.targets, offset, dist)
                else TrackerState(removed.lastX - {Center}, removed.lastY - {Center}, 0.0);
    Step(next, [], EndWarnings(s.lastX.Keys, s.lastY.Keys, e.changed))
  }

  /** The branch of processTouchMove before the refresh loop: a one-finger pan,
      or a pan of the centroid plus a zoom about it. */
  function MoveGesture(s: TrackerState, targets: seq<Touch>, offset: Point, dist: (real, real) -> real): (r: Step)
    ensures r.warnings == []
    ensures |targets| <= 1 ==> r.next == s
    ensures |targets| == 0 ==> r.emitted == []
    ensures |targets| > 1 ==> |r.emitted| == 2 && r.emitted[1].ZoomAbout?
    ensures s.Valid() && IsDistance(dist) ==> r.next.Valid()
  {
    if |targets| == 1 then
      var t := targets[0];
      var k := Finger(t.id);
      if k in s.lastX && k in s.lastY then
        var p := Local(t, offset);
        Step(s, [Pan(p.x - s.lastX[k], p.y - s.lastY[k])], [])
      else
        Step(s, [], [])
    else if |targets| > 1 then
      var c := AveragePoint(targets, offset);
      var d := AverageDistToPoint(targets, offset, c, dist);
      var pan := if Center in s.lastX && Center in s.lastY
                 then Pan(c.x - s.lastX[Center], c.y - s.lastY[Center])
                 else PanUndefined;
      var ratio := if s.lastAvgDist != 0.0 then Scale(d / s.lastAvgDist) else Undefined;
      Step(TrackerState(s.lastX[Center := c.x], s.lastY[Center := c.y], d), [pan, ZoomAbout(c.x, c.y, ratio)], [])
    else
      Step(s, [], [])
  }

  /** processTouchMove: the gesture branch, then every target touch's stored
      position is refreshed to where it is now. */
  function AfterTouchMove(s: TrackerState, e: TouchEvent, offset: Point, dist: (real, real) -> real): (r: Step)
    ensures r.warnings == []
    ensures s.Valid() && IsDistance(dist) ==> r.next.Valid()
  {
    var g := MoveGesture(s, e.targets, offset, dist).next;
    StoreAllKeys(g.lastX, e.targets, offset, X);
    StoreAllKeys(g.lastY, e.targets, offset, Y);
    var next := TrackerState(StoreAll(g.lastX, e.targets, offset, X), StoreAll(g.lastY, e.targets, offset, Y), g.lastAvgDist);
    Step(next, MoveGesture(s, e.targets, offset, dist).emitted, [])
  }
}
