/** The gesture tracker of graph/KidneyXWeb.js as an object: the global tables
    lastTouchMapX / lastTouchMapY, lastAvgDist and the canvas offset become
    fields, and each event handler a method that updates them in place. Every
    handler is proved to leave exactly the state the matching function of
    module Gesture describes. */
module Tracker {
  import opened Geometry
  import opened Contacts
  import opened Gesture

  class GestureTracker {
    /** Last surface-local x (resp. y) per finger, plus the centroid under Center. */
    var lastX: map<Key, real>
    var lastY: map<Key, real>
    /** Average finger distance to the centroid at the last sample. */
    var lastAvgDist: real
    /** The canvas's page offset (graphCanvasOffsetX / graphCanvasOffsetY). */
    var offsetX: real
    var offsetY: real
    /** Commands sent to the rendering engine so far, oldest first. */
    var trace: seq<Command>
    /** Diagnostics logged so far, oldest first. */
    var warnings: seq<Warning>
    /** The distance between two points, given their coordinate differences. */
    const dist: (real, real) -> real

    function State(): TrackerState
      reads this`lastX, this`lastY, this`lastAvgDist
    {
      TrackerState(lastX, lastY, lastAvgDist)
    }

    function Offset(): Point
      reads this`offsetX, this`offsetY
    {
      Point(offsetX, offsetY)
    }

    ghost predicate Valid()
      reads this
    {
      State().Valid() && IsDistance(dist)
    }

    /** Empty tables and a zero pinch state (lines 5-8); the offset is the
        canvas position at start-up. */
    constructor (offsetX: real, offsetY: real, dist: (real, real) -> real)
      requires IsDistance(dist)
      ensures Valid()
      ensures lastX == map[] && lastY == map[] && lastAvgDist == 0.0
      ensures this.offsetX == offsetX && this.offsetY == offsetY && this.dist == dist
      ensures trace == [] && warnings == []
    {
      lastX, lastY, lastAvgDist := map[], map[], 0.0;
      this.offsetX, this.offsetY := offsetX, offsetY;
      this.dist := dist;
      trace, warnings := [], [];
    }

    /** The canvas moved (resizeCanvas): only the offset changes. */
    method Resize(offsetX: real, offsetY: real)
      requires Valid()
      modifies this`offsetX, this`offsetY
      ensures Valid()
      ensures this.offsetX == offsetX && this.offsetY == offsetY
    {
      this.offsetX, this.offsetY := offsetX, offsetY;
    }

    method ProcessClick(e: MouseEvent)
      modifies this`trace
      ensures trace == old(trace) + [ClickCommand(e, Offset())]
    {
      var adjustX := e.clientX - offsetX;
      var adjustY := e.clientY - offsetY;
      trace := trace + [Click(adjustX, adjustY)];
    }

    method ProcessMouseMove(e: MouseEvent)
      modifies this`trace
      ensures trace == old(trace) + MouseMoveCommands(e)
    {
      if e.which == 1 {
        trace := trace + [Pan(e.movementX, e.movementY)];
      }
    }

    /** Returns false, as the handler does to cancel the page's own scrolling. */
    method ProcessScroll(e: WheelEvent) returns (result: bool)
      modifies this`trace
      ensures trace == old(trace) + [ScrollCommand(e, Offset())]
      ensures !result
    {
      var raw := if e.wheelDelta != 0 then e.wheelDelta else -e.detail;
      var delta := if raw < 1 then raw else 1;
      delta := if delta > -1 then delta else -1;
      var adjustX := e.clientX - offsetX;
      var adjustY := e.clientY - offsetY;
      trace := trace + [Wheel(adjustX, adjustY, delta)];
      result := false;
    }

    method ResetScale(targets: seq<Touch>)
      requires Valid() && |targets| > 0
      modifies this`lastX, this`lastY, this`lastAvgDist
      ensures Valid()
      ensures State() == AfterResetScale(old(State()), targets, Offset(), dist)
    {
      var center := AveragePoint(targets, Offset());
      lastX := lastX[Center := center.x];
      lastY := lastY[Center := center.y];
      lastAvgDist := AverageDistToPoint(targets, Offset(), center, dist);
    }

    /** The loop of the touch-start handler: each changed touch, in order, is
        written into both tables, with a warning when its identifier is already
        there (from before the event, `known`, or from an earlier touch). */
    method StoreChanged(changed: seq<Touch>, ghost known: set<Key>)
      requires known == lastX.Keys + lastY.Keys
      modifies this`lastX, this`lastY, this`warnings
      ensures lastX == StoreAll(old(lastX), changed, Offset(), X)
      ensures lastY == StoreAll(old(lastY), changed, Offset(), Y)
      ensures warnings == old(warnings) + StartWarnings(known, changed)
    {
      var i := 0;
      while i < |changed|
        invariant 0 <= i <= |changed|
        invariant lastX == StoreAll(old(lastX), changed[..i], Offset(), X)
        invariant lastY == StoreAll(old(lastY), changed[..i], Offset(), Y)
        invariant warnings == old(warnings) + StartWarnings(known, changed[..i])
      {
        var t := changed[i];
        var k := Finger(t.id);
        StoreAllStep(old(lastX), changed, Offset(), X, i);
        StoreAllStep(old(lastY), changed, Offset(), Y, i);
        StoreAllKeys(old(lastX), changed[..i], Offset(), X);
        StoreAllKeys(old(lastY), changed[..i], Offset(), Y);
        StartWarningsStep(known, changed, i);
        if k in lastX || k in lastY {
          warnings := warnings + [DuplicateDown(t.id)];
        }
        lastX := lastX[k := t.clientX - offsetX];
        lastY := lastY[k := t.clientY - offsetY];
        i := i + 1;
      }
      assert changed[..i] == changed;
    }

    method ProcessTouchStart(e: TouchEvent)
      requires Valid()
      modifies this`lastX, this`lastY, this`lastAvgDist, this`warnings
      ensures Valid()
      ensures State() == AfterTouchStart(old(State()), e, Offset(), dist).next
      ensures warnings == old(warnings) + AfterTouchStart(old(State()), e, Offset(), dist).warnings
    {
      ghost var known := lastX.Keys + lastY.Keys;
      StoreChanged(e.changed, known);
      StoreAllKeys(old(lastX), e.changed, Offset(), X);
      StoreAllKeys(old(lastY), e.changed, Offset(), Y);
      if |e.targets| > 1 {
        ResetScale(e.targets);
      }
    }

    /** The loop of the touch-end handler: each changed identifier is deleted
        from each table that holds it, with a warning for each table that does not. */
    method RemoveChanged(changed: seq<Touch>)
      modifies this`lastX, this`lastY, this`warnings
      ensures lastX == RemoveAll(old(lastX), changed)
      ensures lastY == RemoveAll(old(lastY), changed)
      ensures warnings == old(warnings) + EndWarnings(old(lastX).Keys, old(lastY).Keys, changed)
    {
      var i := 0;
      while i < |changed|
        invariant 0 <= i <= |changed|
        invariant lastX == RemoveAll(old(lastX), changed[..i])
        invariant lastY == RemoveAll(old(lastY), changed[..i])
        invariant warnings == old(warnings) + EndWarnings(old(lastX).Keys, old(lastY).Keys, changed[..i])
      {
        var t := changed[i];
        var k := Finger(t.id);
        RemoveAllStep(old(lastX), changed, i);
        RemoveAllStep(old(lastY), changed, i);
        RemoveAllKeys(old(lastX), changed[..i]);
        RemoveAllKeys(old(lastY), changed[..i]);
        EndWarningsStep(old(lastX).Keys, old(lastY).Keys, changed, i);
        if k in lastX {
          lastX := lastX - {k};
        } else {
          warnings := warnings + [MissingOnEnd(t.id, X)];
        }
        if k in lastY {
          lastY := lastY - {k};
        } else {
          warnings := warnings + [MissingOnEnd(t.id, Y)];
        }
        i := i + 1;
      }
      assert changed[..i] == changed;
    }

    method ProcessTouchEnd(e: TouchEvent)
      requires Valid()
      modifies this`lastX, this`lastY, this`lastAvgDist, this`warnings
      ensures Valid()
      ensures State() == AfterTouchEnd(old(State()), e, Offset(), dist).next
      ensures warnings == old(warnings) + AfterTouchEnd(old(State()), e, Offset(), dist).warnings
    {
      RemoveChanged(e.changed);
      RemoveAllKeys(old(lastX), e.changed);
      RemoveAllKeys(old(lastY), e.changed);
      if |e.targets| > 1 {
        ResetScale(e.targets);
      } else {
        lastX := lastX - {Center};
        lastY := lastY - {Center};
        lastAvgDist := 0.0;
      }
    }

    /** The refresh loop of the touch-move handler: every target touch's
        current surface-local position is written into both tables. */
    method StoreTargets(targets: seq<Touch>)
      modifies this`lastX, this`lastY
      ensures lastX == StoreAll(old(lastX), targets, Offset(), X)
      ensures lastY == StoreAll(old(lastY), targets, Offset(), Y)
    {
      var i := 0;
      while i < |targets|
        invariant 0 <= i <= |targets|
        invariant lastX == StoreAll(old(lastX), targets[..i], Offset(), X)
        invariant lastY == StoreAll(old(lastY), targets[..i], Offset(), Y)
      {
        var t := targets[i];
        StoreAllStep(old(lastX), targets, Offset(), X, i);
        StoreAllStep(old(lastY), targets, Offset(), Y, i);
        lastX := lastX[Finger(t.id) := t.clientX - offsetX];
        lastY := lastY[Finger(t.id) := t.clientY - offsetY];
        i := i + 1;
      }
      assert targets[..i] == targets;
    }

    method ProcessTouchMove(e: TouchEvent)
      requires Valid()
      modifies this`lastX, this`lastY, this`lastAvgDist, this`trace
      ensures Valid()
      ensures State() == AfterTouchMove(old(State()), e, Offset(), dist).next
      ensures trace == old(trace) + AfterTouchMove(old(State()), e, Offset(), dist).emitted
    {
      var targets := e.targets;
      if |targets| == 1 {
        var t := targets[0];
        var k := Finger(t.id);
        if k in lastX && k in lastY {
          var deltaX := (t.clientX - offsetX) - lastX[k];
          var deltaY := (t.clientY - offsetY) - lastY[k];
          trace := trace + [Pan(deltaX, deltaY)];
        }
      } else if |targets| > 1 {
        var newCenter := AveragePoint(targets, Offset());
        var newAvgDist := AverageDistToPoint(targets, Offset(), newCenter, dist);
        if Center in lastX && Center in lastY {
          trace := trace + [Pan(newCenter.x - lastX[Center], newCenter.y - lastY[Center])];
        } else {
          trace := trace + [PanUndefined];
        }
        var ratio := if lastAvgDist != 0.0 then Scale(newAvgDist / lastAvgDist) else Undefined;
        trace := trace + [ZoomAbout(newCenter.x, newCenter.y, ratio)];
        lastAvgDist := newAvgDist;
        lastX := lastX[Center := newCenter.x];
        lastY := lastY[Center := newCenter.y];
      }
      assert State() == MoveGesture(old(State()), targets, Offset(), dist).next;
      assert trace == old(trace) + MoveGesture(old(State()), targets, Offset(), dist).emitted;
      StoreTargets(targets);
      assert State() == AfterTouchMove(old(State()), e, Offset(), dist).next;
    }
  }
}
