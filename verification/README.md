# Gesture tracker of the KidneyX graph viewer

This project is a Dafny model of the input layer of `graph/KidneyXWeb.js`. That layer turns mouse, wheel and touch events
on the graph canvas into commands for the rendering engine:

- clicks;
- pans, from a primary-button drag, a one-finger drag or the centroid of a multi-finger drag;
- zooms about a point, from a pinch;
- unit wheel steps.

To do that it keeps three pieces of state:

- two contact tables, `lastTouchMapX` and `lastTouchMapY`, that map a finger's identifier to its last surface-local
  coordinate. The reserved key `"center"` holds the centroid of a multi-finger gesture.
- the pinch state `lastAvgDist`: the fingers' average distance to that centroid.

The model has five modules:

- `Geometry`:
  - touches and surface-local positions;
  - the centroid (`averagePoint`) and the average distance to a point (`averageDistToPoint`), as recursive sums;
  - how both behave under a rigid translation.
- `Contacts`:
  - table keys: `Center`, or `Finger(id)`, which can never collide;
  - the insert loop (`StoreAll`) and the delete loop (`RemoveAll`) the touch handlers run over each table, with their
    key sets, what they keep, and "last touch wins".
- `Gesture`: every handler as a pure function of the tracker state and the event. Each returns the next state, the
  emitted commands and the logged warnings.
- `Tracker`: the class `GestureTracker`, whose fields are the globals at lines 1-8.
  - Each handler is a method that updates the fields in place. The touch handlers use the source's own `for` loops,
    with invariants. Those loops are methods of their own (`StoreChanged`, `RemoveChanged`, `StoreTargets`), with the
    source's statements in the source's order.
  - Each method is proved to leave exactly the state the matching `Gesture` function gives, and to append exactly its
    commands and warnings.
- `Properties`: what the handlers guarantee, proved on the `Gesture` functions. This covers:
  - storing, removing and resynchronising;
  - the exact pan and zoom of a move, and the refresh of every target finger;
  - whole gestures: a one-finger drag whose pans add up to the net displacement, a rigid two-finger drag (pan by the
    displacement, zoom by 1), a concrete pinch, and a tap.

The rendering-engine calls (`jOnClick`, `jOnMouseMove`, `jOnZoomAbout`, `jOnMouseWheel`) become `Command` values
appended to the tracker's `trace`. The `console.log` diagnostics become `Warning` values appended to `warnings`. The
canvas offset is a pair of fields, set by the constructor and by `Resize`. In the source the click listener is commented
out (graph/KidneyXWeb.js:206), so `processClick` is never reached from a browser event; the model keeps the handler as
written.

## Model

| member | source | states |
|---|---|---|
| Geometry.Local | graph/KidneyXWeb.js:11-12 | the surface-local position plus the canvas offset gives back the page position |
| Geometry.SumDist | graph/KidneyXWeb.js:29-35 | the accumulated distance is never negative when the distance is non-negative |
| Geometry.AverageDistToPoint | graph/KidneyXWeb.js:28-37 | the average distance of the target touches to a point is never negative |
| Geometry.SumLocalCoincident | graph/KidneyXWeb.js:40-46 | the position sum of touches that all sit at one position is that position times their number |
| Geometry.SumLocalAbove | graph/KidneyXWeb.js:40-46 | when every touch lies strictly above m on an axis, the position sum exceeds n times m |
| Geometry.SumLocalBelow | graph/KidneyXWeb.js:40-46 | when every touch lies strictly below m on an axis, the position sum is less than n times m |
| Geometry.AveragePoint | graph/KidneyXWeb.js:39-50 | touches that all sit at one surface-local position have that position as centroid |
| Geometry.CentroidWithinTouches | graph/KidneyXWeb.js:39-50 | on each axis some touch lies at or below the centroid and some at or above it, so the centroid stays within the touches' range |
| Geometry.SumLocalShift | graph/KidneyXWeb.js:40-47 | moving every touch by d adds n times d to the accumulated position sum |
| Geometry.CentroidShift | graph/KidneyXWeb.js:39-50 | translating every touch by d translates the centroid by d |
| Geometry.SumDistShift | graph/KidneyXWeb.js:29-35 | translating the touches and the point together leaves the summed distance unchanged |
| Geometry.AverageDistShift | graph/KidneyXWeb.js:28-50 | a rigid translation keeps the average distance to the centroid |
| Contacts.Fingers | graph/KidneyXWeb.js:60-61 | the finger keys of a touch list never include the reserved "center" key and include every touch's identifier |
| Contacts.FingerIn | graph/KidneyXWeb.js:60-61 | an identifier's key is among the finger keys exactly when some touch carries that identifier |
| Contacts.StoreAllKeys | graph/KidneyXWeb.js:60-67 | StoreAll, the store loop of lines 60-67 and 128-132: its table has exactly the old keys plus the touches' identifiers |
| Contacts.StoreAllKeeps | graph/KidneyXWeb.js:60-67 | the store loop leaves every entry it does not write, "center" included, as it was |
| Contacts.StoreAllLastWins | graph/KidneyXWeb.js:65-66 | a changed identifier holds the surface-local position of its last touch in the event |
| Contacts.RemoveAllKeys | graph/KidneyXWeb.js:74-88 | RemoveAll, the delete loop: its table has exactly the old keys minus the changed identifiers, absent ones included |
| Contacts.RemoveAllKeeps | graph/KidneyXWeb.js:74-88 | every entry left after the delete loop is unchanged |
| Gesture.ClickCommand | graph/KidneyXWeb.js:10-15 | a click is reported at the position that, plus the offset, is the event's page position |
| Gesture.MouseMoveCommands | graph/KidneyXWeb.js:17-26 | a mouse move emits one pan by the event's movement when the button is 1, and nothing otherwise |
| Gesture.RawWheel | graph/KidneyXWeb.js:137 | `wheelDelta \|\| -detail` is 0 only when neither field reports a scroll, is `wheelDelta` whenever that is non-zero, and is `-detail` when `wheelDelta` is absent |
| Gesture.WheelDelta | graph/KidneyXWeb.js:137 | the clamped wheel step lies in [-1, 1] and is the sign of `wheelDelta`, or of `-detail` when `wheelDelta` is 0 |
| Gesture.ScrollCommand | graph/KidneyXWeb.js:135-147 | the wheel command carries the surface-local cursor position and the sign of the raw wheel magnitude |
| Gesture.AfterResetScale | graph/KidneyXWeb.js:52-57 | "center" is added to both tables, and the tables stay on one key set with a non-negative pinch state |
| Gesture.StartWarningsEmpty | graph/KidneyXWeb.js:60-64 | touch start logs nothing exactly when every changed identifier is in neither table and not repeated in the event |
| Gesture.StartWarningsCount | graph/KidneyXWeb.js:60-64 | StartWarnings, the touch-start diagnostics: at most one warning per changed touch |
| Gesture.StartWarningsAbout | graph/KidneyXWeb.js:62-64 | every touch-start warning is a duplicate-down warning about a changed identifier |
| Gesture.EndWarningsEmpty | graph/KidneyXWeb.js:74-88 | touch end logs nothing exactly when every changed identifier is in both tables and not repeated in the event |
| Gesture.EndWarningsCount | graph/KidneyXWeb.js:74-88 | EndWarnings, the touch-end diagnostics: at most two warnings per changed touch, one per table |
| Gesture.EndWarningsAbout | graph/KidneyXWeb.js:79-87 | every touch-end warning is a missing-location warning about a changed identifier |
| Gesture.AfterTouchStart | graph/KidneyXWeb.js:59-71 | touch start emits no command and keeps the tables on one key set with a non-negative pinch state |
| Gesture.AfterTouchEnd | graph/KidneyXWeb.js:73-96 | touch end emits no command and keeps the tables on one key set with a non-negative pinch state |
| Gesture.MoveGesture | graph/KidneyXWeb.js:100-126 | no warnings; no target emits nothing; at most one target leaves the state as it is; several targets emit two commands, ending with a zoom; the table invariant is kept |
| Gesture.AfterTouchMove | graph/KidneyXWeb.js:98-133 | a move logs nothing and keeps the tables on one key set with a non-negative pinch state |
| Tracker.GestureTracker.constructor | graph/KidneyXWeb.js:1-8 | empty tables, zero pinch state, the given offset, and empty trace and warnings |
| Tracker.GestureTracker.Resize | graph/KidneyXWeb.js:187-194 | only the canvas offset changes |
| Tracker.GestureTracker.ProcessClick | graph/KidneyXWeb.js:10-15 | appends exactly the click command for the event |
| Tracker.GestureTracker.ProcessMouseMove | graph/KidneyXWeb.js:17-26 | appends exactly the mouse-move commands for the event |
| Tracker.GestureTracker.ProcessScroll | graph/KidneyXWeb.js:135-147 | appends exactly the wheel command for the event and returns false |
| Tracker.GestureTracker.ResetScale | graph/KidneyXWeb.js:52-57 | the new tables and pinch state are those of the resetScale function; the invariant is kept |
| Tracker.GestureTracker.StoreChanged | graph/KidneyXWeb.js:60-67 | the loop leaves both tables as the store fold of the changed touches and appends exactly their duplicate warnings |
| Tracker.GestureTracker.ProcessTouchStart | graph/KidneyXWeb.js:59-71 | the new state and warnings are exactly those of the touch-start function; the invariant is kept |
| Tracker.GestureTracker.RemoveChanged | graph/KidneyXWeb.js:74-88 | the loop leaves both tables as the delete fold of the changed touches and appends exactly their missing-location warnings |
| Tracker.GestureTracker.ProcessTouchEnd | graph/KidneyXWeb.js:73-96 | the delete loop and the center reset leave exactly the touch-end function's state and warnings; the invariant is kept |
| Tracker.GestureTracker.StoreTargets | graph/KidneyXWeb.js:128-132 | the refresh loop leaves both tables as the store fold of the target touches |
| Tracker.GestureTracker.ProcessTouchMove | graph/KidneyXWeb.js:98-133 | the new state and the appended commands are exactly those of the touch-move function; the invariant is kept |
| Properties.TouchStartStores | graph/KidneyXWeb.js:60-67 | a changed finger ends up stored, in both tables, at its surface-local position; the last touch wins on a repeat |
| Properties.TouchStartKeys | graph/KidneyXWeb.js:59-71 | touch start adds exactly the changed identifiers (and "center" with several targets) and keeps every other finger's entry |
| Properties.TouchStartWarnings | graph/KidneyXWeb.js:60-64 | touch start warns if and only if some changed identifier is already stored or repeated, and only about changed identifiers |
| Properties.TouchStartResyncs | graph/KidneyXWeb.js:68-70 | with several targets, "center" is their centroid and the pinch state their average distance to it; otherwise both are unchanged |
| Properties.ResetScaleIdempotent | graph/KidneyXWeb.js:52-57 | resetting twice with the same touches equals resetting once, and no finger entry changes |
| Properties.TouchEndRemoves | graph/KidneyXWeb.js:73-96 | touch end removes exactly the changed identifiers, keeps "center" only with several targets, and keeps remaining entries |
| Properties.TouchEndWarnings | graph/KidneyXWeb.js:74-88 | touch end warns if and only if some changed identifier is missing from a table or repeated, and only about changed identifiers |
| Properties.TouchEndClearsCenter | graph/KidneyXWeb.js:89-95 | at most one target: "center" is absent from both tables and the pinch state is 0; otherwise both are resynchronised |
| Properties.SingleTouchMovePan | graph/KidneyXWeb.js:100-108 | one target emits a pan if and only if its identifier is in both tables; stored position plus pan is the current position, which is then stored |
| Properties.MultiTouchMovePanZoom | graph/KidneyXWeb.js:109-126 | several targets pan by the centroid's displacement (undefined without "center"), zoom about the new centroid by new/old average distance (undefined when old is 0), and store both |
| Properties.MultiTouchPanUndefined | graph/KidneyXWeb.js:109-115 | when both tables share one key set, a multi-finger move pans by an undefined amount exactly when "center" is not stored |
| Properties.TouchMoveRefreshesTargets | graph/KidneyXWeb.js:128-132 | after a move every target finger is stored at its current surface-local position |
| Properties.TouchMoveKeys | graph/KidneyXWeb.js:98-133 | a move adds exactly the target identifiers (and "center" with several targets) and keeps every other finger's entry |
| Properties.MoveRunLast | graph/KidneyXWeb.js:100-108 | one more sample of a stored finger emits one pan from its stored position to the sample and then stores the sample |
| Properties.SingleFingerRunPans | graph/KidneyXWeb.js:98-133 | a one-finger drag logs nothing, emits one pan per sample and leaves the finger stored at its last sample |
| Properties.SingleFingerPansTelescope | graph/KidneyXWeb.js:100-108 | the pans of a one-finger drag sum to the finger's net displacement |
| Properties.RigidDragUnitZoom | graph/KidneyXWeb.js:109-126 | a rigid drag by d from a synchronised state emits a pan by exactly d and a zoom by exactly 1 about the new centroid |
| Properties.PinchDown | graph/KidneyXWeb.js:59-71 | fingers down at (0,0) then (10,0): no warnings, "center" at (5,0), pinch state 5 |
| Properties.PinchScenario | graph/KidneyXWeb.js:98-126 | after that, moving the second finger to (20,0) emits a pan by (5,0) and a zoom by 2 about (10,0) |
| Properties.TapLeavesNoContact | graph/KidneyXWeb.js:59-96 | a tap of an unknown finger logs nothing and leaves the tables as they were, without "center", with pinch state 0 |
| Properties.WheelSteps | graph/KidneyXWeb.js:137 | `wheelDelta` 120 and -120 give 1 and -1, a `detail` of 3 without `wheelDelta` gives -1, and nothing gives 0 |

## Left out

- The per-touch distance `Math.sqrt` (graph/KidneyXWeb.js:34) is a parameter `dist` of the coordinate differences. The
  model uses only that it is non-negative; the pinch scenario requires only that `dist(d, 0) = |d|`.
- Floating point: coordinates and distances are reals, so rounding is not modelled.
- A zoom ratio of `newAvgDist / 0` (Infinity or NaN in the source) is the value `Undefined`.
- A pan taken when "center" is missing from either table is the single command `PanUndefined`. In the source, only the
  coordinate whose entry is missing is NaN.
- The rendering engine is foreign code. Only the four gesture calls (`jOnClick`, `jOnMouseMove`, `jOnZoomAbout`,
  `jOnMouseWheel`) are recorded, as `Command` values in order. `jDrawScene`, `jUpdate`, `jSetupGL` and `jResize` are
  not modelled.
- `console.log` calls that only echo values (positions, the zoom ratio, the wheel event and step) are not modelled.
  The diagnostics that report an inconsistency are recorded as `Warning` values.
- `event.preventDefault()` (graph/KidneyXWeb.js:99, 143-145) is a browser side effect and is not modelled. The wheel
  handler's `false` return value is modelled.
- `wheelDelta || -detail`: a missing or zero `wheelDelta` is the integer 0. Browser-specific non-integer magnitudes are
  not modelled.
- Several parts are browser plumbing and are not modelled:
  - the animation-frame polyfills and the `tick` loop (graph/KidneyXWeb.js:152-185);
  - DOM sizing and listener registration in `resizeCanvas`, `onStart` and `onGWTModuleLoaded`
    (graph/KidneyXWeb.js:187-224).
  
  `Resize` models only the offset update.
- The handlers decide between one finger and several from the event's target list, not from the tables. The model
  follows the code. So "center is stored exactly when two or more contacts are active" holds only when the browser's
  target lists agree with the tables; it is not an invariant of the model.
