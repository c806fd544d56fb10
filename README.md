# Image viewer input: event normalisation and gesture interpretation

A model, in Dafny, of the two pieces of the image viewer (`shri2017.imageViewer`) that turn raw
input into changes of the view:

- **`EventManager`** (`src/event-manager/event-manager.js`, module `Input`). It normalises mouse,
  touch, pointer and wheel events into one canonical event: a kind, a target point in the
  element's coordinates, a distance between two contacts, a wheel delta and a pointer type.
  - The `EVENTS` table gives each raw type its kind; it lives in module `Canonical`.
  - Pointer events go through a table of the active pointers, keyed by pointer id. Class
    `EventManager` updates that table in place.
  - With two or more pointers, the target is the midpoint of the first two keys of the table,
    and the distance is theirs.
  - The midpoint and the distance are in module `Geometry`.
- **`Controller`** (`src/gesture-controller/gesture-controller.js`, module `Gestures`). It reads
  the canonical events and does the following:
  - it keeps a history of their kinds and two gesture flags (one-finger zoom and pinch);
  - it keeps an anchor: the view state and the event at the last non-move event;
  - it recognises a double tap, a pinch and a one-finger zoom from the history;
  - it drives the view's pan offset, scale and pivot.

  Every zoom goes through `_scale`. It is modelled as the function `ScaleAbout` and the method
  `Controller.Scale`. It keeps the image point under the pivot fixed.

How the model is built:
- Each handler of the class `Controller` is a method that updates the fields as the source
  does.
- `HandleEvent` (`_eventHandler`) is proved equal to the pure function `Step`. `Step` is the
  source's four phases written as functions:
  - `Record`: append the kind and catch a double tap;
  - `Escalate`: catch a pinch, then a one-finger zoom;
  - `Dispatch`: run the gesture of a move, or anchor any other event;
  - `Settle`: lower the flags on an end, and zoom on a wheel event.
- The lemmas about the gestures are stated over `Step`.

Some things the model takes as parameters or constants:
- the element's offset (`getBoundingClientRect`);
- `Math.sqrt`, a function `sqrt` of which the model only assumes that it returns the
  non-negative square root;
- the `window.PointerEvent` test, a constant of the controller.

Where the behaviour one might expect differs from what the code does, the model follows the code:
- **Order of the first two pointers.** `Object.keys` lists non-negative integer keys in ascending
  order, so the first two pointers are the two with the smallest ids, not the two that arrived first
  (`Input.ObjectKeys`, `Input.FirstTwoKeys`).
- **Target of an `end`.** The target of a pointer `end` is computed after the released pointer
  has been removed. Lifting the last pointer falls back on the event's own position
  (`Input.LastRelease`).
- **The two gesture flags can both be up** (`Gestures.FlagsNotExclusive`).
- **Pivot of a one-finger zoom.** It is the current event's target point, not the anchor's
  (`Gestures.OneFingerMove`).
- **The double-tap pattern allows moves inside the first tap** (`Gestures.DragThenTap`).
- **The one-finger guard.** Without Pointer Events, it drops every one-finger zoom, because the
  mouse and touch paths never set a pointer type. With Pointer Events it drops none
  (`Gestures.OneFingerNeedsPointerEvents`).
- **The scale can become zero or negative.** Nothing keeps the scale positive: a large wheel
  delta or a long one-finger drag can take it to zero or below. The model assumes no positive
  scale. It requires only what `_scale` divides by: a non-zero scaled width and height.

## Model

| member | source | states |
|---|---|---|
| `Geometry.Relative` | src/event-manager/event-manager.js:172-173 | the surface-local point plus the element offset is the client point |
| `Geometry.Distance` | src/event-manager/event-manager.js:257-262 | `_calculateDistance` is the non-negative square root of the sum of the squared coordinate differences |
| `Geometry.DistanceZero` | src/event-manager/event-manager.js:257-262 | the distance is non-negative and zero exactly when the two contacts coincide |
| `Geometry.SquaredDistanceZero` | src/event-manager/event-manager.js:258-261 | the radicand is non-negative and zero exactly when the two contacts coincide |
| `Geometry.DistanceSymmetric` | src/event-manager/event-manager.js:257-262 | the distance does not depend on the order of the two contacts |
| `Geometry.DistanceAnyRoot` | src/event-manager/event-manager.js:258 | any two square-root functions give the same distance, so the result does not hinge on how `Math.sqrt` is modelled |
| `Geometry.Midpoint` | src/event-manager/event-manager.js:250-255 | `_calculateTargetPoint`: each coordinate is the mean of the two contacts' coordinates; its properties are `MidpointSymmetric` and `MidpointHalfway` |
| `Geometry.MidpointSymmetric` | src/event-manager/event-manager.js:250-255 | `_calculateTargetPoint` does not depend on the order of the two contacts |
| `Geometry.MidpointHalfway` | src/event-manager/event-manager.js:250-255 | the target point lies halfway between the two contacts on each axis |
| `Canonical.Events` | src/event-manager/event-manager.js:4-20 | the `EVENTS` lookup gives no kind exactly for a type the table does not list |
| `Canonical.EventsClassify` | src/event-manager/event-manager.js:4-20 | `EVENTS` maps the press types to start, the move types to move, up/end/cancel types to end and wheel to wheel, each as an if-and-only-if; every other type has no kind |
| `Input.LeastExists` | src/event-manager/event-manager.js:209 | every non-empty table of pointer ids has a smallest id |
| `Input.LeastBelow` | src/event-manager/event-manager.js:209 | a set of ids with a member at most `n` has a least element (the induction behind `LeastExists`) |
| `Input.Least` | src/event-manager/event-manager.js:211 | the smallest id is in the set and below every other |
| `Input.ObjectKeys` | src/event-manager/event-manager.js:209-216 | `Object.keys` of the table lists every id exactly once, in strictly ascending order |
| `Input.SecondLeast` | src/event-manager/event-manager.js:216 | the second id is in the set, above the least and below every other |
| `Input.FirstTwoKeys` | src/event-manager/event-manager.js:214-216 | the first two keys are the smallest and second-smallest ids |
| `Input.Pair` | src/event-manager/event-manager.js:214-230 | two contacts give their midpoint and the square root of their squared distance |
| `Input.Aggregate` | src/event-manager/event-manager.js:205-236 | an empty table gives the event's own position and distance 1; one pointer gives its position and distance 1; two or more give the midpoint and distance of the two smallest ids |
| `Input.TableAfter` | src/event-manager/event-manager.js:193-203 | the pointer table after an event: pointerdown and pointermove store the position, pointerup and pointercancel delete the id, other types leave it; what this means for each id is proved in `TableUpdate` |
| `Input.TableUpdate` | src/event-manager/event-manager.js:193-203 | pointerdown and pointermove set the id's entry to the event's position, pointerup and pointercancel delete it, any other type leaves the table, and no other id's entry changes |
| `Input.PointerOutput` | src/event-manager/event-manager.js:185-246 | the handler emits nothing exactly for a type outside `EVENTS` |
| `Input.EventManager.constructor` | src/event-manager/event-manager.js:22-30 | a new manager tracks no pointer and has no document listeners attached |
| `Input.EventManager.Track` | src/event-manager/event-manager.js:193-203 | the table becomes `TableAfter` of the old one; the document listeners stay attached exactly while some pointer is tracked |
| `Input.EventManager.HandlePointer` | src/event-manager/event-manager.js:182-248 | an unlisted type changes nothing and emits nothing; otherwise the table is updated and the event carries the kind, the aggregated target minus the offset, the distance and the pointer type; the listener invariant is kept |
| `Input.MouseEvent` | src/event-manager/event-manager.js:89-112 | a mouse event has the kind from `EVENTS`, the cursor minus the offset as target and distance 1, with no delta and no pointer type |
| `Input.WheelEvent` | src/event-manager/event-manager.js:114-131 | a wheel event passes `deltaY` through unchanged, targets the cursor minus the offset and carries no distance |
| `Input.TouchEvent` | src/event-manager/event-manager.js:133-180 | one touch gives its position and distance 1; two or more give the midpoint and distance of the first two; `changedTouches` is read once `touches` is empty |
| `Input.OtherPointerIgnored` | src/event-manager/event-manager.js:214-230 | pressing or moving a pointer other than the two smallest ids, when it is a later id or already tracked, does not change the target or the distance |
| `Input.OtherReleaseIgnored` | src/event-manager/event-manager.js:196-230 | releasing a pointer other than the two smallest ids does not change the target or the distance |
| `Input.TwoContactsAgree` | src/event-manager/event-manager.js:214-230 | only the positions of the two smallest ids decide the aggregate |
| `Input.ReleaseLowestRepairs` | src/event-manager/event-manager.js:196-230 | with three pointers, lifting the lowest id moves the target to the midpoint of the other two and the distance to theirs |
| `Input.FirstPress` | src/event-manager/event-manager.js:193-213 | a press on an empty table emits a start at the press, with distance 1 |
| `Input.LastRelease` | src/event-manager/event-manager.js:196-239 | lifting the only pointer empties the table and emits an end at the event's own position, with distance 1 |
| `Input.TouchIgnoresExtra` | src/event-manager/event-manager.js:155-170 | touches after the second do not affect the touch event |
| `Input.SingleContactAgrees` | src/event-manager/event-manager.js:102-239 | one finger, seen through the mouse, touch or pointer path, gives the same target and distance |
| `Gestures.ScaleAbout` | src/gesture-controller/gesture-controller.js:131-163 | `_scale`: the new view has the requested scale and the target as pivot; its positions keep the image point under the pivot (`ScalePivot`, `PivotFixed`) |
| `Gestures.ScalePivot` | src/gesture-controller/gesture-controller.js:131-163 | `_scale` sets the new scale and the target as pivot, and (pivot − position′) · scale = (pivot − position) · newScale on both axes |
| `Gestures.RepositionPivot` | src/gesture-controller/gesture-controller.js:136-154 | one axis of the repositioning keeps the pivot's offset proportional to the scale |
| `Gestures.PivotFixed` | src/gesture-controller/gesture-controller.js:131-163 | the image coordinate under the pivot, (pivot − position) / scale, is the same before and after a zoom |
| `Gestures.RepositionFixed` | src/gesture-controller/gesture-controller.js:136-154 | one axis of the pivot invariance, in quotient form |
| `Gestures.SameScaleStill` | src/gesture-controller/gesture-controller.js:131-163 | zooming to the current scale leaves the position unchanged |
| `Gestures.ZoomsCompose` | src/gesture-controller/gesture-controller.js:131-163 | two zooms about one pivot end where a single zoom to the final scale does |
| `Gestures.RepositionCompose` | src/gesture-controller/gesture-controller.js:136-154 | one axis of `ZoomsCompose` |
| `Gestures.DoubleTap` | src/gesture-controller/gesture-controller.js:44 | the regular expression `start.+end start.+end` over the history: some position `j` with `end` at `j` and `start` at `j+1`, a `start` before `j` and an `end` at `j+2` or later |
| `Gestures.OneFinger` | src/gesture-controller/gesture-controller.js:56 | the regular expression `start.+end start move` over the history: some position `j` with `end`, `start`, `move` at `j`, `j+1`, `j+2` and a `start` before `j` |
| `Gestures.Step` | src/gesture-controller/gesture-controller.js:29-85 | `_eventHandler` as a function of the session and the event: `Record`, `Escalate`, `Dispatch` and `Settle` in the order of lines 41-84; its properties are the lemmas below |
| `Gestures.StepQuiet` | src/gesture-controller/gesture-controller.js:41-59 | after any event the kept history matches neither the double-tap nor the one-finger pattern |
| `Gestures.RecordHistory` | src/gesture-controller/gesture-controller.js:41-47 | after the double-tap check the history is empty or holds no double tap |
| `Gestures.EscalateHistory` | src/gesture-controller/gesture-controller.js:49-59 | after the pinch and one-finger checks the history is empty, or unchanged and without the one-finger pattern; it is empty whenever a pinch starts or the one-finger pattern is present |
| `Gestures.DoubleTapOnlyOnEnd` | src/gesture-controller/gesture-controller.js:41-47 | appending any kind but `end` completes no double tap the history did not already hold |
| `Gestures.OneFingerOnlyOnMove` | src/gesture-controller/gesture-controller.js:55-59 | appending any kind but `move` completes no one-finger pattern the history did not already hold |
| `Gestures.DoubleTapZoom` | src/gesture-controller/gesture-controller.js:41-79 | a double tap comes on an end: it zooms in by 0.2 about the event's target, empties the history, lowers both flags and anchors the zoomed view |
| `Gestures.HistoryAfterStep` | src/gesture-controller/gesture-controller.js:41-59 | after an event the history is the old one with the kind appended, or empty exactly when the event completes a double tap, starts a pinch or completes the one-finger pattern |
| `Gestures.FlagsAfterStep` | src/gesture-controller/gesture-controller.js:49-79 | after an event the pinch flag is up exactly when the event is not an end and the flag was up or the event starts a pinch; an end lowers the one-finger flag, and only an end does |
| `Gestures.OneFingerFlagAfterStep` | src/gesture-controller/gesture-controller.js:49-79 | the one-finger flag is up after an event exactly when the event is not an end and the flag was up, or the appended kind completes `start.+end start move` and no pinch starts on the same event |
| `Gestures.AnchorAfterStep` | src/gesture-controller/gesture-controller.js:61-73 | a move keeps the anchor; a start or wheel anchors the view as it was; an end anchors the view after any double-tap zoom |
| `Gestures.PinchMove` | src/gesture-controller/gesture-controller.js:49-64 | a move while pinching, or the move that starts a pinch, zooms about its target to anchor scale × distance / anchor distance |
| `Gestures.OneFingerMove` | src/gesture-controller/gesture-controller.js:55-99 | a one-finger move, including the move completing the pattern, zooms about the event's target to anchor scale + vertical travel / 500, unless the guard drops it |
| `Gestures.OneFingerNeedsPointerEvents` | src/gesture-controller/gesture-controller.js:87-92 | without Pointer Events, a one-finger move from the mouse or touch path never changes the view |
| `Gestures.DragMove` | src/gesture-controller/gesture-controller.js:55-69 | a move with no zoom under way or starting drags from the anchor and keeps its kind in the history |
| `Gestures.WheelStep` | src/gesture-controller/gesture-controller.js:70-107 | a wheel event anchors the view as it was, then zooms about the cursor to scale − deltaY / 500 |
| `Gestures.TapStep` | src/gesture-controller/gesture-controller.js:40-73 | a tap completing no pattern only records its kind and anchors the view |
| `Gestures.DoubleTapScenario` | src/gesture-controller/gesture-controller.js:40-79 | start, end, start, end at one point from an empty history zoom in by 0.2 about that point and empty the history |
| `Gestures.SecondTap` | src/gesture-controller/gesture-controller.js:40-79 | after start, end, a second tap at one point zooms in by 0.2 about it and empties the history |
| `Gestures.NoPatternYet` | src/gesture-controller/gesture-controller.js:44 | start, end, start matches neither pattern |
| `Gestures.TwoTaps` | src/gesture-controller/gesture-controller.js:44 | start, end, start, end matches the double-tap pattern |
| `Gestures.DragThenTap` | src/gesture-controller/gesture-controller.js:44-59 | start, move, end, start, end matches the double-tap pattern and not the one-finger one |
| `Gestures.FirstTap` | src/gesture-controller/gesture-controller.js:40-73 | from an empty history a start and an end at one point leave the view unchanged and the history `[start, end]` |
| `Gestures.DebounceExpiry` | src/gesture-controller/gesture-controller.js:33-47 | when the timer empties the history after a first tap, a second tap leaves the view unchanged (where `SecondTap` zooms) and the history holds only the new tap |
| `Gestures.FlagsNotExclusive` | src/gesture-controller/gesture-controller.js:49-59 | a pinch starting during a one-finger zoom leaves both flags up |
| `Gestures.PinchExample` | src/gesture-controller/gesture-controller.js:116-121 | from scale 1, spreading from 100 to 150 zooms to 1.5 |
| `Gestures.WheelDirection` | src/gesture-controller/gesture-controller.js:101-107 | a positive delta zooms out and a negative one zooms in |
| `Gestures.Dragged` | src/gesture-controller/gesture-controller.js:109-114 | the image moves from the anchor's position by exactly the travel of the target point since the anchor, on each axis; scale and pivot are kept |
| `Gestures.DragBack` | src/gesture-controller/gesture-controller.js:109-114 | a drag depends only on the anchor and the current target, keeps scale and pivot, and dragging back to the anchor's target restores its position |
| `Gestures.DragExample` | src/gesture-controller/gesture-controller.js:109-114 | grabbing at (10, 10) with the image at the origin and moving to (15, 18) puts it at (5, 8) |
| `Gestures.Controller.constructor` | src/gesture-controller/gesture-controller.js:8-22 | a new controller has an empty history, both flags down and no anchor |
| `Gestures.Controller.ClearHistory` | src/gesture-controller/gesture-controller.js:33-38 | the debounce timer empties the history and keeps the invariant |
| `Gestures.Controller.Scale` | src/gesture-controller/gesture-controller.js:131-163 | the view becomes `ScaleAbout` of the old view |
| `Gestures.Controller.ProcessDbltab` | src/gesture-controller/gesture-controller.js:123-129 | zooms about the event's target to the current scale + 0.2 |
| `Gestures.Controller.ProcessMultitouchZoom` | src/gesture-controller/gesture-controller.js:116-121 | zooms about the event's target to anchor scale × distance / anchor distance |
| `Gestures.Controller.ProcessOneFingerZoom` | src/gesture-controller/gesture-controller.js:87-99 | leaves the view when the guard drops the event, else zooms to anchor scale + vertical travel / 500 |
| `Gestures.Controller.ProcessDrag` | src/gesture-controller/gesture-controller.js:109-114 | sets the position to the anchor's plus the travel since the anchor, keeping scale and pivot |
| `Gestures.Controller.ProcessWheel` | src/gesture-controller/gesture-controller.js:101-107 | zooms about the cursor to scale − deltaY / 500 |
| `Gestures.Controller.RecordKind` | src/gesture-controller/gesture-controller.js:40-47 | the state becomes `Record` of the old state |
| `Gestures.Controller.DetectZoom` | src/gesture-controller/gesture-controller.js:49-59 | the state becomes `Escalate` of the old state |
| `Gestures.Controller.RunGesture` | src/gesture-controller/gesture-controller.js:61-73 | the state becomes `Dispatch` of the old state |
| `Gestures.Controller.Finish` | src/gesture-controller/gesture-controller.js:75-84 | the state becomes `Settle` of the old state |
| `Gestures.Controller.HandleEvent` | src/gesture-controller/gesture-controller.js:29-85 | the state becomes `Step` of the old state, and the history keeps matching no pattern |

## Left out

- Listener plumbing is not modelled: `_setupListeners`, `_teardownListeners`, `_addEventListeners`, `_removeEventListeners`, `destroy`, `preventDefault`, `_preventTouch` and the debug `console.log`. Which listeners are attached decides which raw events reach the handlers at all. The model does not derive that. Each handler is a function or method that any raw event of its family may be given. The one exception is the pointer handler: a ghost flag records whether its document listeners are attached, and `pointermove` requires it.
- The mouse handler's attaching and detaching of its document listeners is not modelled (event-manager.js lines 96-100). In the program those listeners are the only route by which `mousemove` and `mouseup` reach the handler. `Input.MouseEvent` accepts them at any time.
- `_calculateElementOffset` (`getBoundingClientRect`) is not modelled. The offset is a parameter.
- `Math.sqrt` is the parameter `sqrt`, assumed to return the non-negative square root.
- Floating-point rounding is not modelled: coordinates, distances and scales are real numbers.
- Raw event types outside the twelve in `EVENTS` are the one value `Unlisted`.
- The pointer table keeps only the client position of each pointer, the one part of the stored event the handler reads.
- Pointer ids are modelled as `nat`, while `pointerId` is a signed integer. `Object.keys` lists only array-index keys (0 to 2^32 − 2) first and in ascending order. It lists any other key, a negative one for instance, after them, in insertion order. The model does not cover that ordering.
- The `setTimeout` debounce of the history is the separate operation `ClearHistory`, which may come between any two events. Its 400 ms delay and the stacking of uncancelled timers are not modelled.
- The view is the controller's field `view`. `getState` is a copy of it and `setState` replaces it, with the drag's partial update merged field by field. Rendering, `getElement` and module wiring are not modelled.
- JavaScript throws or produces `NaN` in some cases; the model excludes these by preconditions:
  - a double tap, pinch, one-finger zoom or wheel zoom while the scaled width or height is zero;
  - a pinch against an anchor without a distance or with distance 0;
  - reading the anchor before the first non-move event (line 50 for a distance above 1, and every move);
  - a wheel event without a delta;
  - a touch event with an empty touch list.
- `Input.EventManager.HandlePointer`: a `pointermove` is only accepted while the document listeners are attached, because that is the only way the browser delivers one.
- `Input.EventManager.HandlePointer`: accepts `pointercancel` and removes the cancelled pointer, as the branch at event-manager.js lines 196-197 would. The program never delivers that event, though. `pointercancel` is never subscribed: line 48 adds only `pointerdown` on the element, and line 195 adds only `pointermove pointerup` on the document. In the program a cancelled pointer therefore stays in the table. It takes part in every later aggregate and keeps the document listeners attached. The model does not capture that.
