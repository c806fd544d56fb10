/**
 The gesture interpreter (`Controller`). It reads the stream of canonical events, keeps a short
 history of their kinds, two gesture flags and an anchor (the view state and event at the last
 non-move event), and writes the view's pan offset, scale and pivot.

 The browser's `window.PointerEvent` test is a constant of the controller; the debounce timer that
 empties the history is the separate operation `ClearHistory`.
 */
module Gestures {
  import opened Optional
  import opened Geometry
  import opened Canonical

  /** `DBL_TAB_STEP`: what a double tap adds to the scale. */
  const DoubleTapStep: real := 0.2
  /** `ZOOM_DIVIDER_RATE`: units of travel, or of wheel delta, per unit of scale. */
  const ZoomDividerRate: real := 500.0
  /** The `pointerType` of a touch contact. */
  const TouchPointer: string := "touch"

  /** The view's state: pan offset, scale and the last zoom pivot. */
  datatype ViewState = ViewState(positionX: real, positionY: real, scale: real, pivotPointX: real, pivotPointY: real)

  /** The image's natural size (`getImageSize`). */
  datatype ImageSize = ImageSize(width: real, height: real)

  // ---------------------------------------------------------------- the pivot-preserving zoom

  /** `_scale` divides by the current scaled width and height, so neither may be zero. */
  predicate Scalable(v: ViewState, size: ImageSize)
  {
    size.width * v.scale != 0.0 && size.height * v.scale != 0.0
  }

  /**
   `_scale`: set the scale to `newScale` and record `target` as the pivot, moving the image so that
   the point under `target` stays under it (`ScalePivot`).
   */
  function ScaleAbout(v: ViewState, size: ImageSize, target: Point, newScale: real): (r: ViewState)
    requires Scalable(v, size)
    ensures r.scale == newScale && r.pivotPointX == target.x && r.pivotPointY == target.y
  {
    ViewState(Reposition(v.positionX, target.x, size.width, v.scale, newScale),
              Reposition(v.positionY, target.y, size.height, v.scale, newScale),
              newScale, target.x, target.y)
  }

  /**
   One axis of `_scale`: the pivot's offset from the image origin, as a fraction of the current
   scaled extent, is kept at the new extent.
   */
  function Reposition(position: real, pivot: real, extent: real, scale: real, newScale: real): real
    requires extent * scale != 0.0
  {
    var origin := pivot - position;
    var current := extent * scale;
    var m := origin / current;
    position + (origin - extent * newScale * m)
  }

  /**
   The zoom takes the new scale and the target as pivot, and the pivot's offset from the image
   origin grows in proportion to the scale: (pivot − position′) · scale = (pivot − position) · newScale.
   */
  lemma ScalePivot(v: ViewState, size: ImageSize, target: Point, newScale: real)
    requires Scalable(v, size)
    ensures var r := ScaleAbout(v, size, target, newScale);
      r.scale == newScale && r.pivotPointX == target.x && r.pivotPointY == target.y &&
      (target.x - r.positionX) * v.scale == (target.x - v.positionX) * newScale &&
      (target.y - r.positionY) * v.scale == (target.y - v.positionY) * newScale
  {
    RepositionPivot(v.positionX, target.x, size.width, v.scale, newScale);
    RepositionPivot(v.positionY, target.y, size.height, v.scale, newScale);
  }

  /** One axis of `ScalePivot`. */
  lemma RepositionPivot(position: real, pivot: real, extent: real, scale: real, newScale: real)
    requires extent * scale != 0.0
    ensures (pivot - Reposition(position, pivot, extent, scale, newScale)) * scale == (pivot - position) * newScale
  {
    var origin := pivot - position;
    var current := extent * scale;
    Rescale(origin, extent, scale, newScale, current, origin / current);
  }

  lemma DivMul(o: real, w: real, m: real)
    requires w != 0.0 && m == o / w
    ensures m * w == o
  {
  }

  /** The algebra behind `_scale`: rescaling the relative offset `o / (width * s)` to `s2`. */
  lemma Rescale(o: real, width: real, s: real, s2: real, w: real, m: real)
    requires w == width * s && w != 0.0 && m == o / w
    ensures (width * s2 * m) * s == o * s2
  {
    DivMul(o, w, m);
    assert (width * s2 * m) * s == s2 * (m * w);
  }

  /** Cross-multiplied equal ratios are equal quotients. */
  lemma CrossDivide(a: real, b: real, s: real, t: real)
    requires s != 0.0 && t != 0.0 && a * s == b * t
    ensures a / t == b / s
  {
    var q1, q2 := a / t, b / s;
    DivMul(a, t, q1);
    DivMul(b, s, q2);
    assert (q1 - q2) * (s * t) == 0.0;
  }

  lemma NonzeroFactor(a: real, b: real, p: real)
    requires p == a * b && p != 0.0
    ensures b != 0.0
  {
  }

  /**
   Pivot invariance: the image coordinate under the pivot, (pivot − position) / scale, is the same
   before and after the zoom.
   */
  lemma PivotFixed(v: ViewState, size: ImageSize, target: Point, newScale: real)
    requires Scalable(v, size) && newScale != 0.0
    ensures var r := ScaleAbout(v, size, target, newScale);
      (target.x - r.positionX) / r.scale == (target.x - v.positionX) / v.scale &&
      (target.y - r.positionY) / r.scale == (target.y - v.positionY) / v.scale
  {
    RepositionFixed(v.positionX, target.x, size.width, v.scale, newScale);
    RepositionFixed(v.positionY, target.y, size.height, v.scale, newScale);
  }

  /** One axis of `PivotFixed`. */
  lemma RepositionFixed(position: real, pivot: real, extent: real, scale: real, newScale: real)
    requires extent * scale != 0.0 && newScale != 0.0
    ensures (pivot - Reposition(position, pivot, extent, scale, newScale)) / newScale == (pivot - position) / scale
  {
    NonzeroFactor(extent, scale, extent * scale);
    RepositionPivot(position, pivot, extent, scale, newScale);
    CrossDivide(pivot - Reposition(position, pivot, extent, scale, newScale), pivot - position, scale, newScale);
  }

  /** Zooming to the current scale leaves the image where it is. */
  lemma SameScaleStill(v: ViewState, size: ImageSize, target: Point)
    requires Scalable(v, size)
    ensures var r := ScaleAbout(v, size, target, v.scale);
      r.positionX == v.positionX && r.positionY == v.positionY && r.scale == v.scale
  {
    var r := ScaleAbout(v, size, target, v.scale);
    ScalePivot(v, size, target, v.scale);
    NonzeroFactor(size.width, v.scale, size.width * v.scale);
    Cancel(target.x - r.positionX, target.x - v.positionX, v.scale);
    Cancel(target.y - r.positionY, target.y - v.positionY, v.scale);
  }

  lemma Cancel(a: real, b: real, s: real)
    requires s != 0.0 && a * s == b * s
    ensures a == b
  {
  }

  /**
   Zooms about one pivot compose: zooming to `s1` and then to `s2` puts the image where a single
   zoom to `s2` does.
   */
  lemma ZoomsCompose(v: ViewState, size: ImageSize, target: Point, s1: real, s2: real)
    requires Scalable(v, size) && s1 != 0.0
    ensures Scalable(ScaleAbout(v, size, target, s1), size)
    ensures ScaleAbout(ScaleAbout(v, size, target, s1), size, target, s2) == ScaleAbout(v, size, target, s2)
  {
    RepositionCompose(v.positionX, target.x, size.width, v.scale, s1, s2);
    RepositionCompose(v.positionY, target.y, size.height, v.scale, s1, s2);
  }

  /** One axis of `ZoomsCompose`. */
  lemma RepositionCompose(position: real, pivot: real, extent: real, s0: real, s1: real, s2: real)
    requires extent * s0 != 0.0 && s1 != 0.0
    ensures extent * s1 != 0.0
    ensures Reposition(Reposition(position, pivot, extent, s0, s1), pivot, extent, s1, s2)
      == Reposition(position, pivot, extent, s0, s2)
  {
    NonzeroFactor(s0, extent, extent * s0);
    NonzeroFactor(extent, s0, extent * s0);
    NonzeroProduct(extent, s1, extent * s1);
    var x1 := Reposition(position, pivot, extent, s0, s1);
    RepositionPivot(position, pivot, extent, s0, s1);
    RepositionPivot(x1, pivot, extent, s1, s2);
    RepositionPivot(position, pivot, extent, s0, s2);
    ComposeAxis(pivot, position, x1, Reposition(x1, pivot, extent, s1, s2),
                Reposition(position, pivot, extent, s0, s2), s0, s1, s2);
  }

  lemma NonzeroProduct(s: real, t: real, p: real)
    requires s != 0.0 && t != 0.0 && p == s * t
    ensures p != 0.0
  {
  }

  /** One axis of `ZoomsCompose`: positions from two chained zooms and from one agree. */
  lemma ComposeAxis(p: real, x0: real, x1: real, x2: real, y: real, s0: real, s1: real, s2: real)
    requires s0 != 0.0 && s1 != 0.0
    requires (p - x1) * s0 == (p - x0) * s1
    requires (p - x2) * s1 == (p - x1) * s2
    requires (p - y) * s0 == (p - x0) * s2
    ensures x2 == y
  {
    assert (p - x2) * (s1 * s0) == (p - y) * (s1 * s0);
    NonzeroProduct(s1, s0, s1 * s0);
    Cancel(p - x2, p - y, s1 * s0);
  }

  // ---------------------------------------------------------------- gesture targets

  /** `_processDbltab`: the scale a double tap zooms to. */
  function DoubleTapScale(v: ViewState): real
  {
    v.scale + DoubleTapStep
  }

  /** The view state and the event at the last non-move event (`_initState`, `_initEvent`). */
  datatype Anchor = Anchor(state: ViewState, event: CanonicalEvent)

  /** The anchor's distance can be divided by. */
  predicate PinchReady(a: Anchor)
  {
    a.event.distance.Some? && a.event.distance.value != 0.0
  }

  /** `_processMultitouchZoom`: the anchor's scale, times the ratio of the two distances. */
  function PinchScale(a: Anchor, distance: real): real
    requires PinchReady(a)
  {
    a.state.scale * (distance / a.event.distance.value)
  }

  /** `_processOneFingerZoom`: the anchor's scale, plus the vertical travel over `ZOOM_DIVIDER_RATE`. */
  function OneFingerScale(a: Anchor, target: Point): real
  {
    a.state.scale + (target.y - a.event.targetPoint.y) / ZoomDividerRate
  }

  /** `_processWheel`: the current scale, minus the wheel delta over `ZOOM_DIVIDER_RATE`. */
  function WheelScale(v: ViewState, deltaY: real): real
  {
    v.scale - deltaY / ZoomDividerRate
  }

  /**
   `_processDrag`: the anchor's position, moved by the travel of the target point since the anchor;
   the merge into the view keeps its scale and pivot.
   */
  function Dragged(v: ViewState, a: Anchor, target: Point): (r: ViewState)
    ensures r.positionX - a.state.positionX == target.x - a.event.targetPoint.x
    ensures r.positionY - a.state.positionY == target.y - a.event.targetPoint.y
    ensures r.scale == v.scale && r.pivotPointX == v.pivotPointX && r.pivotPointY == v.pivotPointY
  {
    v.(positionX := a.state.positionX + (target.x - a.event.targetPoint.x),
       positionY := a.state.positionY + (target.y - a.event.targetPoint.y))
  }

  /**
   The guard of `_processOneFingerZoom`: without Pointer Events, a one-finger zoom is dropped unless
   the event comes from a touch pointer.
   */
  predicate OneFingerBlocked(e: CanonicalEvent, pointerEvents: bool)
  {
    !pointerEvents && e.pointerType != Some(TouchPointer)
  }

  // ---------------------------------------------------------------- history patterns

  /*
   The history `_lastEventTypes` is a string of kinds, each preceded by a space. No kind's name
   occurs inside another's, so its regular expressions reduce to patterns over the list of kinds:
   `.+` between two names spans at least the separating space, and a literal space between two
   names makes them adjacent.
   */

  /** Some `start` comes before position `j`. */
  predicate StartBefore(h: seq<Kind>, j: int)
  {
    exists i | 0 <= i < j && i < |h| :: h[i] == Start
  }

  /** Some `end` comes at or after position `j`. */
  predicate EndFrom(h: seq<Kind>, j: int)
  {
    exists k | 0 <= j <= k < |h| :: h[k] == End
  }

  /** `start.+end start.+end`: a start, later an `end start` pair, later an end. */
  predicate DoubleTap(h: seq<Kind>)
  {
    exists j | 0 <= j && j + 1 < |h| :: h[j] == End && h[j + 1] == Start && StartBefore(h, j) && EndFrom(h, j + 2)
  }

  /** `start.+end start move`: a start, later the run `end start move`. */
  predicate OneFinger(h: seq<Kind>)
  {
    exists j | 0 <= j && j + 2 < |h| :: h[j] == End && h[j + 1] == Start && h[j + 2] == Move && StartBefore(h, j)
  }

  /** A history that matches neither pattern: the only kind the controller ever keeps. */
  predicate Quiet(h: seq<Kind>)
  {
    !DoubleTap(h) && !OneFinger(h)
  }

  // ---------------------------------------------------------------- one event, as a function

  /** Everything `_eventHandler` reads and writes: the controller's fields and the view's state. */
  datatype Session = Session(history: seq<Kind>, oneFingerZoom: bool, multitouchZoom: bool,
                             anchor: Option<Anchor>, view: ViewState)

  predicate RecordDefined(s: Session, e: CanonicalEvent, size: ImageSize)
  {
    DoubleTap(s.history + [e.kind]) ==> Scalable(s.view, size)
  }

  /** Lines 41-47: append the kind; on a double tap, zoom in one step at the event and forget the history. */
  function Record(s: Session, e: CanonicalEvent, size: ImageSize): Session
    requires RecordDefined(s, e, size)
  {
    var h := s.history + [e.kind];
    if DoubleTap(h) then s.(history := [], view := ScaleAbout(s.view, size, e.targetPoint, DoubleTapScale(s.view)))
    else s.(history := h)
  }

  /** Line 50 reads the anchor's distance only for an event whose own distance exceeds 1. */
  predicate EscalateDefined(s: Session, e: CanonicalEvent)
  {
    e.distance.Some? && e.distance.value > 1.0 ==> s.anchor.Some?
  }

  /** Line 50: a spread wider than 1 that differs from the anchor's starts a pinch. */
  predicate PinchStarts(s: Session, e: CanonicalEvent)
    requires EscalateDefined(s, e)
  {
    e.distance.Some? && e.distance.value > 1.0 && e.distance != s.anchor.value.event.distance
  }

  /** Lines 49-59: a pinch, then the one-finger pattern, each raise their flag and forget the history. */
  function Escalate(s: Session, e: CanonicalEvent): Session
    requires EscalateDefined(s, e)
  {
    var s1 := if PinchStarts(s, e) then s.(multitouchZoom := true, history := []) else s;
    if OneFinger(s1.history) then s1.(oneFingerZoom := true, history := []) else s1
  }

  /**
   What a move needs: a pinch divides by the anchor's distance and the current scaled size, a
   one-finger zoom that is not blocked reads the anchor and divides by the scaled size, and a
   drag reads the anchor.
   */
  predicate MoveDefined(s: Session, e: CanonicalEvent, size: ImageSize, pointerEvents: bool)
  {
    if s.multitouchZoom then
      s.anchor.Some? && PinchReady(s.anchor.value) && e.distance.Some? && Scalable(s.view, size)
    else if s.oneFingerZoom then
      OneFingerBlocked(e, pointerEvents) || (s.anchor.Some? && Scalable(s.view, size))
    else
      s.anchor.Some?
  }

  /** Lines 62-69: the view after a move, by the first raised flag: pinch, one finger, else drag. */
  function MoveView(s: Session, e: CanonicalEvent, size: ImageSize, pointerEvents: bool): ViewState
    requires MoveDefined(s, e, size, pointerEvents)
  {
    if s.multitouchZoom then
      ScaleAbout(s.view, size, e.targetPoint, PinchScale(s.anchor.value, e.distance.value))
    else if s.oneFingerZoom then
      if OneFingerBlocked(e, pointerEvents) then s.view
      else ScaleAbout(s.view, size, e.targetPoint, OneFingerScale(s.anchor.value, e.targetPoint))
    else
      Dragged(s.view, s.anchor.value, e.targetPoint)
  }

  predicate DispatchDefined(s: Session, e: CanonicalEvent, size: ImageSize, pointerEvents: bool)
  {
    e.kind == Move ==> MoveDefined(s, e, size, pointerEvents)
  }

  /** Lines 61-73: a move runs one gesture; any other event becomes the anchor, with the view as it is now. */
  function Dispatch(s: Session, e: CanonicalEvent, size: ImageSize, pointerEvents: bool): Session
    requires DispatchDefined(s, e, size, pointerEvents)
  {
    if e.kind == Move then s.(view := MoveView(s, e, size, pointerEvents))
    else s.(anchor := Some(Anchor(s.view, e)))
  }

  /** A wheel event carries a delta and zooms, so the scaled size must not vanish. */
  predicate SettleDefined(s: Session, e: CanonicalEvent, size: ImageSize)
  {
    e.kind == Wheel ==> e.deltaY.Some? && Scalable(s.view, size)
  }

  /** Lines 75-84: an end lowers both flags; a wheel zooms at the cursor. */
  function Settle(s: Session, e: CanonicalEvent, size: ImageSize): Session
    requires SettleDefined(s, e, size)
  {
    var s1 := if e.kind == End then s.(oneFingerZoom := false, multitouchZoom := false) else s;
    if e.kind == Wheel then s1.(view := ScaleAbout(s1.view, size, e.targetPoint, WheelScale(s1.view, e.deltaY.value)))
    else s1
  }

  /**
   The source would throw or compute `NaN` otherwise: reading the anchor before there is one, or
   dividing by a zero scaled size or anchor distance.
   */
  predicate StepDefined(s: Session, e: CanonicalEvent, size: ImageSize, pointerEvents: bool)
  {
    RecordDefined(s, e, size) &&
    (var s1 := Record(s, e, size);
     EscalateDefined(s1, e) &&
     (var s2 := Escalate(s1, e);
      DispatchDefined(s2, e, size, pointerEvents) &&
      SettleDefined(Dispatch(s2, e, size, pointerEvents), e, size)))
  }

  /** `_eventHandler`: one canonical event. */
  function Step(s: Session, e: CanonicalEvent, size: ImageSize, pointerEvents: bool): Session
    requires StepDefined(s, e, size, pointerEvents)
  {
    var s1 := Record(s, e, size);
    var s2 := Escalate(s1, e);
    Settle(Dispatch(s2, e, size, pointerEvents), e, size)
  }

  /** Whatever the event, the history the controller keeps afterwards matches neither pattern. */
  lemma StepQuiet(s: Session, e: CanonicalEvent, size: ImageSize, pointerEvents: bool)
    requires StepDefined(s, e, size, pointerEvents)
    ensures Quiet(Step(s, e, size, pointerEvents).history)
  {
    var s1 := Record(s, e, size);
    var s2 := Escalate(s1, e);
    var s3 := Dispatch(s2, e, size, pointerEvents);
    RecordHistory(s, e, size);
    EscalateHistory(s1, e);
    assert Settle(s3, e, size).history == s3.history == s2.history;
    assert !DoubleTap([]) && !OneFinger([]);
  }

  /** After the double-tap check the history is empty or does not hold a double tap. */
  lemma RecordHistory(s: Session, e: CanonicalEvent, size: ImageSize)
    requires RecordDefined(s, e, size)
    ensures var h := Record(s, e, size).history; h == [] || !DoubleTap(h)
  {
  }

  /** After the escalation checks the history is empty, or unchanged and without a one-finger zoom. */
  lemma EscalateHistory(s: Session, e: CanonicalEvent)
    requires EscalateDefined(s, e)
    ensures var h := Escalate(s, e).history; h == [] || (h == s.history && !OneFinger(h))
    ensures PinchStarts(s, e) || OneFinger(s.history) ==> Escalate(s, e).history == []
  {
    var t := if PinchStarts(s, e) then s.(multitouchZoom := true, history := []) else s;
    assert Escalate(s, e) == if OneFinger(t.history) then t.(oneFingerZoom := true, history := []) else t;
  }

  // ---------------------------------------------------------------- properties of one event

  /**
   The history after an event: the kind is appended, and the whole history is forgotten when the
   event completes a double tap, starts a pinch or completes a one-finger zoom.
   */
  lemma HistoryAfterStep(s: Session, e: CanonicalEvent, size: ImageSize, pointerEvents: bool)
    requires StepDefined(s, e, size, pointerEvents)
    ensures EscalateDefined(s, e)
    ensures var h := s.history + [e.kind];
      Step(s, e, size, pointerEvents).history ==
        if DoubleTap(h) || PinchStarts(s, e) || OneFinger(h) then [] else h
  {
    assert Record(s, e, size).anchor == s.anchor;
  }

  /** Appending a kind other than `end` completes no double tap that was not there already. */
  lemma DoubleTapOnlyOnEnd(h: seq<Kind>, k: Kind)
    ensures DoubleTap(h + [k]) ==> k == End || DoubleTap(h)
  {
    var h' := h + [k];
    if DoubleTap(h') && k != End {
      var j :| 0 <= j && j + 1 < |h'| && h'[j] == End && h'[j + 1] == Start && StartBefore(h', j) && EndFrom(h', j + 2);
      var last :| 0 <= j + 2 <= last < |h'| && h'[last] == End;
      var i :| 0 <= i < j && i < |h'| && h'[i] == Start;
      assert last < |h|;
      assert h[i] == Start && h[j] == End && h[j + 1] == Start && h[last] == End;
      assert StartBefore(h, j) && EndFrom(h, j + 2);
    }
  }

  /** Appending a kind other than `move` completes no one-finger pattern that was not there already. */
  lemma OneFingerOnlyOnMove(h: seq<Kind>, k: Kind)
    ensures OneFinger(h + [k]) ==> k == Move || OneFinger(h)
  {
    var h' := h + [k];
    if OneFinger(h') && k != Move {
      var j :| 0 <= j && j + 2 < |h'| && h'[j] == End && h'[j + 1] == Start && h'[j + 2] == Move && StartBefore(h', j);
      var i :| 0 <= i < j && i < |h'| && h'[i] == Start;
      assert j + 2 < |h|;
      assert h[i] == Start && h[j] == End && h[j + 1] == Start && h[j + 2] == Move;
      assert StartBefore(h, j);
    }
  }

  /**
   A double tap: the event completing it is an `end`; the view zooms in one step about the tap,
   the history is forgotten, and the anchor takes the zoomed view.
   */
  lemma DoubleTapZoom(s: Session, e: CanonicalEvent, size: ImageSize, pointerEvents: bool)
    requires StepDefined(s, e, size, pointerEvents) && Quiet(s.history)
    requires DoubleTap(s.history + [e.kind])
    ensures e.kind == End
    ensures var r := Step(s, e, size, pointerEvents);
      r.view == ScaleAbout(s.view, size, e.targetPoint, s.view.scale + DoubleTapStep) &&
      r.history == [] && r.anchor == Some(Anchor(r.view, e)) && !r.oneFingerZoom && !r.multitouchZoom
  {
    DoubleTapOnlyOnEnd(s.history, e.kind);
    assert !OneFinger([]);
  }

  /**
   The flags after an event: the pinch flag is up unless the event is an `end`, exactly when it
   was up or the event starts a pinch; an `end` lowers both.
   */
  lemma FlagsAfterStep(s: Session, e: CanonicalEvent, size: ImageSize, pointerEvents: bool)
    requires StepDefined(s, e, size, pointerEvents)
    ensures EscalateDefined(s, e)
    ensures Step(s, e, size, pointerEvents).multitouchZoom <==>
      e.kind != End && (s.multitouchZoom || PinchStarts(s, e))
    ensures e.kind == End ==> !Step(s, e, size, pointerEvents).oneFingerZoom
    ensures s.oneFingerZoom && e.kind != End ==> Step(s, e, size, pointerEvents).oneFingerZoom
  {
    var s1 := Record(s, e, size);
    assert s1.anchor == s.anchor && s1.multitouchZoom == s.multitouchZoom && s1.oneFingerZoom == s.oneFingerZoom;
  }

  /**
   The one-finger flag rises only on the `start.+end start move` pattern, and not when a pinch
   starts on the same event (the pinch empties the history before the pattern is looked for); once
   up, it stays up until an `end`.
   */
  lemma OneFingerFlagAfterStep(s: Session, e: CanonicalEvent, size: ImageSize, pointerEvents: bool)
    requires StepDefined(s, e, size, pointerEvents) && Quiet(s.history)
    ensures EscalateDefined(s, e)
    ensures Step(s, e, size, pointerEvents).oneFingerZoom <==>
      e.kind != End && (s.oneFingerZoom || (!PinchStarts(s, e) && OneFinger(s.history + [e.kind])))
  {
    assert Record(s, e, size).anchor == s.anchor;
    DoubleTapOnlyOnEnd(s.history, e.kind);
  }

  /**
   The anchor after an event: a move keeps it; a start or a wheel takes the view as it was; an
   end takes the view after any double-tap zoom.
   */
  lemma AnchorAfterStep(s: Session, e: CanonicalEvent, size: ImageSize, pointerEvents: bool)
    requires StepDefined(s, e, size, pointerEvents) && Quiet(s.history)
    ensures var r := Step(s, e, size, pointerEvents);
      (e.kind == Move ==> r.anchor == s.anchor) &&
      (e.kind == Start || e.kind == Wheel ==> r.anchor == Some(Anchor(s.view, e))) &&
      (e.kind == End ==> r.anchor == Some(Anchor(r.view, e)))
  {
    DoubleTapOnlyOnEnd(s.history, e.kind);
  }

  /** A move while pinching, or the move that starts a pinch, scales by the ratio of distances. */
  lemma PinchMove(s: Session, e: CanonicalEvent, size: ImageSize, pointerEvents: bool)
    requires StepDefined(s, e, size, pointerEvents) && Quiet(s.history) && e.kind == Move
    requires EscalateDefined(s, e) && (s.multitouchZoom || PinchStarts(s, e))
    ensures s.anchor.Some? && PinchReady(s.anchor.value) && e.distance.Some? && Scalable(s.view, size)
    ensures var r := Step(s, e, size, pointerEvents);
      r.multitouchZoom && r.anchor == s.anchor &&
      r.view == ScaleAbout(s.view, size, e.targetPoint, PinchScale(s.anchor.value, e.distance.value))
  {
    DoubleTapOnlyOnEnd(s.history, e.kind);
  }

  /**
   A move in a one-finger zoom, including the move that completes the pattern, zooms about the
   event by the vertical travel since the anchor, unless the guard drops it.
   */
  lemma OneFingerMove(s: Session, e: CanonicalEvent, size: ImageSize, pointerEvents: bool)
    requires StepDefined(s, e, size, pointerEvents) && Quiet(s.history) && e.kind == Move
    requires EscalateDefined(s, e) && !s.multitouchZoom && !PinchStarts(s, e)
    requires s.oneFingerZoom || OneFinger(s.history + [Move])
    ensures var r := Step(s, e, size, pointerEvents);
      r.oneFingerZoom && !r.multitouchZoom && r.anchor == s.anchor &&
      r.view == if OneFingerBlocked(e, pointerEvents) then s.view
                else ScaleAbout(s.view, size, e.targetPoint, OneFingerScale(s.anchor.value, e.targetPoint))
  {
    DoubleTapOnlyOnEnd(s.history, e.kind);
  }

  /**
   Without Pointer Events, mouse and touch events carry no pointer type, so a one-finger zoom never
   moves the view.
   */
  lemma OneFingerNeedsPointerEvents(s: Session, e: CanonicalEvent, size: ImageSize)
    requires StepDefined(s, e, size, false) && Quiet(s.history) && e.kind == Move && e.pointerType.None?
    requires EscalateDefined(s, e) && !s.multitouchZoom && !PinchStarts(s, e)
    requires s.oneFingerZoom || OneFinger(s.history + [Move])
    ensures Step(s, e, size, false).view == s.view
  {
    OneFingerMove(s, e, size, false);
  }

  /** A move with no zoom under way, and none starting, drags; the kind stays in the history. */
  lemma DragMove(s: Session, e: CanonicalEvent, size: ImageSize, pointerEvents: bool)
    requires StepDefined(s, e, size, pointerEvents) && Quiet(s.history) && e.kind == Move
    requires EscalateDefined(s, e) && !s.multitouchZoom && !PinchStarts(s, e)
    requires !s.oneFingerZoom && !OneFinger(s.history + [Move])
    ensures s.anchor.Some?
    ensures var r := Step(s, e, size, pointerEvents);
      r.view == Dragged(s.view, s.anchor.value, e.targetPoint) && r.history == s.history + [Move] &&
      !r.oneFingerZoom && !r.multitouchZoom && r.anchor == s.anchor
  {
    DoubleTapOnlyOnEnd(s.history, e.kind);
  }

  /** A wheel event anchors the view as it was, then zooms about the cursor by the delta. */
  lemma WheelStep(s: Session, e: CanonicalEvent, size: ImageSize, pointerEvents: bool)
    requires StepDefined(s, e, size, pointerEvents) && Quiet(s.history) && e.kind == Wheel
    ensures e.deltaY.Some? && Scalable(s.view, size)
    ensures var r := Step(s, e, size, pointerEvents);
      r.view == ScaleAbout(s.view, size, e.targetPoint, WheelScale(s.view, e.deltaY.value)) &&
      r.anchor == Some(Anchor(s.view, e))
  {
    DoubleTapOnlyOnEnd(s.history, e.kind);
  }

  // ---------------------------------------------------------------- gestures over several events

  /** A click or a one-finger tap at `p`, as the input normaliser emits it. */
  function Tap(kind: Kind, p: Point): CanonicalEvent
  {
    CanonicalEvent(kind, p, Some(1.0), None, None)
  }

  /**
   Two taps at one point, with nothing in the history before them, zoom in one step about that
   point and leave the history empty.
   */
  lemma DoubleTapScenario(s: Session, p: Point, size: ImageSize, pointerEvents: bool)
    requires s.history == [] && Scalable(s.view, size)
    ensures StepDefined(s, Tap(Start, p), size, pointerEvents)
    ensures var s1 := Step(s, Tap(Start, p), size, pointerEvents);
      StepDefined(s1, Tap(End, p), size, pointerEvents) &&
      var s2 := Step(s1, Tap(End, p), size, pointerEvents);
      StepDefined(s2, Tap(Start, p), size, pointerEvents) &&
      var s3 := Step(s2, Tap(Start, p), size, pointerEvents);
      StepDefined(s3, Tap(End, p), size, pointerEvents) &&
      var s4 := Step(s3, Tap(End, p), size, pointerEvents);
      s4.view == ScaleAbout(s.view, size, p, s.view.scale + DoubleTapStep) && s4.history == []
  {
    FirstTap(s, p, size, pointerEvents);
    var s1 := Step(s, Tap(Start, p), size, pointerEvents);
    var s2 := Step(s1, Tap(End, p), size, pointerEvents);
    SecondTap(s2, p, size, pointerEvents);
  }

  /** After a first tap, a second tap at the same point zooms in one step and empties the history. */
  lemma SecondTap(s: Session, p: Point, size: ImageSize, pointerEvents: bool)
    requires s.history == [Start, End] && Scalable(s.view, size)
    ensures StepDefined(s, Tap(Start, p), size, pointerEvents)
    ensures var s1 := Step(s, Tap(Start, p), size, pointerEvents);
      StepDefined(s1, Tap(End, p), size, pointerEvents) &&
      var s2 := Step(s1, Tap(End, p), size, pointerEvents);
      s2.view == ScaleAbout(s.view, size, p, s.view.scale + DoubleTapStep) && s2.history == []
  {
    assert [Start, End] + [Start] == [Start, End, Start];
    NoPatternYet();
    TapStep(s, Start, p, size, pointerEvents);
    var s1 := Step(s, Tap(Start, p), size, pointerEvents);
    assert [Start, End, Start] + [End] == [Start, End, Start, End];
    TwoTaps();
    assert StepDefined(s1, Tap(End, p), size, pointerEvents) by {
      assert !OneFinger([]);
    }
    DoubleTapZoom(s1, Tap(End, p), size, pointerEvents);
  }

  /** A tap that completes no pattern only records its kind and anchors the view. */
  lemma TapStep(s: Session, k: Kind, p: Point, size: ImageSize, pointerEvents: bool)
    requires k == Start || k == End
    requires !DoubleTap(s.history + [k]) && !OneFinger(s.history + [k])
    ensures StepDefined(s, Tap(k, p), size, pointerEvents)
    ensures var r := Step(s, Tap(k, p), size, pointerEvents);
      r.history == s.history + [k] && r.view == s.view && r.anchor == Some(Anchor(s.view, Tap(k, p)))
  {
  }

  lemma NoPatternYet()
    ensures !DoubleTap([Start, End, Start]) && !OneFinger([Start, End, Start])
  {
  }

  lemma TwoTaps()
    ensures DoubleTap([Start, End, Start, End])
  {
    var h := [Start, End, Start, End];
    assert h[1] == End && h[1 + 1] == Start;
    assert StartBefore(h, 1) by {
      assert h[0] == Start;
    }
    assert EndFrom(h, 3) by {
      assert h[3] == End;
    }
  }

  /**
   `.+` lets moves into the first tap: a drag followed by a tap reads as a double tap, unless the
   one-finger pattern has emptied the history first.
   */
  lemma DragThenTap()
    ensures DoubleTap([Start, Move, End, Start, End])
    ensures !OneFinger([Start, Move, End, Start, End])
  {
    var h := [Start, Move, End, Start, End];
    assert h[2] == End && h[2 + 1] == Start;
    assert StartBefore(h, 2) by {
      assert h[0] == Start;
    }
    assert EndFrom(h, 4) by {
      assert h[4] == End;
    }
  }

  /** A first tap from an empty history only records `start` and `end`: the view does not move. */
  lemma FirstTap(s: Session, p: Point, size: ImageSize, pointerEvents: bool)
    requires s.history == []
    ensures StepDefined(s, Tap(Start, p), size, pointerEvents)
    ensures var s1 := Step(s, Tap(Start, p), size, pointerEvents);
      StepDefined(s1, Tap(End, p), size, pointerEvents) &&
      var s2 := Step(s1, Tap(End, p), size, pointerEvents);
      s2.view == s.view && s2.history == [Start, End]
  {
    assert [] + [Start] == [Start];
    assert !DoubleTap([Start]) && !OneFinger([Start]);
    var s1 := Step(s, Tap(Start, p), size, pointerEvents);
    assert s1.history == [Start];
    assert [Start] + [End] == [Start, End];
    assert !DoubleTap([Start, End]) && !OneFinger([Start, End]);
  }

  /**
   The debounce timer firing between two taps (`ClearHistory`) turns the second tap into a first
   one: where `SecondTap` would zoom, the view stays and the history holds only the new tap.
   */
  lemma DebounceExpiry(s: Session, p: Point, size: ImageSize, pointerEvents: bool)
    requires s.history == [Start, End]
    ensures var c := s.(history := []);
      StepDefined(c, Tap(Start, p), size, pointerEvents) &&
      var s1 := Step(c, Tap(Start, p), size, pointerEvents);
      StepDefined(s1, Tap(End, p), size, pointerEvents) &&
      var s2 := Step(s1, Tap(End, p), size, pointerEvents);
      s2.view == s.view && s2.history == [Start, End]
  {
    FirstTap(s.(history := []), p, size, pointerEvents);
  }

  /**
   The two flags can be up together: a pinch starting while a one-finger zoom runs raises the
   second flag without lowering the first.
   */
  lemma FlagsNotExclusive(v: ViewState, size: ImageSize, p: Point)
    requires Scalable(v, size)
    ensures var a := Anchor(v, Tap(Start, p));
      var s := Session([], true, false, Some(a), v);
      var e := CanonicalEvent(Move, p, Some(2.0), None, Some(TouchPointer));
      StepDefined(s, e, size, true) &&
      Step(s, e, size, true).oneFingerZoom && Step(s, e, size, true).multitouchZoom
  {
    assert [] + [Move] == [Move];
    assert !DoubleTap([Move]) && !OneFinger([]);
  }

  /** Pinching from a spread of 100 to 150, from scale 1, zooms to scale 1.5. */
  lemma PinchExample(a: Anchor)
    requires a.state.scale == 1.0 && a.event.distance == Some(100.0)
    ensures PinchReady(a) && PinchScale(a, 150.0) == 1.5
  {
  }

  /** A positive wheel delta zooms out, a negative one zooms in. */
  lemma WheelDirection(v: ViewState, deltaY: real)
    ensures deltaY > 0.0 ==> WheelScale(v, deltaY) < v.scale
    ensures deltaY < 0.0 ==> WheelScale(v, deltaY) > v.scale
  {
  }

  /**
   A drag depends only on the anchor and the current target, keeps the view's scale and pivot,
   and dragging back to the anchor's target restores the anchor's position.
   */
  lemma DragBack(v: ViewState, w: ViewState, a: Anchor, target: Point)
    ensures Dragged(v, a, target).positionX == Dragged(w, a, target).positionX
    ensures Dragged(v, a, target).positionY == Dragged(w, a, target).positionY
    ensures Dragged(v, a, target).scale == v.scale
    ensures Dragged(v, a, target).pivotPointX == v.pivotPointX && Dragged(v, a, target).pivotPointY == v.pivotPointY
    ensures Dragged(v, a, a.event.targetPoint).positionX == a.state.positionX
    ensures Dragged(v, a, a.event.targetPoint).positionY == a.state.positionY
  {
  }

  /** Grabbing the image at (10, 10) when it sits at the origin and moving to (15, 18) puts it at (5, 8). */
  lemma DragExample(v: ViewState, a: Anchor)
    requires a.state.positionX == 0.0 && a.state.positionY == 0.0
    requires a.event.targetPoint == Point(10.0, 10.0)
    ensures Dragged(v, a, Point(15.0, 18.0)).positionX == 5.0
    ensures Dragged(v, a, Point(15.0, 18.0)).positionY == 8.0
  {
  }

  // ---------------------------------------------------------------- the controller

  /** `Controller`: the gesture state, and the view it drives. */
  class Controller {
    /** `_lastEventTypes`: the kinds since the history was last emptied. */
    var history: seq<Kind>
    /** `_isOneFingerZoom` */
    var oneFingerZoom: bool
    /** `_isMultitouchZoom` */
    var multitouchZoom: bool
    /** `_initState` and `_initEvent`, unset until the first non-move event. */
    var anchor: Option<Anchor>
    /** The view's state, as `getState` returns it and `setState` replaces it. */
    var view: ViewState
    /** `getImageSize` */
    const imageSize: ImageSize
    /** `window.PointerEvent` is defined. */
    const pointerEvents: bool

    function Snapshot(): Session
      reads this
    {
      Session(history, oneFingerZoom, multitouchZoom, anchor, view)
    }

    /** The kept history never holds a recognised gesture. */
    ghost predicate Valid()
      reads this
    {
      Quiet(history)
    }

    constructor (initialView: ViewState, size: ImageSize, supportsPointerEvents: bool)
      ensures Valid() && Snapshot() == Session([], false, false, None, initialView)
      ensures imageSize == size && pointerEvents == supportsPointerEvents
    {
      history := [];
      oneFingerZoom := false;
      multitouchZoom := false;
      anchor := None;
      view := initialView;
      imageSize := size;
      pointerEvents := supportsPointerEvents;
      assert !DoubleTap([]) && !OneFinger([]);
    }

    /** The debounce timer firing: the history is forgotten. */
    method ClearHistory()
      requires Valid()
      modifies this`history
      ensures history == [] && Valid()
    {
      history := [];
      assert !DoubleTap([]) && !OneFinger([]);
    }

    /** `_scale` */
    method Scale(target: Point, newScale: real)
      requires Scalable(view, imageSize)
      modifies this`view
      ensures view == ScaleAbout(old(view), imageSize, target, newScale)
    {
      var state := view;
      var originX := target.x - state.positionX;
      var originY := target.y - state.positionY;
      var currentImageWidth := imageSize.width * state.scale;
      var currentImageHeight := imageSize.height * state.scale;
      var mx := originX / currentImageWidth;
      var my := originY / currentImageHeight;
      var newImageWidth := imageSize.width * newScale;
      var newImageHeight := imageSize.height * newScale;
      state := state.(positionX := state.positionX + (originX - newImageWidth * mx),
                      positionY := state.positionY + (originY - newImageHeight * my));
      state := state.(pivotPointX := target.x, pivotPointY := target.y);
      state := state.(scale := newScale);
      view := state;
    }

    /** `_processDbltab` */
    method ProcessDbltab(e: CanonicalEvent)
      requires Scalable(view, imageSize)
      modifies this`view
      ensures view == ScaleAbout(old(view), imageSize, e.targetPoint, DoubleTapScale(old(view)))
    {
      var state := view;
      Scale(e.targetPoint, state.scale + DoubleTapStep);
    }

    /** `_processMultitouchZoom` */
    method ProcessMultitouchZoom(e: CanonicalEvent)
      requires anchor.Some? && PinchReady(anchor.value) && e.distance.Some? && Scalable(view, imageSize)
      modifies this`view
      ensures view == ScaleAbout(old(view), imageSize, e.targetPoint, PinchScale(anchor.value, e.distance.value))
    {
      Scale(e.targetPoint, anchor.value.state.scale * (e.distance.value / anchor.value.event.distance.value));
    }

    /** `_processOneFingerZoom` */
    method ProcessOneFingerZoom(e: CanonicalEvent)
      requires OneFingerBlocked(e, pointerEvents) || (anchor.Some? && Scalable(view, imageSize))
      modifies this`view
      ensures view == if OneFingerBlocked(e, pointerEvents) then old(view)
                      else ScaleAbout(old(view), imageSize, e.targetPoint, OneFingerScale(anchor.value, e.targetPoint))
    {
      if !pointerEvents && e.pointerType != Some(TouchPointer) {
        return;
      }
      Scale(e.targetPoint, anchor.value.state.scale + (e.targetPoint.y - anchor.value.event.targetPoint.y) / ZoomDividerRate);
    }

    /** `_processDrag` */
    method ProcessDrag(e: CanonicalEvent)
      requires anchor.Some?
      modifies this`view
      ensures view == Dragged(old(view), anchor.value, e.targetPoint)
    {
      var a := anchor.value;
      view := view.(positionX := a.state.positionX + (e.targetPoint.x - a.event.targetPoint.x),
                    positionY := a.state.positionY + (e.targetPoint.y - a.event.targetPoint.y));
    }

    /** `_processWheel` */
    method ProcessWheel(e: CanonicalEvent)
      requires e.deltaY.Some? && Scalable(view, imageSize)
      modifies this`view
      ensures view == ScaleAbout(old(view), imageSize, e.targetPoint, WheelScale(old(view), e.deltaY.value))
    {
      var state := view;
      Scale(e.targetPoint, state.scale - e.deltaY.value / ZoomDividerRate);
    }

    /** Lines 41-47 of `_eventHandler`: record the kind and catch a double tap. */
    method RecordKind(e: CanonicalEvent)
      requires RecordDefined(Snapshot(), e, imageSize)
      modifies this`history, this`view
      ensures Snapshot() == Record(old(Snapshot()), e, imageSize)
    {
      history := history + [e.kind];
      if DoubleTap(history) {
        ProcessDbltab(e);
        history := [];
      }
    }

    /** Lines 49-59 of `_eventHandler`: catch a pinch, then a one-finger zoom. */
    method DetectZoom(e: CanonicalEvent)
      requires EscalateDefined(Snapshot(), e)
      modifies this`history, this`multitouchZoom, this`oneFingerZoom
      ensures Snapshot() == Escalate(old(Snapshot()), e)
    {
      if e.distance.Some? && e.distance.value > 1.0 && e.distance != anchor.value.event.distance {
        multitouchZoom := true;
        history := [];
      }
      if OneFinger(history) {
        oneFingerZoom := true;
        history := [];
      }
    }

    /** Lines 61-73 of `_eventHandler`: run the gesture of a move, or anchor any other event. */
    method RunGesture(e: CanonicalEvent)
      requires DispatchDefined(Snapshot(), e, imageSize, pointerEvents)
      modifies this`view, this`anchor
      ensures Snapshot() == Dispatch(old(Snapshot()), e, imageSize, pointerEvents)
    {
      if e.kind == Move {
        if multitouchZoom {
          ProcessMultitouchZoom(e);
        } else if oneFingerZoom {
          ProcessOneFingerZoom(e);
        } else {
          ProcessDrag(e);
        }
      } else {
        anchor := Some(Anchor(view, e));
      }
    }

    /** Lines 75-84 of `_eventHandler`: an end lowers the flags, a wheel zooms. */
    method Finish(e: CanonicalEvent)
      requires SettleDefined(Snapshot(), e, imageSize)
      modifies this`oneFingerZoom, this`multitouchZoom, this`view
      ensures Snapshot() == Settle(old(Snapshot()), e, imageSize)
    {
      if e.kind == End {
        oneFingerZoom := false;
        multitouchZoom := false;
      }
      if e.kind == Wheel {
        ProcessWheel(e);
      }
    }

    /** `_eventHandler` */
    method HandleEvent(e: CanonicalEvent)
      requires Valid() && StepDefined(Snapshot(), e, imageSize, pointerEvents)
      modifies this
      ensures Valid()
      ensures Snapshot() == Step(old(Snapshot()), e, imageSize, pointerEvents)
    {
      ghost var s0 := Snapshot();
      RecordKind(e);
      DetectZoom(e);
      RunGesture(e);
      Finish(e);
      StepQuiet(s0, e, imageSize, pointerEvents);
    }
  }
}
