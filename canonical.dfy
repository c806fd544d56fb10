/** Optional values, for the fields a canonical event may lack (`undefined` in the source). */
module Optional {
  datatype Option<T> = None | Some(value: T)
}

/**
 The canonical event every input family is normalised into, and the `EVENTS` table that names the
 kind of each raw event type.
 */
module Canonical {
  import opened Optional
  import opened Geometry

  /** The four canonical event kinds (`'start'`, `'move'`, `'end'`, `'wheel'`). */
  datatype Kind = Start | Move | End | Wheel

  /**
   Raw DOM event types: the twelve the `EVENTS` table lists (`mousedown`, `mousemove`, `mouseup`,
   `touchstart`, `touchmove`, `touchend`, `touchcancel`, `wheel`, `pointerdown`, `pointermove`,
   `pointerup`, `pointercancel`), and `Unlisted` for any other type.
   */
  datatype RawType =
    | MouseDown | MouseMove | MouseUp
    | TouchStart | TouchMove | TouchEnd | TouchCancel
    | WheelType
    | PointerDown | PointerMove | PointerUp | PointerCancel
    | Unlisted

  const MouseTypes: set<RawType> := {MouseDown, MouseMove, MouseUp}
  const TouchTypes: set<RawType> := {TouchStart, TouchMove, TouchEnd, TouchCancel}

  /** `EVENTS[type]`: the canonical kind of a raw type, `undefined` for a type the table does not list. */
  function Events(t: RawType): (k: Option<Kind>)
    ensures k.None? <==> t == Unlisted
  {
    match t
    case MouseDown => Some(Start)
    case MouseMove => Some(Move)
    case MouseUp => Some(End)
    case TouchStart => Some(Start)
    case TouchMove => Some(Move)
    case TouchEnd => Some(End)
    case TouchCancel => Some(End)
    case WheelType => Some(Wheel)
    case PointerDown => Some(Start)
    case PointerMove => Some(Move)
    case PointerUp => Some(End)
    case PointerCancel => Some(End)
    case Unlisted => None
  }

  /**
   The record handed to the gesture controller: `{type, targetPoint, distance, deltaY, pointerType}`.
   A field the source leaves `undefined` is `None`.
   */
  datatype CanonicalEvent = CanonicalEvent(
    kind: Kind,
    targetPoint: Point,
    distance: Option<real>,
    deltaY: Option<real>,
    pointerType: Option<string>)

  /**
   The table is total on the listed types and classifies them: presses start, moves move, releases
   and cancellations end, the wheel is a wheel; every other type has no kind.
   */
  lemma EventsClassify(t: RawType)
    ensures Events(t) == Some(Start) <==> t in {MouseDown, TouchStart, PointerDown}
    ensures Events(t) == Some(Move) <==> t in {MouseMove, TouchMove, PointerMove}
    ensures Events(t) == Some(End) <==> t in {MouseUp, TouchEnd, TouchCancel, PointerUp, PointerCancel}
    ensures Events(t) == Some(Wheel) <==> t == WheelType
    ensures Events(t).None? <==> t == Unlisted
  {
  }
}
