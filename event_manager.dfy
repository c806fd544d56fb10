/**
 The input normaliser (`EventManager`): it turns raw mouse, touch, pointer and wheel events into
 canonical events. Mouse, touch and wheel events are normalised on their own; pointer events go
 through a table of the active pointers, kept by pointer id, which the manager updates in place.

 The element's top-left offset (`getBoundingClientRect`) and the square root are supplied by the
 caller.
 */
module Input {
  import opened Optional
  import opened Geometry
  import opened Canonical

  /** `Math.sqrt` is a square root wherever it is applied to a non-negative number. */
  ghost predicate IsSqrt(sqrt: real -> real)
  {
    forall v :: v >= 0.0 ==> SqrtAt(sqrt, v)
  }

  // ---------------------------------------------------------------- Object.keys

  /** A set of ids with a member no greater than `n` has a least element. */
  lemma {:induction false} LeastBelow(s: set<nat>, n: nat) returns (m: nat)
    requires exists k :: k in s && k <= n
    ensures m in s && forall k | k in s :: m <= k
    decreases n
  {
    if exists k :: k in s && k < n {
      m := LeastBelow(s, n - 1);
    } else {
      var k :| k in s && k <= n;
      assert k == n;
      m := n;
    }
  }

  /** Every non-empty set of ids has a least element. */
  lemma LeastExists(s: set<nat>)
    requires s != {}
    ensures exists m :: m in s && forall k | k in s :: m <= k
  {
    var x :| x in s;
    var m := LeastBelow(s, x);
  }

  /** The smallest id of a non-empty set. */
  function Least(s: set<nat>): (m: nat)
    requires s != {}
    ensures m in s && forall k | k in s :: m <= k
  {
    LeastExists(s);
    var m :| m in s && forall k | k in s :: m <= k;
    m
  }

  /**
   `Object.keys` of the pointer table. JavaScript lists non-negative integer keys in ascending
   numeric order, whatever order they were inserted in.
   */
  function ObjectKeys(s: set<nat>): (keys: seq<nat>)
    ensures |keys| == |s|
    ensures forall k :: k in keys <==> k in s
    ensures forall i, j | 0 <= i < j < |keys| :: keys[i] < keys[j]
    decreases |s|
  {
    if s == {} then []
    else
      var m := Least(s);
      var rest := s - {m};
      assert |rest| == |s| - 1;
      var tail := ObjectKeys(rest);
      assert forall k | k in tail :: m < k;
      var keys := [m] + tail;
      assert forall i | 0 < i < |keys| :: keys[i] == tail[i - 1];
      keys
  }

  /** The second-smallest id of a set with at least two ids. */
  function SecondLeast(s: set<nat>): (m: nat)
    requires |s| >= 2
    ensures m in s && Least(s) < m
    ensures forall k | k in s && k != Least(s) :: m <= k
  {
    var rest := s - {Least(s)};
    assert rest != {} by {
      assert |rest| == |s| - 1;
    }
    forall k | k in s && k != Least(s)
      ensures Least(rest) <= k
    {
      assert k in rest;
    }
    Least(rest)
  }

  /** The first two keys of a table with at least two entries are its two smallest ids. */
  lemma FirstTwoKeys(s: set<nat>)
    requires |s| >= 2
    ensures |ObjectKeys(s)| >= 2
    ensures ObjectKeys(s)[0] == Least(s) && ObjectKeys(s)[1] == SecondLeast(s)
  {
  }

  // ---------------------------------------------------------------- aggregation

  /** The position and spread of the contacts, before the element offset is subtracted. */
  datatype Contact = Contact(point: Point, distance: real)

  /** The two-contact case: midpoint and distance of the two points. */
  function Pair(first: Point, second: Point, sqrt: real -> real): (c: Contact)
    requires IsSqrt(sqrt)
    ensures c.point == Midpoint(first, second)
    ensures IsRootOf(c.distance, SquaredDistance(first, second))
  {
    SquaredDistanceZero(first, second);
    Contact(Midpoint(first, second), Distance(first, second, sqrt))
  }

  /**
   `_pointerEventHandler`, lines 205-236: one pointer gives its own position and distance 1; two or
   more give the midpoint and distance of the first two keys; none gives the event's own position.
   */
  function Aggregate(table: map<nat, Point>, own: Point, sqrt: real -> real): (c: Contact)
    requires IsSqrt(sqrt)
    ensures table.Keys == {} ==> c == Contact(own, 1.0)
    ensures |table.Keys| == 1 ==> c == Contact(table[Least(table.Keys)], 1.0)
    ensures |table.Keys| >= 2 ==>
      var first, second := table[Least(table.Keys)], table[SecondLeast(table.Keys)];
      c.point == Midpoint(first, second) && IsRootOf(c.distance, SquaredDistance(first, second))
  {
    var keys := ObjectKeys(table.Keys);
    if |keys| == 1 then
      assert keys[0] in table.Keys;
      Contact(table[keys[0]], 1.0)
    else if |keys| > 1 then
      FirstTwoKeys(table.Keys);
      Pair(table[keys[0]], table[keys[1]], sqrt)
    else
      Contact(own, 1.0)
  }

  // ---------------------------------------------------------------- pointer events

  /** A pointer event: its type, `pointerId`, client position and `pointerType`. */
  datatype PointerInput = PointerInput(eventType: RawType, pointerId: nat, client: Point, pointerType: string)

  /** The pointer table after an event (lines 193-203). */
  function TableAfter(table: map<nat, Point>, ev: PointerInput): map<nat, Point>
  {
    if ev.eventType == PointerDown || ev.eventType == PointerMove then table[ev.pointerId := ev.client]
    else if ev.eventType == PointerUp || ev.eventType == PointerCancel then table - {ev.pointerId}
    else table
  }

  /**
   A press or a move records the pointer's position under its id, a release or a cancellation
   forgets the id, any other type leaves the table alone, and no other id's entry ever changes.
   */
  lemma TableUpdate(table: map<nat, Point>, ev: PointerInput)
    ensures forall k | k != ev.pointerId ::
      (k in TableAfter(table, ev) <==> k in table) && (k in table ==> TableAfter(table, ev)[k] == table[k])
    ensures ev.eventType in {PointerDown, PointerMove} ==>
      ev.pointerId in TableAfter(table, ev) && TableAfter(table, ev)[ev.pointerId] == ev.client
    ensures ev.eventType in {PointerUp, PointerCancel} ==> ev.pointerId !in TableAfter(table, ev)
    ensures ev.eventType !in {PointerDown, PointerMove, PointerUp, PointerCancel} ==> TableAfter(table, ev) == table
  {
  }

  /** The canonical event emitted for a pointer event, given the table after it (lines 185-187, 205-246). */
  function PointerOutput(ev: PointerInput, table: map<nat, Point>, offset: Point, sqrt: real -> real): (out: Option<CanonicalEvent>)
    requires IsSqrt(sqrt)
    ensures out.None? <==> ev.eventType == Unlisted
  {
    if ev.eventType == Unlisted then None
    else
      var c := Aggregate(table, ev.client, sqrt);
      Some(CanonicalEvent(Events(ev.eventType).value, Relative(c.point, offset), Some(c.distance), None, Some(ev.pointerType)))
  }

  lemma NonEmpty(table: map<nat, Point>, id: nat)
    requires id in table
    ensures table.Keys != {}
  {
  }

  /** Forgetting one id empties no table that had another entry. */
  lemma NonEmptyBefore(table: map<nat, Point>, id: nat)
    ensures (table - {id}).Keys != {} ==> table.Keys != {}
  {
    if (table - {id}).Keys != {} {
      var k :| k in table - {id};
      NonEmpty(table, k);
    }
  }

  /** `EventManager`, reduced to the state its pointer handler keeps. */
  class EventManager {
    /** `_pointers`: the client position of every active pointer, by pointer id. */
    var pointers: map<nat, Point>
    /** Whether the `pointermove`/`pointerup` listeners on the document are attached. */
    ghost var documentListening: bool

    /** The document listeners are attached exactly while some pointer is active. */
    ghost predicate Valid()
      reads this
    {
      documentListening <==> pointers.Keys != {}
    }

    constructor ()
      ensures Valid() && pointers == map[]
    {
      pointers := map[];
      documentListening := false;
    }

    /**
     Lines 193-203 of `_pointerEventHandler`: record, move or forget the event's pointer, and attach
     or detach the document listeners as the table fills or empties.
     */
    method Track(ev: PointerInput)
      requires Valid()
      requires ev.eventType == PointerMove ==> documentListening
      modifies this
      ensures Valid()
      ensures pointers == TableAfter(old(pointers), ev)
    {
      var table := pointers;
      ghost var after := TableAfter(table, ev);
      if ev.eventType == PointerDown {
        table := table[ev.pointerId := ev.client];
        documentListening := true;
        NonEmpty(table, ev.pointerId);
      } else if ev.eventType == PointerUp || ev.eventType == PointerCancel {
        NonEmptyBefore(table, ev.pointerId);
        table := table - {ev.pointerId};
        if table.Keys == {} {
          documentListening := false;
        }
      } else if ev.eventType == PointerMove {
        table := table[ev.pointerId := ev.client];
        NonEmpty(table, ev.pointerId);
      }
      assert table == after;
      pointers := table;
    }

    /**
     `_pointerEventHandler`. A `pointermove` reaches the handler only through the document
     listeners, so only while they are attached.
     */
    method HandlePointer(ev: PointerInput, offset: Point, sqrt: real -> real) returns (out: Option<CanonicalEvent>)
      requires Valid()
      requires ev.eventType == PointerMove ==> documentListening
      requires IsSqrt(sqrt)
      modifies this
      ensures Valid()
      ensures pointers == TableAfter(old(pointers), ev)
      ensures out == PointerOutput(ev, pointers, offset, sqrt)
    {
      if Events(ev.eventType).None? {
        TableUpdate(pointers, ev);
        return None;
      }
      Track(ev);
      out := PointerOutput(ev, pointers, offset, sqrt);
    }
  }

  // ---------------------------------------------------------------- mouse, wheel and touch events

  /** A mouse event: its type and client position. */
  datatype MouseInput = MouseInput(eventType: RawType, client: Point)

  /** `_mouseEventHandler`: always one contact, at the cursor, with distance 1. */
  function MouseEvent(ev: MouseInput, offset: Point): (e: CanonicalEvent)
    requires ev.eventType in MouseTypes
    ensures Some(e.kind) == Events(ev.eventType)
    ensures e.targetPoint.x + offset.x == ev.client.x && e.targetPoint.y + offset.y == ev.client.y
    ensures e.distance == Some(1.0) && e.deltaY.None? && e.pointerType.None?
  {
    CanonicalEvent(Events(ev.eventType).value, Relative(ev.client, offset), Some(1.0), None, None)
  }

  /** A wheel event: its client position and vertical delta. */
  datatype WheelInput = WheelInput(client: Point, deltaY: real)

  /** `_wheelEventHandler`: the delta passes through unchanged; the event carries no distance. */
  function WheelEvent(ev: WheelInput, offset: Point): (e: CanonicalEvent)
    ensures e.kind == Wheel && e.deltaY == Some(ev.deltaY)
    ensures e.targetPoint.x + offset.x == ev.client.x && e.targetPoint.y + offset.y == ev.client.y
    ensures e.distance.None? && e.pointerType.None?
  {
    CanonicalEvent(Events(WheelType).value, Relative(ev.client, offset), None, Some(ev.deltaY), None)
  }

  /** A touch event: its type, `touches` and `changedTouches` (client positions, in list order). */
  datatype TouchInput = TouchInput(eventType: RawType, touches: seq<Point>, changedTouches: seq<Point>)

  /** The list `_touchEventHandler` reads: `touches`, or `changedTouches` once no finger is left. */
  function TouchList(ev: TouchInput): seq<Point>
  {
    if |ev.touches| == 0 then ev.changedTouches else ev.touches
  }

  /**
   `_touchEventHandler`: one touch gives its position and distance 1; otherwise the midpoint and
   distance of the first two. An empty list would make the source read `clientX` of `undefined`.
   */
  function TouchEvent(ev: TouchInput, offset: Point, sqrt: real -> real): (e: CanonicalEvent)
    requires ev.eventType in TouchTypes
    requires |TouchList(ev)| > 0
    requires IsSqrt(sqrt)
    ensures Some(e.kind) == Events(ev.eventType)
    ensures e.deltaY.None? && e.pointerType.None? && e.distance.Some?
    ensures |TouchList(ev)| == 1 ==> e.distance == Some(1.0) && e.targetPoint == Relative(TouchList(ev)[0], offset)
    ensures |TouchList(ev)| >= 2 ==>
      var first, second := TouchList(ev)[0], TouchList(ev)[1];
      e.targetPoint == Relative(Midpoint(first, second), offset) && IsRootOf(e.distance.value, SquaredDistance(first, second))
  {
    var touches := TouchList(ev);
    var c := if |touches| == 1 then Contact(touches[0], 1.0) else Pair(touches[0], touches[1], sqrt);
    CanonicalEvent(Events(ev.eventType).value, Relative(c.point, offset), Some(c.distance), None, None)
  }

  // ---------------------------------------------------------------- properties

  /** A least element is the least element. */
  lemma LeastIs(s: set<nat>, m: nat)
    requires m in s && forall k | k in s :: m <= k
    ensures Least(s) == m
  {
  }

  /**
   A pointer other than the first two, pressed later with a greater id or already tracked, moves
   neither the target point nor the distance: only the two smallest ids count.
   */
  lemma OtherPointerIgnored(table: map<nat, Point>, id: nat, p: Point, own: Point, sqrt: real -> real)
    requires IsSqrt(sqrt)
    requires |table.Keys| >= 2
    requires id != Least(table.Keys) && id != SecondLeast(table.Keys)
    requires id in table || SecondLeast(table.Keys) < id
    ensures Aggregate(table[id := p], own, sqrt) == Aggregate(table, own, sqrt)
  {
    var s, s' := table.Keys, table[id := p].Keys;
    var least, second := Least(s), SecondLeast(s);
    assert s' == s + {id};
    assert |s'| >= 2 by {
      assert {least, second} <= s';
    }
    LeastIs(s', least);
    assert s' - {least} == (s - {least}) + {id};
    LeastIs(s' - {least}, second);
    TwoContactsAgree(table[id := p], table, own, sqrt);
  }

  /** Releasing a pointer other than the first two leaves the target point and the distance alone. */
  lemma OtherReleaseIgnored(table: map<nat, Point>, id: nat, own: Point, sqrt: real -> real)
    requires IsSqrt(sqrt)
    requires |table.Keys| >= 2
    requires id != Least(table.Keys) && id != SecondLeast(table.Keys)
    ensures Aggregate(table - {id}, own, sqrt) == Aggregate(table, own, sqrt)
  {
    var s, s' := table.Keys, (table - {id}).Keys;
    var least, second := Least(s), SecondLeast(s);
    assert s' == s - {id};
    assert |s'| >= 2 by {
      assert second in s' - {least};
      assert |s' - {least}| == |s'| - 1;
    }
    LeastIs(s', least);
    assert s' - {least} == (s - {least}) - {id};
    LeastIs(s' - {least}, second);
    TwoContactsAgree(table - {id}, table, own, sqrt);
  }

  /** Two tables of two or more pointers whose first two contacts agree aggregate alike. */
  lemma TwoContactsAgree(t: map<nat, Point>, u: map<nat, Point>, own: Point, sqrt: real -> real)
    requires IsSqrt(sqrt)
    requires |t.Keys| >= 2 && |u.Keys| >= 2
    requires t[Least(t.Keys)] == u[Least(u.Keys)] && t[SecondLeast(t.Keys)] == u[SecondLeast(u.Keys)]
    ensures Aggregate(t, own, sqrt) == Aggregate(u, own, sqrt)
  {
    var first, second := u[Least(u.Keys)], u[SecondLeast(u.Keys)];
    RootUnique(Aggregate(t, own, sqrt).distance, Aggregate(u, own, sqrt).distance, SquaredDistance(first, second));
  }

  /**
   Lifting the lowest of three pointers hands the gesture to the other two: the target moves to
   their midpoint and the distance becomes theirs.
   */
  lemma ReleaseLowestRepairs(i: nat, j: nat, k: nat, p: Point, q: Point, r: Point, own: Point, sqrt: real -> real)
    requires IsSqrt(sqrt)
    requires i < j < k
    ensures
      var c := Aggregate(map[i := p, j := q, k := r], own, sqrt);
      c.point == Midpoint(p, q) && IsRootOf(c.distance, SquaredDistance(p, q))
    ensures
      var c := Aggregate(map[i := p, j := q, k := r] - {i}, own, sqrt);
      c.point == Midpoint(q, r) && IsRootOf(c.distance, SquaredDistance(q, r))
  {
    var t := map[i := p, j := q, k := r];
    assert t.Keys == {i, j, k};
    assert |t.Keys| == 3;
    LeastIs(t.Keys, i);
    LeastIs(t.Keys - {i}, j);
    var u := t - {i};
    assert u.Keys == {j, k};
    assert |u.Keys| == 2;
    LeastIs(u.Keys, j);
    LeastIs(u.Keys - {j}, k);
  }

  /** A press on an empty table yields a single contact at the press, with distance 1. */
  lemma FirstPress(ev: PointerInput, offset: Point, sqrt: real -> real)
    requires IsSqrt(sqrt)
    requires ev.eventType == PointerDown
    ensures PointerOutput(ev, TableAfter(map[], ev), offset, sqrt)
      == Some(CanonicalEvent(Start, Relative(ev.client, offset), Some(1.0), None, Some(ev.pointerType)))
  {
  }

  /**
   Lifting the last pointer empties the table, so the `end` event falls back on the event's own
   position, with distance 1.
   */
  lemma LastRelease(ev: PointerInput, p: Point, offset: Point, sqrt: real -> real)
    requires IsSqrt(sqrt)
    requires ev.eventType in {PointerUp, PointerCancel}
    ensures TableAfter(map[ev.pointerId := p], ev) == map[]
    ensures PointerOutput(ev, map[], offset, sqrt)
      == Some(CanonicalEvent(End, Relative(ev.client, offset), Some(1.0), None, Some(ev.pointerType)))
  {
  }

  /** Only the first two touches of the list matter. */
  lemma TouchIgnoresExtra(ev: TouchInput, ev': TouchInput, offset: Point, sqrt: real -> real)
    requires ev.eventType == ev'.eventType && ev.eventType in TouchTypes
    requires IsSqrt(sqrt)
    requires |TouchList(ev)| >= 2 && |TouchList(ev')| >= 2
    requires TouchList(ev)[..2] == TouchList(ev')[..2]
    ensures TouchEvent(ev, offset, sqrt) == TouchEvent(ev', offset, sqrt)
  {
  }

  /**
   One finger reads alike through every input path: a one-touch event, a one-pointer table and a
   mouse event at the same place give the same target point and distance.
   */
  lemma SingleContactAgrees(touch: TouchInput, pointer: PointerInput, table: map<nat, Point>,
                            mouse: MouseInput, offset: Point, sqrt: real -> real)
    requires IsSqrt(sqrt)
    requires touch.eventType in TouchTypes && |TouchList(touch)| == 1
    requires pointer.eventType != Unlisted && |table.Keys| == 1
    requires mouse.eventType in MouseTypes
    requires table[Least(table.Keys)] == TouchList(touch)[0] == mouse.client
    ensures
      var t, p, m := TouchEvent(touch, offset, sqrt), PointerOutput(pointer, table, offset, sqrt).value, MouseEvent(mouse, offset);
      t.targetPoint == p.targetPoint == m.targetPoint && t.distance == p.distance == m.distance
  {
  }
}
