/**
 * The selected/hovered bookkeeping of `THREE.DragControls`
 * (js/lib/ThreeControls.js:1025-1180). The draggable objects are identified by
 * their index in the list the controls were built with; raycasting is an input
 * (the index of the first object under the pointer, and the point where the ray
 * meets the drag plane, when it does).
 */
module Drag {
  import opened Optional
  import opened Vectors

  datatype Cursor = Auto | Pointer | Move

  /** The event kinds `hoveron`, `hoveroff`, `dragstart`, `drag` and `dragend`. */
  datatype Kind = HoverOn | HoverOff | DragStart | Dragged | DragEnd

  /** A dispatched event and the object it names. */
  datatype Notice = Notice(kind: Kind, object: nat)

  datatype Controls = Controls(
    positions: seq<Vec3>,
    selected: Option<nat>,
    hovered: Option<nat>,
    offset: Vec3,
    cursor: Cursor,
    enabled: bool,
    active: bool)

  /** What a pointer event brings: the first object hit, and the hit on the drag plane. */
  datatype Ray = Ray(hit: Option<nat>, planeHit: Option<Vec3>)

  datatype Outcome = Outcome(c: Controls, notices: seq<Notice>)

  /** An index names one of the objects. */
  predicate Names(c: Controls, o: Option<nat>) {
    o.Some? ==> o.value < |c.positions|
  }

  predicate Valid(c: Controls) {
    Names(c, c.selected) && Names(c, c.hovered)
  }

  /** A ray can only hit one of the controls' own objects. */
  predicate Fits(c: Controls, ray: Ray) {
    Names(c, ray.hit)
  }

  /** Construction (lines 1041, 1169-1173): nothing selected or hovered, enabled, listening. */
  function Create(positions: seq<Vec3>): (c: Controls)
    ensures Valid(c) && c.positions == positions
    ensures c.selected.None? && c.hovered.None? && c.enabled && c.active
  {
    Controls(positions, None, None, Zero, Auto, true, true)
  }

  /**
   * `onDocumentMouseMove` (lines 1069-1124). While an object is selected and the
   * controls are enabled, it follows the plane hit (less the grab offset) and a
   * `drag` is dispatched even when the plane is missed. Otherwise the hover target
   * follows the ray: `hoveron` for a newly hit object, `hoveroff` when the ray
   * leaves the hovered one.
   */
  function MouseMove(c: Controls, ray: Ray): (r: Outcome)
    requires Valid(c) && Fits(c, ray)
    ensures Valid(r.c) && |r.c.positions| == |c.positions|
    ensures r.c.selected == c.selected && r.c.enabled == c.enabled && r.c.active == c.active
    ensures !c.active ==> r == Outcome(c, [])
    ensures c.active && c.selected.Some? && c.enabled ==>
      && r.notices == [Notice(Dragged, c.selected.value)]
      && r.c.hovered == c.hovered
      && (ray.planeHit.Some? ==> r.c.positions == c.positions[c.selected.value := Sub(ray.planeHit.value, c.offset)])
      && (ray.planeHit.None? ==> r.c.positions == c.positions)
    ensures c.active && (c.selected.None? || !c.enabled) ==>
      && r.c.positions == c.positions
      && r.c.hovered == (if ray.hit.Some? then ray.hit else None)
      && (ray.hit.Some? && c.hovered != ray.hit ==> r.notices == [Notice(HoverOn, ray.hit.value)] && r.c.cursor == Pointer)
      && (ray.hit.None? && c.hovered.Some? ==> r.notices == [Notice(HoverOff, c.hovered.value)] && r.c.cursor == Auto)
      && (c.hovered == ray.hit ==> r == Outcome(c, []))
  {
    if !c.active then Outcome(c, [])
    else if c.selected.Some? && c.enabled then
      var s := c.selected.value;
      var positions := match ray.planeHit
        case Some(p) => c.positions[s := Sub(p, c.offset)]
        case None => c.positions;
      Outcome(c.(positions := positions), [Notice(Dragged, s)])
    else match ray.hit
      case Some(o) =>
        if c.hovered != Some(o) then Outcome(c.(hovered := Some(o), cursor := Pointer), [Notice(HoverOn, o)])
        else Outcome(c, [])
      case None =>
        if c.hovered.Some? then Outcome(c.(hovered := None, cursor := Auto), [Notice(HoverOff, c.hovered.value)])
        else Outcome(c, [])
  }

  /**
   * `onDocumentMouseDown` (lines 1126-1151): a hit object becomes the selection
   * (whether or not the controls are enabled) and, when the ray meets the drag plane,
   * the offset from the object to the hit is kept so the object does not jump.
   */
  function MouseDown(c: Controls, ray: Ray): (r: Outcome)
    requires Valid(c) && Fits(c, ray)
    ensures Valid(r.c) && r.c.positions == c.positions && r.c.hovered == c.hovered && r.c.enabled == c.enabled
    ensures !c.active || ray.hit.None? ==> r == Outcome(c, [])
    ensures c.active && ray.hit.Some? ==>
      && r.c.selected == ray.hit
      && r.notices == [Notice(DragStart, ray.hit.value)]
      && r.c.cursor == Move
      && (ray.planeHit.Some? ==> Add(r.c.offset, c.positions[ray.hit.value]) == ray.planeHit.value)
      && (ray.planeHit.None? ==> r.c.offset == c.offset)
  {
    if !c.active then Outcome(c, [])
    else match ray.hit
      case None => Outcome(c, [])
      case Some(o) =>
        var offset := match ray.planeHit
          case Some(p) => Sub(p, c.positions[o])
          case None => c.offset;
        Outcome(c.(selected := Some(o), offset := offset, cursor := Move), [Notice(DragStart, o)])
  }

  /** `onDocumentMouseUp` (lines 1153-1167): a selection ends with `dragend`; the cursor resets either way. */
  function MouseUp(c: Controls): (r: Outcome)
    requires Valid(c)
    ensures Valid(r.c) && r.c.positions == c.positions && r.c.hovered == c.hovered
    ensures !c.active ==> r == Outcome(c, [])
    ensures c.active ==> r.c.selected.None? && r.c.cursor == Auto
    ensures c.active && c.selected.Some? ==> r.notices == [Notice(DragEnd, c.selected.value)]
    ensures c.selected.None? ==> r.notices == []
  {
    if !c.active then Outcome(c, [])
    else match c.selected
      case Some(s) => Outcome(c.(selected := None, cursor := Auto), [Notice(DragEnd, s)])
      case None => Outcome(c.(cursor := Auto), [])
  }

  datatype Event =
    | MoveEvent(ray: Ray)
    | DownEvent(ray: Ray)
    | UpEvent
    | SetEnabled(on: bool)
    | Activate
    | Deactivate

  predicate EventFits(c: Controls, e: Event) {
    match e
    case MoveEvent(ray) => Fits(c, ray)
    case DownEvent(ray) => Fits(c, ray)
    case _ => true
  }

  /** `activate`/`deactivate` (lines 1047-1061) add and remove the listeners; `enabled` is a public field. */
  function Step(c: Controls, e: Event): (r: Outcome)
    requires Valid(c) && EventFits(c, e)
    ensures Valid(r.c) && |r.c.positions| == |c.positions|
  {
    match e
    case MoveEvent(ray) => MouseMove(c, ray)
    case DownEvent(ray) => MouseDown(c, ray)
    case UpEvent => MouseUp(c)
    case SetEnabled(on) => Outcome(c.(enabled := on), [])
    case Activate => Outcome(c.(active := true), [])
    case Deactivate => Outcome(c.(active := false), [])
  }

  /** Every event's rays hit only objects of the list. */
  predicate AllFit(n: nat, events: seq<Event>) {
    forall i :: 0 <= i < |events| ==> match events[i]
      case MoveEvent(ray) => ray.hit.Some? ==> ray.hit.value < n
      case DownEvent(ray) => ray.hit.Some? ==> ray.hit.value < n
      case _ => true
  }

  function Run(c: Controls, events: seq<Event>): (r: Outcome)
    requires Valid(c) && AllFit(|c.positions|, events)
    ensures Valid(r.c) && |r.c.positions| == |c.positions|
    decreases |events|
  {
    if events == [] then Outcome(c, [])
    else
      var first := Step(c, events[0]);
      var rest := Run(first.c, events[1..]);
      Outcome(rest.c, first.notices + rest.notices)
  }

  /** How many notices of a kind a trace holds. */
  function Count(ns: seq<Notice>, k: Kind): nat
    decreases |ns|
  {
    if ns == [] then 0 else (if ns[0].kind == k then 1 else 0) + Count(ns[1..], k)
  }

  lemma {:induction false} CountAppend(a: seq<Notice>, b: seq<Notice>, k: Kind)
    ensures Count(a + b, k) == Count(a, k) + Count(b, k)
    decreases |a|
  {
    if a == [] {
      assert a + b == b;
    } else {
      assert (a + b)[0] == a[0];
      assert (a + b)[1..] == a[1..] + b;
      CountAppend(a[1..], b, k);
    }
  }

  function Held(o: Option<nat>): nat {
    if o.Some? then 1 else 0
  }

  /**
   * Over any run, every `dragend` answers an earlier `dragstart`, and a selection
   * still held at the end answers one more; likewise `hoveroff` against `hoveron`.
   */
  lemma {:induction false} RunBalanced(c: Controls, events: seq<Event>)
    requires Valid(c) && AllFit(|c.positions|, events)
    ensures var r := Run(c, events);
      && Count(r.notices, DragEnd) + Held(r.c.selected) <= Count(r.notices, DragStart) + Held(c.selected)
      && Count(r.notices, HoverOff) + Held(r.c.hovered) <= Count(r.notices, HoverOn) + Held(c.hovered)
    decreases |events|
  {
    if events != [] {
      var first := Step(c, events[0]);
      assert AllFit(|first.c.positions|, events[1..]) by {
        forall i | 0 <= i < |events[1..]|
          ensures match events[1..][i]
            case MoveEvent(ray) => ray.hit.Some? ==> ray.hit.value < |first.c.positions|
            case DownEvent(ray) => ray.hit.Some? ==> ray.hit.value < |first.c.positions|
            case _ => true
        {
          assert events[1..][i] == events[i + 1];
        }
      }
      RunBalanced(first.c, events[1..]);
      var rest := Run(first.c, events[1..]);
      CountAppend(first.notices, rest.notices, DragEnd);
      CountAppend(first.notices, rest.notices, DragStart);
      CountAppend(first.notices, rest.notices, HoverOff);
      CountAppend(first.notices, rest.notices, HoverOn);
    }
  }

  /**
   * Grabbing an object and moving the pointer to the very point where it was
   * grabbed leaves the object where it was: the offset kept on mouse-down exactly
   * undoes the hit on mouse-move.
   */
  lemma GrabWithoutJump(c: Controls, o: nat, p: Vec3)
    requires Valid(c) && c.active && c.enabled && o < |c.positions|
    ensures var d := MouseDown(c, Ray(Some(o), Some(p)));
      var m := MouseMove(d.c, Ray(None, Some(p)));
      m.c.positions == c.positions && m.notices == [Notice(Dragged, o)]
  {
    var d := MouseDown(c, Ray(Some(o), Some(p)));
    assert d.c.offset == Sub(p, c.positions[o]);
    var m := MouseMove(d.c, Ray(None, Some(p)));
    assert Sub(p, Sub(p, c.positions[o])) == c.positions[o];
    assert m.c.positions == c.positions[o := c.positions[o]];
  }
}
