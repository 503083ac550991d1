/**
 * The flag handling of `THREE.TransformControls` (js/lib/ThreeControls.js:1811-2356):
 * which handle is highlighted (`axis`), whether a drag is in progress (`_dragging`),
 * the attached object, the current mode and which gizmo is visible.
 *
 * Raycasting is an input: a pointer event carries the name of the picker the ray
 * hits first (if any), the point where it meets the active helper plane (if it
 * does), the eye vector and the engine's rotation matrices at that moment.
 */
module Transform {
  import opened Optional
  import opened Gizmo
  import V = Vectors

  /** The attached object, reduced to what translate and scale drags change. */
  datatype Obj = Obj(position: V.Vec3, scale: V.Vec3)

  /** The events the controls dispatch: `change`, `mouseDown`, `mouseUp` (with the mode), `objectChange`. */
  datatype Notice = Change | MouseDown | MouseUp(mode: Mode) | ObjectChange

  /** Each gizmo keeps its own active plane; all start on `XYZE` (line 1316). */
  datatype Planes = Planes(translate: Plane, rotate: Plane, scale: Plane) {
    function Get(m: Mode): Plane {
      match m
      case Translate => translate
      case Rotate => rotate
      case Scale => scale
    }

    function Set(m: Mode, p: Plane): (r: Planes)
      ensures r.Get(m) == p
      ensures forall n: Mode :: n != m ==> r.Get(n) == Get(n)
    {
      match m
      case Translate => this.(translate := p)
      case Rotate => this.(rotate := p)
      case Scale => this.(scale := p)
    }
  }

  datatype Controls = Controls(
    attached: Option<Obj>,
    visible: bool,
    axis: Option<string>,
    dragging: bool,
    mode: Mode,
    space: string,
    translationSnap: Option<real>,
    rotationSnap: Option<real>,
    size: real,
    planes: Planes,
    shown: set<Mode>,
    grab: Grab)

  /** The matrices and scale the engine supplies when a drag starts (lines 2089-2093). */
  datatype Frame = Frame(worldRot: V.Mat3, worldRotInv: V.Mat3, oldRot: V.Mat3, parentRotInv: V.Mat3, parentScale: V.Vec3)

  /**
   * One pointer event: its `button` (absent for touches), whether it is a touch,
   * the picker hit, the hit on the active plane, the eye vector in the gizmo's frame.
   */
  datatype Pointer = Pointer(
    button: Option<int>,
    touch: bool,
    pick: Option<string>,
    planeHit: Option<V.Vec3>,
    eye: V.Vec3,
    frame: Frame)

  datatype Outcome = Outcome(c: Controls, notices: seq<Notice>)

  /** The state right after construction (lines 1820-1845). */
  function Create(): (c: Controls)
    ensures c.attached.None? && !c.visible && c.axis.None? && !c.dragging
    ensures c.mode == Translate && c.space == "world" && c.shown == {Translate}
    ensures forall m: Mode :: c.planes.Get(m) == XYZE
  {
    Controls(
      None, false, None, false, Translate, "world", None, None, 1.0,
      Planes(XYZE, XYZE, XYZE), {Translate},
      Grab(V.Zero, V.Zero, V.Zero, V.Identity, V.Identity, V.Identity, V.Identity, V.Zero))
  }

  /** The gizmo of the current mode, and only it, is visible; the controls are visible exactly while an object is attached. */
  predicate Consistent(c: Controls) {
    c.shown == {c.mode} && (c.visible <==> c.attached.Some?)
  }

  /** The guard shared by hover and down: an object is attached, no drag is running, and the button is the primary one or absent. */
  predicate Ready(c: Controls, p: Pointer) {
    c.attached.Some? && !c.dragging && (p.button.None? || p.button == Some(0))
  }

  /** `attach` (lines 1927-1933). */
  function Attach(c: Controls, o: Obj): (r: Controls)
    ensures r.attached == Some(o) && r.visible
    ensures r.axis == c.axis && r.dragging == c.dragging && r.mode == c.mode && r.space == c.space
  {
    c.(attached := Some(o), visible := true)
  }

  /** `detach` (lines 1935-1941): it does not stop a running drag. */
  function Detach(c: Controls): (r: Controls)
    ensures r.attached.None? && !r.visible && r.axis.None?
    ensures r.dragging == c.dragging && r.mode == c.mode && r.space == c.space
  {
    c.(attached := None, visible := false, axis := None)
  }

  /**
   * `setMode` (lines 1949-1960): an absent (falsy) mode keeps the current one;
   * scale mode forces local space; the gizmo of the resulting mode alone is shown.
   */
  function SetMode(c: Controls, mode: Option<Mode>): (r: Outcome)
    ensures mode.Some? ==> r.c.mode == mode.value
    ensures mode.None? ==> r.c.mode == c.mode
    ensures r.c.mode == Scale ==> r.c.space == "local"
    ensures r.c.mode != Scale ==> r.c.space == c.space
    ensures forall m: Mode :: m in r.c.shown <==> m == r.c.mode
    ensures r.c.attached == c.attached && r.c.visible == c.visible && r.c.axis == c.axis && r.c.dragging == c.dragging
    ensures r.notices == [Change]
  {
    var m := mode.GetOr(c.mode);
    var space := if m == Scale then "local" else c.space;
    Outcome(c.(mode := m, space := space, shown := {m}), [Change])
  }

  /** `setSpace` (lines 1982-1988): any name is stored; only "local" and "world" mean anything to the drags. */
  function SetSpace(c: Controls, space: string): (r: Outcome)
    ensures r.c.space == space && r.c.mode == c.mode && r.c.shown == c.shown
    ensures r.c.attached == c.attached && r.c.axis == c.axis && r.c.dragging == c.dragging
    ensures r.notices == [Change]
  {
    Outcome(c.(space := space), [Change])
  }

  /** `setSize` (lines 1974-1980). */
  function SetSize(c: Controls, size: real): (r: Outcome)
    ensures r.c.size == size && r.c.space == c.space && r.c.mode == c.mode
    ensures r.c.attached == c.attached && r.c.axis == c.axis && r.c.dragging == c.dragging
    ensures r.notices == [Change]
  {
    Outcome(c.(size := size), [Change])
  }

  /** `setTranslationSnap` and `setRotationSnap` (lines 1962-1972) dispatch nothing. */
  function SetTranslationSnap(c: Controls, snap: Option<real>): (r: Controls)
    ensures r.translationSnap == snap && r.rotationSnap == c.rotationSnap
    ensures r.space == c.space && r.mode == c.mode && r.attached == c.attached && r.axis == c.axis && r.dragging == c.dragging
  {
    c.(translationSnap := snap)
  }

  function SetRotationSnap(c: Controls, snap: Option<real>): (r: Controls)
    ensures r.rotationSnap == snap && r.translationSnap == c.translationSnap
    ensures r.space == c.space && r.mode == c.mode && r.attached == c.attached && r.axis == c.axis && r.dragging == c.dragging
  {
    c.(rotationSnap := snap)
  }

  /**
   * `onPointerHover` (lines 2030-2056): outside a drag, the highlighted handle
   * follows the picker under the pointer, and a change of handle is announced.
   */
  function PointerHover(c: Controls, p: Pointer): (r: Outcome)
    ensures !Ready(c, p) ==> r == Outcome(c, [])
    ensures Ready(c, p) ==> r.c == c.(axis := p.pick)
    ensures Ready(c, p) ==> (r.notices == [Change] <==> c.axis != p.pick)
    ensures r.notices == [] || r.notices == [Change]
  {
    if !Ready(c, p) then Outcome(c, [])
    else if c.axis != p.pick then Outcome(c.(axis := p.pick), [Change])
    else Outcome(c, [])
  }

  /**
   * `onPointerDown` (lines 2058-2106). A hit handle becomes `axis`, chooses its
   * gizmo's active plane from the eye vector and, when the pointer's ray meets that
   * plane, records the object's position and scale and the hit as the drag start.
   * The drag flag is raised whenever the guard passes, handle or not.
   */
  function PointerDown(c: Controls, p: Pointer): (r: Outcome)
    ensures !Ready(c, p) ==> r == Outcome(c, [])
    ensures Ready(c, p) ==> r.c.dragging
    ensures Ready(c, p) ==> (r.notices == [MouseDown] <==> p.pick.Some?)
    ensures r.notices == [] || r.notices == [MouseDown]
    ensures Ready(c, p) && p.pick.Some? ==>
      && r.c.axis == p.pick
      && r.c.planes.Get(c.mode) == ActivePlane(c.mode, p.pick.value, p.eye, c.planes.Get(c.mode))
    ensures Ready(c, p) && p.pick.Some? && p.planeHit.Some? ==>
      && r.c.grab.offset == p.planeHit.value
      && r.c.grab.oldPosition == c.attached.value.position
      && r.c.grab.oldScale == c.attached.value.scale
    ensures p.pick.None? ==> r.c.axis == c.axis && r.c.grab == c.grab && r.c.planes == c.planes
    ensures r.c.attached == c.attached && r.c.visible == c.visible && r.c.mode == c.mode && r.c.shown == c.shown
    ensures r.c.space == c.space && r.c.translationSnap == c.translationSnap
  {
    if !Ready(c, p) then Outcome(c, [])
    else match p.pick
      case None => Outcome(c.(dragging := true), [])
      case Some(name) =>
        var plane := ActivePlane(c.mode, name, p.eye, c.planes.Get(c.mode));
        var grab := match p.planeHit
          case None => c.grab
          case Some(hit) =>
            var f := p.frame;
            var o := c.attached.value;
            Grab(o.position, o.scale, hit, f.worldRot, f.worldRotInv, f.oldRot, f.parentRotInv, f.parentScale);
        Outcome(c.(axis := Some(name), planes := c.planes.Set(c.mode, plane), grab := grab, dragging := true), [MouseDown])
  }

  /** The guard of `onPointerMove` (line 2110). */
  predicate Dragging(c: Controls, p: Pointer) {
    c.attached.Some? && c.axis.Some? && c.dragging && (p.button.None? || p.button == Some(0))
  }

  /**
   * The new pose of the object under a drag in the current mode. A zero snap step,
   * or a zero starting scale component on the dragged axis (the largest one for the
   * uniform handle), would make the source compute NaN or an infinity; the model
   * leaves the object where it is in those cases. The rotate
   * mode's quaternion arithmetic is not modelled, so it leaves the object as well.
   */
  function Dragged(c: Controls, hit: V.Vec3): (o: Obj)
    requires c.attached.Some? && c.axis.Some?
    ensures c.mode == Translate && SnapUsable(c.translationSnap) ==>
      o == c.attached.value.(position := TranslateDrag(c.axis.value, c.space, c.attached.value.position, c.grab, hit, c.translationSnap))
    ensures c.mode == Scale && ScaleUsable(c.axis.value, c.grab) ==>
      o == c.attached.value.(scale := ScaleDrag(c.axis.value, c.space, c.attached.value.scale, c.grab, hit))
    ensures c.mode == Translate ==> o.scale == c.attached.value.scale
    ensures c.mode == Scale ==> o.position == c.attached.value.position
    ensures c.mode == Rotate ==> o == c.attached.value
  {
    var o := c.attached.value;
    match c.mode
    case Translate =>
      if SnapUsable(c.translationSnap) then o.(position := TranslateDrag(c.axis.value, c.space, o.position, c.grab, hit, c.translationSnap))
      else o
    case Scale =>
      if ScaleUsable(c.axis.value, c.grab) then o.(scale := ScaleDrag(c.axis.value, c.space, o.scale, c.grab, hit))
      else o
    case Rotate => o
  }

  /**
   * `onPointerMove` (lines 2108-2311): acts only during a drag on a handle with an
   * object attached, and only when the ray meets the active plane; then the object
   * moves and both `change` and `objectChange` are dispatched.
   */
  function PointerMove(c: Controls, p: Pointer): (r: Outcome)
    ensures !Dragging(c, p) || p.planeHit.None? ==> r == Outcome(c, [])
    ensures Dragging(c, p) && p.planeHit.Some? ==>
      r == Outcome(c.(attached := Some(Dragged(c, p.planeHit.value))), [Change, ObjectChange])
    ensures r.c.attached.Some? <==> c.attached.Some?
    ensures r.c.axis == c.axis && r.c.dragging == c.dragging && r.c.mode == c.mode && r.c.visible == c.visible
  {
    if !Dragging(c, p) then Outcome(c, [])
    else match p.planeHit
      case None => Outcome(c, [])
      case Some(hit) => Outcome(c.(attached := Some(Dragged(c, hit))), [Change, ObjectChange])
  }

  /**
   * `onPointerUp` (lines 2313-2342): a secondary button is ignored; otherwise the
   * drag ends, `mouseUp` (carrying the mode) is dispatched only if a handle was being
   * dragged, and the highlight is recomputed: a touch always clears it, a mouse
   * hovers again.
   */
  function PointerUp(c: Controls, p: Pointer): (r: Outcome)
    ensures p.button.Some? && p.button != Some(0) ==> r == Outcome(c, [])
    ensures p.button.None? || p.button == Some(0) ==>
      && !r.c.dragging
      && (MouseUp(c.mode) in r.notices <==> c.dragging && c.axis.Some?)
      && (p.touch ==> r.c.axis.None? && |r.notices| > 0 && r.notices[|r.notices| - 1] == Change)
      && (!p.touch && c.attached.Some? ==> r.c.axis == p.pick)
    ensures r.c.attached == c.attached && r.c.mode == c.mode && r.c.visible == c.visible && r.c.grab == c.grab
  {
    if p.button.Some? && p.button != Some(0) then Outcome(c, [])
    else
      var ended: seq<Notice> := if c.dragging && c.axis.Some? then [MouseUp(c.mode)] else [];
      var idle := c.(dragging := false);
      if p.touch then Outcome(idle.(axis := None), ended + [Change])
      else
        var h := PointerHover(idle, p);
        Outcome(h.c, ended + h.notices)
  }

  datatype Event =
    | AttachEvent(o: Obj)
    | DetachEvent
    | SetModeEvent(mode: Option<Mode>)
    | SetSpaceEvent(space: string)
    | SetSizeEvent(size: real)
    | SetTranslationSnapEvent(snap: Option<real>)
    | SetRotationSnapEvent(snap: Option<real>)
    | HoverEvent(p: Pointer)
    | DownEvent(p: Pointer)
    | MoveEvent(p: Pointer)
    | UpEvent(p: Pointer)

  function Step(c: Controls, e: Event): Outcome {
    match e
    case AttachEvent(o) => Outcome(Attach(c, o), [])
    case DetachEvent => Outcome(Detach(c), [])
    case SetModeEvent(m) => SetMode(c, m)
    case SetSpaceEvent(s) => SetSpace(c, s)
    case SetSizeEvent(s) => SetSize(c, s)
    case SetTranslationSnapEvent(s) => Outcome(SetTranslationSnap(c, s), [])
    case SetRotationSnapEvent(s) => Outcome(SetRotationSnap(c, s), [])
    case HoverEvent(p) => PointerHover(c, p)
    case DownEvent(p) => PointerDown(c, p)
    case MoveEvent(p) => PointerMove(c, p)
    case UpEvent(p) => PointerUp(c, p)
  }

  function Run(c: Controls, events: seq<Event>): Controls
    decreases |events|
  {
    if events == [] then c else Run(Step(c, events[0]).c, events[1..])
  }

  /** Every operation keeps exactly the current mode's gizmo shown, and the controls visible exactly while attached. */
  lemma StepKeepsConsistent(c: Controls, e: Event)
    requires Consistent(c)
    ensures Consistent(Step(c, e).c)
  {
    match e
    case SetModeEvent(m) =>
      var r := SetMode(c, m).c;
      assert forall x: Mode :: x in r.shown <==> x in {r.mode};
    case _ =>
  }

  lemma {:induction false} RunKeepsConsistent(c: Controls, events: seq<Event>)
    requires Consistent(c)
    ensures Consistent(Run(c, events))
    decreases |events|
  {
    if events != [] {
      StepKeepsConsistent(c, events[0]);
      RunKeepsConsistent(Step(c, events[0]).c, events[1..]);
    }
  }

  /** Freshly built controls are consistent, so every run from them stays so. */
  lemma CreatedRunsConsistent(events: seq<Event>)
    ensures Consistent(Run(Create(), events))
  {
    RunKeepsConsistent(Create(), events);
  }

  /**
   * A press on a handle followed by a primary release brackets a drag: the press
   * announces `mouseDown`, the release announces `mouseUp` in the same mode, and
   * no drag is left running.
   */
  lemma PressReleaseBrackets(c: Controls, down: Pointer, up: Pointer)
    requires Ready(c, down) && down.pick.Some?
    requires up.button.None? || up.button == Some(0)
    ensures var d := PointerDown(c, down);
      && d.notices == [MouseDown]
      && var u := PointerUp(d.c, up);
      && MouseUp(c.mode) in u.notices
      && !u.c.dragging
  {
    var d := PointerDown(c, down);
    assert d.c.dragging && d.c.axis.Some? && d.c.mode == c.mode;
  }

  /** Once the pointer is released, moving it changes nothing until the next press. */
  lemma ReleaseStopsMoves(c: Controls, up: Pointer, move: Pointer)
    requires up.button.None? || up.button == Some(0)
    ensures var u := PointerUp(c, up).c;
      PointerMove(u, move) == Outcome(u, [])
  {
    var u := PointerUp(c, up).c;
    assert !u.dragging;
  }

  /** Hovering twice over the same picker announces at most one change, and the second hover is a no-op. */
  lemma HoverSettles(c: Controls, p: Pointer)
    ensures var h := PointerHover(c, p);
      PointerHover(h.c, p) == Outcome(h.c, [])
  {
    var h := PointerHover(c, p);
    if Ready(c, p) {
      assert Ready(h.c, p) && h.c.axis == p.pick;
    }
  }

  /** Detaching and re-attaching leaves the controls visible on the new object with no handle highlighted. */
  lemma DetachAttach(c: Controls, o: Obj)
    requires Consistent(c)
    ensures var r := Attach(Detach(c), o);
      Consistent(r) && r.axis.None? && r.attached == Some(o)
  {
  }

  /** Selecting the same mode twice is the same as selecting it once. */
  lemma SetModeIdempotent(c: Controls, m: Option<Mode>)
    ensures SetMode(SetMode(c, m).c, m).c == SetMode(c, m).c
  {
  }
}
