/**
 * `THREE.OrbitControls` (js/lib/ThreeControls.js, lines 17-889): the gesture state
 * machine driven by mouse, wheel, keyboard and touch events, and the `update()`
 * step that applies and consumes the pending accumulators.
 *
 * The camera's offset from its target is held directly as a spherical record; the
 * engine's conversions between that record and a Cartesian position, the camera
 * orientation and the screen-to-world factors are inputs (`View`) or left out.
 */
module Orbit {
  import opened Numeric
  import opened Vectors
  import opened Optional

  /** The source's `STATE` table; `Idle` is `STATE.NONE`. */
  datatype GestureState = Idle | Rotate | Dolly | Pan | TouchRotate | TouchDolly | TouchPan

  /** What `instanceof` tells about the controlled camera. */
  datatype CameraKind = Perspective | Orthographic | OtherCamera

  /** The `start` / `change` / `end` notifications dispatched to listeners. */
  datatype Notice = Start | Change | End

  /** `Math.pow(0.95, zoomSpeed)`, kept opaque: any positive factor. */
  type PosReal = r: real | r > 0.0 witness 1.0

  /** `mouseButtons`: which button code starts which gesture. */
  datatype Buttons = Buttons(orbit: int, zoom: int, pan: int)

  /** `keys`: the key codes that pan. */
  datatype Keys = Keys(left: int, up: int, right: int, bottom: int)

  datatype Config = Config(
    enabled: bool,
    enableRotate: bool,
    enableKeys: bool,
    enableDamping: bool,
    dampingFactor: real,
    minDistance: Limit, maxDistance: Limit,
    minZoom: Limit, maxZoom: Limit,
    minPolarAngle: Limit, maxPolarAngle: Limit,
    minAzimuthAngle: Limit, maxAzimuthAngle: Limit,
    zoomScale: PosReal,
    keyPanSpeed: real,
    autoRotate: bool,
    /** `getAutoRotationAngle()`, an opaque per-frame angle. */
    autoRotateAngle: real,
    buttons: Buttons,
    keys: Keys)

  /** The configuration the constructor installs (lines 24-77); `pi` is `Math.PI`. */
  function Defaults(pi: real, zoomScale: PosReal, autoRotateAngle: real): (cfg: Config)
    ensures cfg.enabled && cfg.enableRotate && cfg.enableKeys && !cfg.autoRotate
    ensures !cfg.enableDamping && cfg.dampingFactor == 0.25 && cfg.keyPanSpeed == 7.0
    ensures cfg.minDistance == Finite(0.0) && cfg.maxDistance == Unbounded
    ensures cfg.minZoom == Finite(0.0) && cfg.maxZoom == Unbounded
    ensures cfg.minPolarAngle == Finite(0.0) && cfg.maxPolarAngle == Finite(pi)
    ensures cfg.minAzimuthAngle == Unbounded && cfg.maxAzimuthAngle == Unbounded
    ensures cfg.buttons == Buttons(0, 1, 2)
    ensures cfg.keys.left == 37 && cfg.keys.up == 38 && cfg.keys.right == 39 && cfg.keys.bottom == 40
  {
    Config(
      enabled := true, enableRotate := true, enableKeys := true, enableDamping := false, dampingFactor := 0.25,
      minDistance := Finite(0.0), maxDistance := Unbounded,
      minZoom := Finite(0.0), maxZoom := Unbounded,
      minPolarAngle := Finite(0.0), maxPolarAngle := Finite(pi),
      minAzimuthAngle := Unbounded, maxAzimuthAngle := Unbounded,
      zoomScale := zoomScale, keyPanSpeed := 7.0,
      autoRotate := false, autoRotateAngle := autoRotateAngle,
      buttons := Buttons(0, 1, 2),
      keys := Keys(37, 38, 39, 40))
  }

  /** The camera offset from the target: distance, polar angle, azimuthal angle. */
  datatype Spherical = Spherical(radius: real, phi: real, theta: real)

  /** `sphericalDelta`: pending angular change (its radius is never used). */
  datatype Angles = Angles(theta: real, phi: real)

  const NoTurn: Angles := Angles(0.0, 0.0)

  /** Where the camera is: its target and its offset from it. */
  datatype Pose = Pose(target: Vec3, spherical: Spherical)

  /** `target0`, `position0`, `zoom0`, captured at construction for `reset()`. */
  datatype Saved = Saved(pose: Pose, zoom: real)

  datatype Controls = Controls(
    cfg: Config,
    /** `enableZoom` and `enablePan`: the two settings the controls may switch off themselves */
    enableZoom: bool,
    enablePan: bool,
    camera: CameraKind,
    state: GestureState,
    /** the document-level `mousemove` / `mouseup` listeners are registered */
    listening: bool,
    pose: Pose,
    zoom: real,
    zoomChanged: bool,
    delta: Angles,
    scale: real,
    panOffset: Vec3,
    rotateStart: Point,
    panStart: Point,
    /** for touch dolly its `y` holds the SQUARED finger distance */
    dollyStart: Point,
    /** the pose last reported with `change`; `None` before the first report */
    lastPose: Option<Pose>,
    saved: Saved)

  /**
   * Screen-to-camera factors the engine derives from the viewport and camera:
   * radians per pixel for rotation, world units per pixel for panning, and the
   * camera's right (matrix column 0) and up (column 1) directions.
   */
  datatype View = View(
    rotatePerPixelX: real, rotatePerPixelY: real,
    panPerPixelX: real, panPerPixelY: real,
    right: Vec3, up: Vec3)

  /** The controls after handling one event, and what was dispatched, in order. */
  datatype Outcome = Outcome(c: Controls, notices: seq<Notice>)

  predicate MouseGesture(s: GestureState) {
    s == Rotate || s == Dolly || s == Pan
  }

  /** Every gesture started by a mouse button has its move/up listeners registered. */
  predicate Consistent(c: Controls) {
    MouseGesture(c.state) ==> c.listening
  }

  /** The capabilities of `b` are a subset of those of `a`: neither is ever re-enabled. */
  predicate NoneReenabled(a: Controls, b: Controls) {
    (b.enableZoom ==> a.enableZoom) && (b.enablePan ==> a.enablePan)
  }

  /** `b` has the settings, the camera and the gesture of `a`. */
  predicate Keeps(a: Controls, b: Controls) {
    b.cfg == a.cfg && b.camera == a.camera && b.state == a.state && b.listening == a.listening
  }

  //
  // accumulators
  //

  function RotateLeft(c: Controls, angle: real): Controls {
    c.(delta := c.delta.(theta := c.delta.theta - angle))
  }

  function RotateUp(c: Controls, angle: real): Controls {
    c.(delta := c.delta.(phi := c.delta.phi - angle))
  }

  /**
   * `pan(deltaX, deltaY)` (lines 322-360): add the screen displacement, in world
   * units, to the pending pan offset; an unknown camera type disables panning.
   */
  function PanBy(c: Controls, view: View, dx: real, dy: real): (r: Controls)
    ensures Keeps(c, r) && NoneReenabled(c, r) && r.enableZoom == c.enableZoom && r.pose == c.pose
    ensures c.camera == OtherCamera ==> r == c.(enablePan := false)
    ensures c.camera != OtherCamera ==>
      r == c.(panOffset := r.panOffset)
      && Sub(r.panOffset, c.panOffset)
         == Add(Scale(-dx * view.panPerPixelX, view.right), Scale(dy * view.panPerPixelY, view.up))
  {
    match c.camera
    case OtherCamera => c.(enablePan := false)
    case _ =>
      var left := Scale(-(dx * view.panPerPixelX), view.right);
      var up := Scale(dy * view.panPerPixelY, view.up);
      c.(panOffset := Add(Add(c.panOffset, left), up))
  }

  /**
   * `dollyIn(getZoomScale())` (lines 362-381). Perspective: divide the pending scale
   * by the factor. Orthographic: multiply the zoom by it, clamped to the zoom limits,
   * and mark the zoom changed. Any other camera: zooming is disabled.
   */
  function DollyIn(c: Controls): (r: Controls)
    ensures Keeps(c, r) && NoneReenabled(c, r) && r.enablePan == c.enablePan && r.pose == c.pose
    ensures c.camera == Perspective ==> r == c.(scale := r.scale) && r.scale * c.cfg.zoomScale == c.scale
    ensures c.camera == Orthographic ==>
      r == c.(zoom := r.zoom, zoomChanged := true)
      && (Ordered(c.cfg.minZoom, c.cfg.maxZoom) ==> Within(c.cfg.minZoom, c.cfg.maxZoom, r.zoom))
      && (Within(c.cfg.minZoom, c.cfg.maxZoom, c.zoom * c.cfg.zoomScale) ==> r.zoom == c.zoom * c.cfg.zoomScale)
    ensures c.camera == OtherCamera ==> r == c.(enableZoom := false)
  {
    match c.camera
    case Perspective => c.(scale := c.scale / c.cfg.zoomScale)
    case Orthographic =>
      c.(zoom := Clamp(c.cfg.minZoom, c.cfg.maxZoom, c.zoom * c.cfg.zoomScale), zoomChanged := true)
    case OtherCamera => c.(enableZoom := false)
  }

  /** `dollyOut(getZoomScale())` (lines 383-402): the opposite of `DollyIn`. */
  function DollyOut(c: Controls): (r: Controls)
    ensures Keeps(c, r) && NoneReenabled(c, r) && r.enablePan == c.enablePan && r.pose == c.pose
    ensures c.camera == Perspective ==> r == c.(scale := r.scale) && r.scale == c.scale * c.cfg.zoomScale
    ensures c.camera == Orthographic ==>
      r == c.(zoom := r.zoom, zoomChanged := true)
      && (Ordered(c.cfg.minZoom, c.cfg.maxZoom) ==> Within(c.cfg.minZoom, c.cfg.maxZoom, r.zoom))
      && (Within(c.cfg.minZoom, c.cfg.maxZoom, c.zoom / c.cfg.zoomScale) ==> r.zoom * c.cfg.zoomScale == c.zoom)
    ensures c.camera == OtherCamera ==> r == c.(enableZoom := false)
  {
    match c.camera
    case Perspective => c.(scale := c.scale * c.cfg.zoomScale)
    case Orthographic =>
      c.(zoom := Clamp(c.cfg.minZoom, c.cfg.maxZoom, c.zoom / c.cfg.zoomScale), zoomChanged := true)
    case OtherCamera => c.(enableZoom := false)
  }

  //
  // update()
  //

  /** The angular delta `update()` applies: the pending one plus any auto-rotation. */
  function Injected(c: Controls): Angles {
    if c.cfg.autoRotate && c.state == Idle then c.delta.(theta := c.delta.theta - c.cfg.autoRotateAngle)
    else c.delta
  }

  /**
   * The clamping part of `update()` (lines 145-160): add the angular delta, clamp
   * azimuth and polar angle, scale the radius and clamp it to the distance limits.
   */
  function Settle(cfg: Config, s: Spherical, d: Angles, scale: real): (t: Spherical)
    ensures Ordered(cfg.minAzimuthAngle, cfg.maxAzimuthAngle) ==> Within(cfg.minAzimuthAngle, cfg.maxAzimuthAngle, t.theta)
    ensures Within(cfg.minAzimuthAngle, cfg.maxAzimuthAngle, s.theta + d.theta) ==> t.theta == s.theta + d.theta
    ensures Ordered(cfg.minPolarAngle, cfg.maxPolarAngle) ==> Within(cfg.minPolarAngle, cfg.maxPolarAngle, t.phi)
    ensures Within(cfg.minPolarAngle, cfg.maxPolarAngle, s.phi + d.phi) ==> t.phi == s.phi + d.phi
    ensures Ordered(cfg.minDistance, cfg.maxDistance) ==> Within(cfg.minDistance, cfg.maxDistance, t.radius)
    ensures Within(cfg.minDistance, cfg.maxDistance, s.radius * scale) ==> t.radius == s.radius * scale
  {
    Spherical(
      Clamp(cfg.minDistance, cfg.maxDistance, s.radius * scale),
      Clamp(cfg.minPolarAngle, cfg.maxPolarAngle, s.phi + d.phi),
      Clamp(cfg.minAzimuthAngle, cfg.maxAzimuthAngle, s.theta + d.theta))
  }

  /**
   * `update()` (lines 127-208): add the pending rotation, clamp the angles and the
   * scaled radius to their limits, move the target by the pending pan, then consume
   * the accumulators (damping only decays the rotation) and report `change` when the
   * pose moved or the zoom changed since the last report.
   */
  function Update(c: Controls): (r: Outcome)
    ensures var d := Injected(c); var s := c.pose.spherical; var s' := r.c.pose.spherical;
      && (Ordered(c.cfg.minAzimuthAngle, c.cfg.maxAzimuthAngle) ==>
            Within(c.cfg.minAzimuthAngle, c.cfg.maxAzimuthAngle, s'.theta))
      && (Within(c.cfg.minAzimuthAngle, c.cfg.maxAzimuthAngle, s.theta + d.theta) ==> s'.theta == s.theta + d.theta)
      && (Ordered(c.cfg.minPolarAngle, c.cfg.maxPolarAngle) ==>
            Within(c.cfg.minPolarAngle, c.cfg.maxPolarAngle, s'.phi))
      && (Within(c.cfg.minPolarAngle, c.cfg.maxPolarAngle, s.phi + d.phi) ==> s'.phi == s.phi + d.phi)
      && (Ordered(c.cfg.minDistance, c.cfg.maxDistance) ==>
            Within(c.cfg.minDistance, c.cfg.maxDistance, s'.radius))
      && (Within(c.cfg.minDistance, c.cfg.maxDistance, s.radius * c.scale) ==> s'.radius == s.radius * c.scale)
      && (c.cfg.enableDamping ==> r.c.delta == Angles(d.theta * (1.0 - c.cfg.dampingFactor), d.phi * (1.0 - c.cfg.dampingFactor)))
    ensures r.c.pose == Pose(Add(c.pose.target, c.panOffset), Settle(c.cfg, c.pose.spherical, Injected(c), c.scale))
    ensures !c.cfg.enableDamping ==> r.c.delta == NoTurn
    ensures r.c.scale == 1.0 && r.c.panOffset == Zero
    ensures Keeps(c, r.c) && r.c.enableZoom == c.enableZoom && r.c.enablePan == c.enablePan
    ensures r.c == c.(pose := r.c.pose, delta := r.c.delta, scale := 1.0, panOffset := Zero,
                      zoomChanged := r.c.zoomChanged, lastPose := r.c.lastPose)
    ensures r.notices == [] || r.notices == [Change]
    ensures r.notices == [Change] <==> c.zoomChanged || c.lastPose != Some(r.c.pose)
    ensures r.notices == [Change] ==> r.c.lastPose == Some(r.c.pose) && !r.c.zoomChanged
    ensures r.notices == [] ==> r.c.lastPose == c.lastPose && r.c.zoomChanged == c.zoomChanged
  {
    var moved := Advance(c);
    if c.zoomChanged || c.lastPose != Some(moved.pose) then
      Outcome(moved.(lastPose := Some(moved.pose), zoomChanged := false), [Change])
    else
      Outcome(moved, [])
  }

  /**
   * The part of `update()` before the change test: the new pose, and the
   * accumulators consumed (the rotation only decays under damping).
   */
  function Advance(c: Controls): (r: Controls)
    ensures r.pose == Pose(Add(c.pose.target, c.panOffset), Settle(c.cfg, c.pose.spherical, Injected(c), c.scale))
    ensures var d := Injected(c);
      && (c.cfg.enableDamping ==> r.delta == Angles(d.theta * (1.0 - c.cfg.dampingFactor), d.phi * (1.0 - c.cfg.dampingFactor)))
      && (!c.cfg.enableDamping ==> r.delta == NoTurn)
    ensures r == c.(pose := r.pose, delta := r.delta, scale := 1.0, panOffset := Zero)
  {
    var d := Injected(c);
    var k := 1.0 - c.cfg.dampingFactor;
    var delta := if c.cfg.enableDamping then Angles(d.theta * k, d.phi * k) else NoTurn;
    c.(pose := Pose(Add(c.pose.target, c.panOffset), Settle(c.cfg, c.pose.spherical, d, c.scale)),
       delta := delta, scale := 1.0, panOffset := Zero)
  }

  /**
   * Fresh controls for the settings `cfg`: zoom and pan on, idle with nothing
   * pending, the target at the origin, and `target0`, `position0` and `zoom0` saved.
   */
  function Fresh(cfg: Config, camera: CameraKind, offset: Spherical, zoom: real): (c: Controls)
    ensures c.cfg == cfg && c.camera == camera && c.state == Idle && !c.listening
    ensures c.enableZoom && c.enablePan && c.pose == Pose(Zero, offset) && c.zoom == zoom
    ensures !c.zoomChanged && c.delta == NoTurn && c.scale == 1.0 && c.panOffset == Zero && c.lastPose == None
    ensures c.saved == Saved(c.pose, zoom)
  {
    var origin := Point(0.0, 0.0);
    var pose := Pose(Zero, offset);
    Controls(cfg, true, true, camera, Idle, false, pose, zoom, false, NoTurn, 1.0, Zero, origin, origin, origin, None, Saved(pose, zoom))
  }

  /**
   * The constructor (lines 17-98): fresh controls under the default settings, then
   * the forced `update()` of line 887. `offset` is the camera's spherical offset from
   * the origin; settings changed later are plain updates of the `cfg` field.
   */
  function Create(pi: real, zoomScale: PosReal, autoRotateAngle: real, camera: CameraKind, offset: Spherical, zoom: real)
    : (r: Outcome)
    ensures r.c.cfg == Defaults(pi, zoomScale, autoRotateAngle) && r.c.camera == camera
    ensures r.c.state == Idle && !r.c.listening && r.c.enableZoom && r.c.enablePan
    ensures r.c.saved == Saved(Pose(Zero, offset), zoom)
    ensures r.c.pose.target == Zero && r.c.zoom == zoom
    ensures r.c.delta == NoTurn && r.c.scale == 1.0 && r.c.panOffset == Zero
    ensures 0.0 <= offset.phi <= pi && 0.0 <= offset.radius ==> r.c.pose.spherical == offset
    ensures r.notices == [Change] && r.c.lastPose == Some(r.c.pose)
    ensures Consistent(r.c)
  {
    FirstUpdate(Defaults(pi, zoomScale, autoRotateAngle), camera, offset, zoom);
    DefaultOffsetKept(pi, zoomScale, autoRotateAngle, offset);
    Update(Fresh(Defaults(pi, zoomScale, autoRotateAngle), camera, offset, zoom))
  }

  /**
   * The first `update()` of fresh controls without auto-rotation only clamps the
   * offset into the limits: it keeps the target at the origin, the settings and the
   * saved pose, consumes nothing, and reports `change`.
   */
  lemma FirstUpdate(cfg: Config, camera: CameraKind, offset: Spherical, zoom: real)
    requires !cfg.autoRotate
    ensures var u := Update(Fresh(cfg, camera, offset, zoom));
      && u.c.cfg == cfg && u.c.camera == camera
      && u.c.state == Idle && !u.c.listening && u.c.enableZoom && u.c.enablePan
      && u.c.saved == Saved(Pose(Zero, offset), zoom) && u.c.zoom == zoom
      && u.c.pose == Pose(Zero, Settle(cfg, offset, NoTurn, 1.0))
      && u.c.delta == NoTurn && u.c.scale == 1.0 && u.c.panOffset == Zero
      && u.notices == [Change] && u.c.lastPose == Some(u.c.pose) && Consistent(u.c)
  {
    var c0 := Fresh(cfg, camera, offset, zoom);
    assert Injected(c0) == NoTurn && Add(Zero, Zero) == Zero;
  }

  /** Under the default limits, an offset with phi in [0, pi] and a non-negative radius is already settled. */
  lemma DefaultOffsetKept(pi: real, zoomScale: PosReal, autoRotateAngle: real, offset: Spherical)
    ensures 0.0 <= offset.phi <= pi && 0.0 <= offset.radius ==>
      Settle(Defaults(pi, zoomScale, autoRotateAngle), offset, NoTurn, 1.0) == offset
  {
    if 0.0 <= offset.phi <= pi && 0.0 <= offset.radius {
      SettleWithin(Defaults(pi, zoomScale, autoRotateAngle), offset);
    }
  }

  /** An offset already within every limit is left as it is by the clamping step. */
  lemma SettleWithin(cfg: Config, s: Spherical)
    requires Within(cfg.minAzimuthAngle, cfg.maxAzimuthAngle, s.theta)
    requires Within(cfg.minPolarAngle, cfg.maxPolarAngle, s.phi)
    requires Within(cfg.minDistance, cfg.maxDistance, s.radius)
    ensures Settle(cfg, s, NoTurn, 1.0) == s
  {
    assert s.theta + 0.0 == s.theta && s.phi + 0.0 == s.phi && s.radius * 1.0 == s.radius;
  }

  /**
   * `reset()` (lines 100-113): restore the saved target, position and zoom, report
   * `change`, run `update()` and return to idle.
   */
  function Reset(c: Controls): (r: Outcome)
    ensures r.c.state == Idle
    ensures r.c.zoom == c.saved.zoom
    ensures |r.notices| >= 1 && r.notices[0] == Change
    ensures c.delta == NoTurn && c.scale == 1.0 && c.panOffset == Zero && !c.cfg.autoRotate
            && Within(c.cfg.minAzimuthAngle, c.cfg.maxAzimuthAngle, c.saved.pose.spherical.theta)
            && Within(c.cfg.minPolarAngle, c.cfg.maxPolarAngle, c.saved.pose.spherical.phi)
            && Within(c.cfg.minDistance, c.cfg.maxDistance, c.saved.pose.spherical.radius)
            ==> r.c.pose == c.saved.pose
  {
    var u := Update(c.(pose := c.saved.pose, zoom := c.saved.zoom));
    Outcome(u.c.(state := Idle), [Change] + u.notices)
  }

  //
  // event handlers
  //

  /** The mouse-down handlers' refusal: disabled, or the first matching button's capability is off. */
  predicate RefusesButton(c: Controls, button: int) {
    var b := c.cfg.buttons;
    || !c.cfg.enabled
    || (button == b.orbit && !c.cfg.enableRotate)
    || (button != b.orbit && button == b.zoom && !c.enableZoom)
    || (button != b.orbit && button != b.zoom && button == b.pan && !c.enablePan)
  }

  /** Which gesture a button press selects; an unmapped button keeps the current state. */
  function ButtonGesture(b: Buttons, button: int, current: GestureState): GestureState {
    if button == b.orbit then Rotate
    else if button == b.zoom then Dolly
    else if button == b.pan then Pan
    else current
  }

  /** The tail of `onMouseDown`: when not idle, register the move/up listeners and report `start`. */
  function Begin(c: Controls): Outcome {
    if c.state != Idle then Outcome(c.(listening := true), [Start]) else Outcome(c, [])
  }

  /**
   * `onMouseDown` (lines 652-693). A press of a mapped button overwrites the state
   * even while another gesture is active.
   */
  function MouseDown(c: Controls, button: int, at: Point): (r: Outcome)
    ensures RefusesButton(c, button) ==> r == Outcome(c, [])
    ensures !RefusesButton(c, button) ==>
      && r.c.state == ButtonGesture(c.cfg.buttons, button, c.state)
      && (r.notices == [Start] <==> r.c.state != Idle)
      && (r.notices == [] <==> r.c.state == Idle)
      && (r.c.state != Idle ==> r.c.listening)
    ensures r.c.cfg == c.cfg && r.c.enableZoom == c.enableZoom && r.c.enablePan == c.enablePan
    ensures r.c.camera == c.camera && r.c.pose == c.pose
  {
    var b := c.cfg.buttons;
    if !c.cfg.enabled then Outcome(c, [])
    else if button == b.orbit then
      if !c.cfg.enableRotate then Outcome(c, []) else Begin(c.(rotateStart := at, state := Rotate))
    else if button == b.zoom then
      if !c.enableZoom then Outcome(c, []) else Begin(c.(dollyStart := at, state := Dolly))
    else if button == b.pan then
      if !c.enablePan then Outcome(c, []) else Begin(c.(panStart := at, state := Pan))
    else Begin(c)
  }

  /** `handleMouseMoveRotate` / `handleTouchMoveRotate` before their `update()`. */
  function RotateMove(c: Controls, view: View, at: Point): (r: Controls)
    ensures r.delta.theta == c.delta.theta - (at.x - c.rotateStart.x) * view.rotatePerPixelX
    ensures r.delta.phi == c.delta.phi - (at.y - c.rotateStart.y) * view.rotatePerPixelY
    ensures r == c.(delta := r.delta, rotateStart := at)
  {
    var d := SubPoint(at, c.rotateStart);
    RotateUp(RotateLeft(c, d.x * view.rotatePerPixelX), d.y * view.rotatePerPixelY).(rotateStart := at)
  }

  /** `handleMouseMoveDolly` before its `update()`: moving down dollies in, up dollies out. */
  function MouseDollyMove(c: Controls, at: Point): (r: Controls)
    ensures Keeps(c, r) && NoneReenabled(c, r) && r.pose == c.pose && r.dollyStart == at
    ensures c.camera == Perspective && at.y > c.dollyStart.y ==> r.scale * c.cfg.zoomScale == c.scale
    ensures c.camera == Perspective && at.y < c.dollyStart.y ==> r.scale == c.scale * c.cfg.zoomScale
    ensures at.y == c.dollyStart.y ==> r == c.(dollyStart := at)
  {
    var dy := at.y - c.dollyStart.y;
    var c' := if dy > 0.0 then DollyIn(c) else if dy < 0.0 then DollyOut(c) else c;
    c'.(dollyStart := at)
  }

  /** `handleMouseMovePan` / `handleTouchMovePan` before their `update()`. */
  function PanMove(c: Controls, view: View, at: Point): (r: Controls)
    ensures Keeps(c, r) && NoneReenabled(c, r) && r.pose == c.pose && r.panStart == at
    ensures c.camera != OtherCamera ==>
      Sub(r.panOffset, c.panOffset)
      == Add(Scale(-(at.x - c.panStart.x) * view.panPerPixelX, view.right),
             Scale((at.y - c.panStart.y) * view.panPerPixelY, view.up))
    ensures c.camera == OtherCamera ==> !r.enablePan && r.panOffset == c.panOffset
  {
    var d := SubPoint(at, c.panStart);
    PanBy(c, view, d.x, d.y).(panStart := at)
  }

  /** `onMouseMove` (lines 695-721); only delivered while the document listeners are registered. */
  function MouseMove(c: Controls, view: View, at: Point): (r: Outcome)
    ensures r.c.state == c.state && r.c.listening == c.listening
    ensures !c.cfg.enabled || !c.listening || !MouseGesture(c.state) ==> r == Outcome(c, [])
    ensures r.notices == [] || r.notices == [Change]
    ensures r.c.cfg == c.cfg && NoneReenabled(c, r.c) && r.c.camera == c.camera
  {
    if !c.cfg.enabled || !c.listening then Outcome(c, [])
    else match c.state
      case Rotate => if !c.cfg.enableRotate then Outcome(c, []) else Update(RotateMove(c, view, at))
      case Dolly => if !c.enableZoom then Outcome(c, []) else Update(MouseDollyMove(c, at))
      case Pan => if !c.enablePan then Outcome(c, []) else Update(PanMove(c, view, at))
      case _ => Outcome(c, [])
  }

  /** `onMouseUp` (lines 723-736): end the gesture and unregister the document listeners. */
  function MouseUp(c: Controls): (r: Outcome)
    ensures c.listening && c.cfg.enabled ==> r == Outcome(c.(state := Idle, listening := false), [End])
    ensures !(c.listening && c.cfg.enabled) ==> r == Outcome(c, [])
    ensures r.c.cfg == c.cfg && r.c.enableZoom == c.enableZoom && r.c.enablePan == c.enablePan
    ensures r.c.camera == c.camera
  {
    if !c.listening || !c.cfg.enabled then Outcome(c, [])
    else Outcome(c.(state := Idle, listening := false), [End])
  }

  /** The gesture states during which the wheel is honoured. */
  predicate WheelAllowed(c: Controls) {
    c.cfg.enabled && c.enableZoom && (c.state == Idle || c.state == Rotate)
  }

  /**
   * `onMouseWheel` with `handleMouseWheel` (lines 499-515, 738-750): scrolling up
   * dollies out, down dollies in, then `update()` and an immediate `start`, `end`.
   */
  function MouseWheel(c: Controls, deltaY: real): (r: Outcome)
    ensures r.c.state == c.state && r.c.listening == c.listening
    ensures !WheelAllowed(c) ==> r == Outcome(c, [])
    ensures WheelAllowed(c) ==> r.notices == [Start, End] || r.notices == [Change, Start, End]
    ensures r.c.cfg == c.cfg && NoneReenabled(c, r.c) && r.c.camera == c.camera
  {
    if !WheelAllowed(c) then Outcome(c, [])
    else
      var c' := if deltaY < 0.0 then DollyOut(c) else if deltaY > 0.0 then DollyIn(c) else c;
      var u := Update(c');
      Outcome(u.c, u.notices + [Start, End])
  }

  /** `onKeyDown` with `handleKeyDown` (lines 517-545, 752-758): arrow keys pan by `keyPanSpeed`. */
  function KeyDown(c: Controls, view: View, keyCode: int): (r: Outcome)
    ensures r.c.state == c.state && r.c.listening == c.listening
    ensures !c.cfg.enabled || !c.cfg.enableKeys || !c.enablePan ==> r == Outcome(c, [])
    ensures var k := c.cfg.keys;
      keyCode != k.up && keyCode != k.bottom && keyCode != k.left && keyCode != k.right ==> r == Outcome(c, [])
    ensures r.c.enableZoom == c.enableZoom
    ensures r.c.cfg == c.cfg && NoneReenabled(c, r.c) && r.c.camera == c.camera
  {
    if !c.cfg.enabled || !c.cfg.enableKeys || !c.enablePan then Outcome(c, [])
    else match KeyPan(c.cfg.keys, c.cfg.keyPanSpeed, keyCode)
      case None => Outcome(c, [])
      case Some(d) => Update(PanBy(c, view, d.x, d.y))
  }

  /** The screen displacement an arrow key pans by, matched in the `switch` order up, bottom, left, right. */
  function KeyPan(k: Keys, speed: real, keyCode: int): (d: Option<Point>)
    ensures keyCode == k.up ==> d == Some(Point(0.0, speed))
    ensures keyCode != k.up && keyCode == k.bottom ==> d == Some(Point(0.0, -speed))
    ensures keyCode != k.up && keyCode != k.bottom && keyCode == k.left ==> d == Some(Point(speed, 0.0))
    ensures keyCode != k.up && keyCode != k.bottom && keyCode != k.left && keyCode == k.right ==> d == Some(Point(-speed, 0.0))
    ensures d.None? <==> keyCode != k.up && keyCode != k.bottom && keyCode != k.left && keyCode != k.right
  {
    if keyCode == k.up then Some(Point(0.0, speed))
    else if keyCode == k.bottom then Some(Point(0.0, -speed))
    else if keyCode == k.left then Some(Point(speed, 0.0))
    else if keyCode == k.right then Some(Point(-speed, 0.0))
    else None
  }

  /** The touch gesture a finger count selects at touch start, and its capability flag. */
  function TouchGesture(fingers: nat): GestureState {
    if fingers == 1 then TouchRotate
    else if fingers == 2 then TouchDolly
    else if fingers == 3 then TouchPan
    else Idle
  }

  predicate TouchCapability(c: Controls, fingers: nat) {
    if fingers == 1 then c.cfg.enableRotate
    else if fingers == 2 then c.enableZoom
    else if fingers == 3 then c.enablePan
    else true
  }

  /** `onTouchStart` (lines 760-808): 1, 2, 3 fingers start rotate, dolly, pan; other counts go idle. */
  function TouchStart(c: Controls, touches: seq<Point>): (r: Outcome)
    ensures !c.cfg.enabled || !TouchCapability(c, |touches|) ==> r == Outcome(c, [])
    ensures c.cfg.enabled && TouchCapability(c, |touches|) ==>
      && r.c.state == TouchGesture(|touches|)
      && (r.notices == [Start] <==> r.c.state != Idle)
      && (r.notices == [] <==> r.c.state == Idle)
    ensures r.c.cfg == c.cfg && r.c.enableZoom == c.enableZoom && r.c.enablePan == c.enablePan
    ensures r.c.camera == c.camera && r.c.listening == c.listening
  {
    var n := |touches|;
    if !c.cfg.enabled then Outcome(c, [])
    else if n == 1 then
      if !c.cfg.enableRotate then Outcome(c, [])
      else Outcome(c.(rotateStart := touches[0], state := TouchRotate), [Start])
    else if n == 2 then
      if !c.enableZoom then Outcome(c, [])
      else Outcome(c.(dollyStart := Point(0.0, SquaredDistance(touches[0], touches[1])), state := TouchDolly), [Start])
    else if n == 3 then
      if !c.enablePan then Outcome(c, [])
      else Outcome(c.(panStart := touches[0], state := TouchPan), [Start])
    else Outcome(c.(state := Idle), [])
  }

  /**
   * `handleTouchMoveDolly` before its `update()`: fingers spreading dolly out,
   * pinching dolly in. Squared distances order the same way as distances.
   */
  function TouchDollyMove(c: Controls, a: Point, b: Point): (r: Controls)
    ensures Keeps(c, r) && NoneReenabled(c, r) && r.pose == c.pose
    ensures r.dollyStart.y == SquaredDistance(a, b)
    ensures c.camera == Perspective && SquaredDistance(a, b) > c.dollyStart.y ==> r.scale == c.scale * c.cfg.zoomScale
    ensures c.camera == Perspective && SquaredDistance(a, b) < c.dollyStart.y ==> r.scale * c.cfg.zoomScale == c.scale
  {
    var distance := SquaredDistance(a, b);
    var d := distance - c.dollyStart.y;
    var c' := if d > 0.0 then DollyOut(c) else if d < 0.0 then DollyIn(c) else c;
    c'.(dollyStart := Point(0.0, distance))
  }

  /** `onTouchMove` (lines 810-852). */
  function TouchMove(c: Controls, view: View, touches: seq<Point>): (r: Outcome)
    ensures !c.cfg.enabled ==> r == Outcome(c, [])
    ensures c.cfg.enabled && TouchGesture(|touches|) == Idle ==> r == Outcome(c.(state := Idle), [])
    ensures TouchGesture(|touches|) != Idle && TouchGesture(|touches|) != c.state ==> r == Outcome(c, [])
    ensures TouchGesture(|touches|) != Idle ==> r.c.state == c.state
    ensures r.c.listening == c.listening
    ensures r.notices == [] || r.notices == [Change]
    ensures r.c.cfg == c.cfg && NoneReenabled(c, r.c) && r.c.camera == c.camera
  {
    var n := |touches|;
    if !c.cfg.enabled then Outcome(c, [])
    else if n == 1 then
      if !c.cfg.enableRotate || c.state != TouchRotate then Outcome(c, [])
      else Update(RotateMove(c, view, touches[0]))
    else if n == 2 then
      if !c.enableZoom || c.state != TouchDolly then Outcome(c, [])
      else Update(TouchDollyMove(c, touches[0], touches[1]))
    else if n == 3 then
      if !c.enablePan || c.state != TouchPan then Outcome(c, [])
      else Update(PanMove(c, view, touches[0]))
    else Outcome(c.(state := Idle), [])
  }

  /** `onTouchEnd` (lines 854-864). */
  function TouchEnd(c: Controls): (r: Outcome)
    ensures c.cfg.enabled ==> r == Outcome(c.(state := Idle), [End])
    ensures !c.cfg.enabled ==> r == Outcome(c, [])
    ensures r.c.cfg == c.cfg && r.c.enableZoom == c.enableZoom && r.c.enablePan == c.enablePan
    ensures r.c.camera == c.camera
  {
    if !c.cfg.enabled then Outcome(c, []) else Outcome(c.(state := Idle), [End])
  }

  /** The events the controls listen to, with the data the handlers read. */
  datatype Event =
    | MouseDownEvent(button: int, at: Point)
    | MouseMoveEvent(at: Point)
    | MouseUpEvent
    | WheelEvent(deltaY: real)
    | KeyDownEvent(keyCode: int)
    | TouchStartEvent(touches: seq<Point>)
    | TouchMoveEvent(touches: seq<Point>)
    | TouchEndEvent

  function Step(c: Controls, view: View, e: Event): Outcome {
    match e
    case MouseDownEvent(button, at) => MouseDown(c, button, at)
    case MouseMoveEvent(at) => MouseMove(c, view, at)
    case MouseUpEvent => MouseUp(c)
    case WheelEvent(deltaY) => MouseWheel(c, deltaY)
    case KeyDownEvent(keyCode) => KeyDown(c, view, keyCode)
    case TouchStartEvent(touches) => TouchStart(c, touches)
    case TouchMoveEvent(touches) => TouchMove(c, view, touches)
    case TouchEndEvent => TouchEnd(c)
  }
}
