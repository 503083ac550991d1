/**
 * Properties of `THREE.OrbitControls` that relate several calls: event runs,
 * repeated `update()`, and inverse dolly steps.
 */
module OrbitTraces {
  import opened Numeric
  import opened Vectors
  import opened Optional
  import opened Orbit

  /** Feed `events` to the controls in order, collecting every notification. */
  function Run(c: Controls, view: View, events: seq<Event>): (r: Outcome)
    decreases |events|
  {
    if |events| == 0 then Outcome(c, [])
    else
      var first := Step(c, view, events[0]);
      var rest := Run(first.c, view, events[1..]);
      Outcome(rest.c, first.notices + rest.notices)
  }

  /** One event keeps mouse gestures paired with their registered listeners. */
  lemma StepKeepsConsistent(c: Controls, view: View, e: Event)
    requires Consistent(c)
    ensures Consistent(Step(c, view, e).c)
  {
  }

  /**
   * Whatever the events, a controller that starts consistent stays consistent: a
   * ROTATE, DOLLY or PAN state is never left without its move/up listeners.
   */
  lemma {:induction false} RunKeepsConsistent(c: Controls, view: View, events: seq<Event>)
    requires Consistent(c)
    ensures Consistent(Run(c, view, events).c)
    decreases |events|
  {
    if |events| > 0 {
      StepKeepsConsistent(c, view, events[0]);
      RunKeepsConsistent(Step(c, view, events[0]).c, view, events[1..]);
    }
  }

  /** One event changes no setting except by switching zoom or pan off. */
  lemma StepOnlyDisables(c: Controls, view: View, e: Event)
    ensures Step(c, view, e).c.cfg == c.cfg
    ensures NoneReenabled(c, Step(c, view, e).c)
    ensures Step(c, view, e).c.camera == c.camera
  {
    match e
    case MouseDownEvent(button, at) =>
    case MouseMoveEvent(at) =>
    case MouseUpEvent =>
    case WheelEvent(deltaY) =>
    case KeyDownEvent(keyCode) =>
    case TouchStartEvent(touches) =>
    case TouchMoveEvent(touches) =>
    case TouchEndEvent =>
  }

  /**
   * A capability switched off (for instance by an unknown camera type) stays off for
   * the rest of the session, and no other setting is touched by events.
   */
  lemma {:induction false} RunOnlyDisables(c: Controls, view: View, events: seq<Event>)
    ensures Run(c, view, events).c.cfg == c.cfg && Run(c, view, events).c.camera == c.camera
    ensures NoneReenabled(c, Run(c, view, events).c)
    decreases |events|
  {
    if |events| > 0 {
      var first := Step(c, view, events[0]);
      StepOnlyDisables(c, view, events[0]);
      RunOnlyDisables(first.c, view, events[1..]);
    }
  }

  /**
   * With damping off and no auto-rotation in play, a second `update()` with no
   * input in between leaves the pose where it is and reports no `change`.
   */
  lemma UpdateSettles(c: Controls)
    requires !c.cfg.enableDamping
    requires !(c.cfg.autoRotate && c.state == Idle)
    ensures Update(Update(c).c).c.pose == Update(c).c.pose
    ensures Update(Update(c).c).notices == []
  {
    var u := Update(c);
    assert u.c.delta == NoTurn && u.c.scale == 1.0 && u.c.panOffset == Zero;
    assert Injected(u.c) == NoTurn;
    SettleIdempotent(c.cfg, c.pose.spherical, Injected(c), c.scale);
    assert Add(u.c.pose.target, Zero) == u.c.pose.target;
    assert !u.c.zoomChanged && u.c.lastPose == Some(u.c.pose);
  }

  /** Re-settling a settled record with nothing pending changes nothing. */
  lemma SettleIdempotent(cfg: Config, s: Spherical, d: Angles, scale: real)
    ensures Settle(cfg, Settle(cfg, s, d, scale), NoTurn, 1.0) == Settle(cfg, s, d, scale)
  {
    var t := Settle(cfg, s, d, scale);
    ClampIdempotent(cfg.minAzimuthAngle, cfg.maxAzimuthAngle, s.theta + d.theta);
    ClampIdempotent(cfg.minPolarAngle, cfg.maxPolarAngle, s.phi + d.phi);
    ClampIdempotent(cfg.minDistance, cfg.maxDistance, s.radius * scale);
    assert t.theta + 0.0 == t.theta && t.phi + 0.0 == t.phi && t.radius * 1.0 == t.radius;
  }

  /** For a perspective camera, dollying in then out restores the pending scale exactly. */
  lemma DollyInOutPerspective(c: Controls)
    requires c.camera == Perspective
    ensures DollyOut(DollyIn(c)) == c
  {
    CancelFactor(c.scale, c.cfg.zoomScale);
  }

  /** For an orthographic camera, dollying in then out restores the zoom when no limit interferes. */
  lemma DollyInOutOrthographic(c: Controls)
    requires c.camera == Orthographic
    requires Within(c.cfg.minZoom, c.cfg.maxZoom, c.zoom * c.cfg.zoomScale)
    requires Within(c.cfg.minZoom, c.cfg.maxZoom, c.zoom)
    ensures DollyOut(DollyIn(c)) == c.(zoomChanged := true)
  {
    var s := c.cfg.zoomScale;
    var a := DollyIn(c);
    assert a.zoom == c.zoom * s;
    CancelFactor(c.zoom, s);
    assert a.zoom / s == c.zoom;
    var b := DollyOut(a);
    assert b.zoom == Clamp(c.cfg.minZoom, c.cfg.maxZoom, c.zoom);
  }

  /**
   * A wheel notch towards the user (negative `deltaY`) on a perspective camera
   * multiplies the radius by the zoom factor, then clamps it to the distance limits.
   */
  lemma WheelUpScalesRadius(c: Controls, deltaY: real)
    requires c.camera == Perspective && WheelAllowed(c) && deltaY < 0.0
    ensures MouseWheel(c, deltaY).c.pose.spherical.radius
         == Clamp(c.cfg.minDistance, c.cfg.maxDistance, c.pose.spherical.radius * (c.scale * c.cfg.zoomScale))
    ensures MouseWheel(c, deltaY).c.scale == 1.0
  {
    var c' := DollyOut(c);
    assert c'.scale == c.scale * c.cfg.zoomScale && c'.pose == c.pose && c'.cfg == c.cfg;
    var u := Update(c');
    assert MouseWheel(c, deltaY).c == u.c;
    assert u.c.pose.spherical == Settle(c.cfg, c.pose.spherical, Injected(c'), c'.scale);
  }

  /** A wheel notch away from the user divides the radius by the zoom factor, clamped. */
  lemma WheelDownScalesRadius(c: Controls, deltaY: real)
    requires c.camera == Perspective && WheelAllowed(c) && deltaY > 0.0
    ensures MouseWheel(c, deltaY).c.pose.spherical.radius
         == Clamp(c.cfg.minDistance, c.cfg.maxDistance, c.pose.spherical.radius * (c.scale / c.cfg.zoomScale))
  {
    var c' := DollyIn(c);
    assert c'.scale == c.scale / c.cfg.zoomScale && c'.pose == c.pose && c'.cfg == c.cfg;
    var u := Update(c');
    assert MouseWheel(c, deltaY).c == u.c;
    assert u.c.pose.spherical == Settle(c.cfg, c.pose.spherical, Injected(c'), c'.scale);
  }

  /** On an unknown camera type the first effective wheel notch disables zoom; later ones are ignored. */
  lemma UnknownCameraStopsWheel(c: Controls, deltaY: real, later: real)
    requires c.camera == OtherCamera && WheelAllowed(c) && deltaY != 0.0
    ensures !MouseWheel(c, deltaY).c.enableZoom
    ensures MouseWheel(MouseWheel(c, deltaY).c, later) == Outcome(MouseWheel(c, deltaY).c, [])
  {
    var c' := DollyIn(c);
    assert deltaY < 0.0 ==> DollyOut(c) == c.(enableZoom := false);
    assert c' == c.(enableZoom := false);
    assert !MouseWheel(c, deltaY).c.enableZoom;
  }

  /**
   * `onMouseDown` (lines 658-682) has no guard on the current state: pressing the
   * zoom button while rotating switches to DOLLY and reports `start` again.
   */
  lemma SecondPressOverrides(c: Controls, at: Point)
    requires c.state == Rotate && c.cfg.enabled && c.enableZoom
    requires c.cfg.buttons.zoom != c.cfg.buttons.orbit
    ensures MouseDown(c, c.cfg.buttons.zoom, at).c.state == Dolly
    ensures MouseDown(c, c.cfg.buttons.zoom, at).notices == [Start]
  {
  }

  /**
   * A horizontal mouse drag in ROTATE turns the camera about its target: the azimuth
   * changes by the pixel distance times the rotate factor (dragging right lowers it),
   * and the polar angle and the distance stay where they were.
   */
  lemma DragTurnsAzimuth(c: Controls, view: View, at: Point)
    requires c.state == Rotate && c.cfg.enabled && c.cfg.enableRotate && c.listening
    requires c.delta == NoTurn && c.scale == 1.0 && !c.cfg.autoRotate
    requires c.cfg.minAzimuthAngle == Unbounded && c.cfg.maxAzimuthAngle == Unbounded
    requires Within(c.cfg.minPolarAngle, c.cfg.maxPolarAngle, c.pose.spherical.phi)
    requires Within(c.cfg.minDistance, c.cfg.maxDistance, c.pose.spherical.radius)
    requires at.y == c.rotateStart.y
    ensures var s := c.pose.spherical; var s' := MouseMove(c, view, at).c.pose.spherical;
      && s'.theta == s.theta - (at.x - c.rotateStart.x) * view.rotatePerPixelX
      && s'.phi == s.phi
      && s'.radius == s.radius
  {
    var m := RotateMove(c, view, at);
    assert m.delta.phi == 0.0;
    assert MouseMove(c, view, at) == Update(m);
    assert Injected(m) == m.delta;
  }

  /** The one-finger touch drag turns the camera in the same way. */
  lemma TouchDragTurnsAzimuth(c: Controls, view: View, at: Point)
    requires c.state == TouchRotate && c.cfg.enabled && c.cfg.enableRotate
    requires c.delta == NoTurn && c.scale == 1.0
    requires c.cfg.minAzimuthAngle == Unbounded && c.cfg.maxAzimuthAngle == Unbounded
    requires Within(c.cfg.minPolarAngle, c.cfg.maxPolarAngle, c.pose.spherical.phi)
    requires Within(c.cfg.minDistance, c.cfg.maxDistance, c.pose.spherical.radius)
    requires at.y == c.rotateStart.y
    ensures var s := c.pose.spherical; var s' := TouchMove(c, view, [at]).c.pose.spherical;
      && s'.theta == s.theta - (at.x - c.rotateStart.x) * view.rotatePerPixelX
      && s'.phi == s.phi
      && s'.radius == s.radius
  {
    var m := RotateMove(c, view, at);
    assert m.delta.phi == 0.0;
    assert TouchMove(c, view, [at]) == Update(m);
    assert Injected(m) == m.delta;
  }

  /**
   * An accepted arrow key moves the target by the pending pan plus `keyPanSpeed`
   * pixels in the key's direction (`KeyPan`), converted along the camera's right and
   * up vectors, and consumes the pending pan.
   */
  lemma ArrowKeyPans(c: Controls, view: View, keyCode: int)
    requires c.cfg.enabled && c.cfg.enableKeys && c.enablePan && c.camera != OtherCamera
    requires KeyPan(c.cfg.keys, c.cfg.keyPanSpeed, keyCode).Some?
    ensures var d := KeyPan(c.cfg.keys, c.cfg.keyPanSpeed, keyCode).value;
      var r := KeyDown(c, view, keyCode).c;
      && r.pose.target
         == Add(Add(c.pose.target, c.panOffset),
                Add(Scale(-d.x * view.panPerPixelX, view.right), Scale(d.y * view.panPerPixelY, view.up)))
      && r.panOffset == Zero
  {
    var d := KeyPan(c.cfg.keys, c.cfg.keyPanSpeed, keyCode).value;
    var p := PanBy(c, view, d.x, d.y);
    assert KeyDown(c, view, keyCode) == Update(p);
    assert Update(p).c.pose.target == Add(c.pose.target, p.panOffset);
  }

  /** Moving the mouse down during DOLLY on a perspective camera divides the radius by the zoom factor, clamped. */
  lemma MouseDownwardDolliesIn(c: Controls, view: View, at: Point)
    requires c.state == Dolly && c.cfg.enabled && c.listening && c.enableZoom && c.camera == Perspective
    requires at.y > c.dollyStart.y
    ensures MouseMove(c, view, at).c.pose.spherical.radius
         == Clamp(c.cfg.minDistance, c.cfg.maxDistance, c.pose.spherical.radius * (c.scale / c.cfg.zoomScale))
  {
    DollyDrag(c, view, at);
    var m := MouseDollyMove(c, at);
    CancelFactor(c.scale, c.cfg.zoomScale);
    assert m.scale == c.scale / c.cfg.zoomScale && m.pose == c.pose && m.cfg == c.cfg;
    RadiusAfterUpdate(m);
  }

  /** A mouse move during DOLLY is the dolly step followed by `update()`. */
  lemma DollyDrag(c: Controls, view: View, at: Point)
    requires c.state == Dolly && c.cfg.enabled && c.listening && c.enableZoom
    ensures MouseMove(c, view, at) == Update(MouseDollyMove(c, at))
  {
  }

  /** `update()` scales the radius by the pending scale and clamps it to the distance limits. */
  lemma RadiusAfterUpdate(c: Controls)
    ensures Update(c).c.pose.spherical.radius == Clamp(c.cfg.minDistance, c.cfg.maxDistance, c.pose.spherical.radius * c.scale)
  {
    assert Update(c).c.pose.spherical == Settle(c.cfg, c.pose.spherical, Injected(c), c.scale);
  }

  /** A two-finger move during TOUCH_DOLLY is the pinch step followed by `update()`. */
  lemma TwoFingerMove(c: Controls, view: View, a: Point, b: Point)
    requires c.state == TouchDolly && c.cfg.enabled && c.enableZoom
    ensures TouchMove(c, view, [a, b]) == Update(TouchDollyMove(c, a, b))
  {
    var t := [a, b];
    assert |t| == 2 && t[0] == a && t[1] == b;
  }

  /** Spreading two fingers during TOUCH_DOLLY on a perspective camera multiplies the radius by the zoom factor, clamped. */
  lemma SpreadDolliesOut(c: Controls, view: View, a: Point, b: Point)
    requires c.state == TouchDolly && c.cfg.enabled && c.enableZoom && c.camera == Perspective
    requires SquaredDistance(a, b) > c.dollyStart.y
    ensures TouchMove(c, view, [a, b]).c.pose.spherical.radius
         == Clamp(c.cfg.minDistance, c.cfg.maxDistance, c.pose.spherical.radius * (c.scale * c.cfg.zoomScale))
  {
    TwoFingerMove(c, view, a, b);
    var m := TouchDollyMove(c, a, b);
    assert m.scale == c.scale * c.cfg.zoomScale && m.pose == c.pose && m.cfg == c.cfg;
    RadiusAfterUpdate(m);
  }

  //
  // construction and reset
  //

  /** Nothing is pending: no rotation, scale or pan waits for `update()`, and damping is off. */
  predicate Quiescent(c: Controls) {
    !c.cfg.enableDamping && !c.cfg.autoRotate && c.delta == NoTurn && c.scale == 1.0 && c.panOffset == Zero
  }

  /**
   * Without damping every handler that fills an accumulator runs `update()`, which
   * consumes it; no handler touches the values saved for `reset()`.
   */
  lemma StepStaysQuiescent(c: Controls, view: View, e: Event)
    requires Quiescent(c)
    ensures Quiescent(Step(c, view, e).c)
    ensures Step(c, view, e).c.saved == c.saved
  {
    match e
    case MouseDownEvent(button, at) =>
    case MouseMoveEvent(at) => MouseMoveStaysQuiescent(c, view, at);
    case MouseUpEvent =>
    case WheelEvent(deltaY) => WheelStaysQuiescent(c, deltaY);
    case KeyDownEvent(keyCode) => KeyStaysQuiescent(c, view, keyCode);
    case TouchStartEvent(touches) =>
    case TouchMoveEvent(touches) => TouchMoveStaysQuiescent(c, view, touches);
    case TouchEndEvent =>
  }

  lemma MouseMoveStaysQuiescent(c: Controls, view: View, at: Point)
    requires Quiescent(c)
    ensures Quiescent(MouseMove(c, view, at).c) && MouseMove(c, view, at).c.saved == c.saved
  {
  }

  lemma WheelStaysQuiescent(c: Controls, deltaY: real)
    requires Quiescent(c)
    ensures Quiescent(MouseWheel(c, deltaY).c) && MouseWheel(c, deltaY).c.saved == c.saved
  {
  }

  lemma KeyStaysQuiescent(c: Controls, view: View, keyCode: int)
    requires Quiescent(c)
    ensures Quiescent(KeyDown(c, view, keyCode).c) && KeyDown(c, view, keyCode).c.saved == c.saved
  {
  }

  lemma TouchMoveStaysQuiescent(c: Controls, view: View, touches: seq<Point>)
    requires Quiescent(c)
    ensures Quiescent(TouchMove(c, view, touches).c) && TouchMove(c, view, touches).c.saved == c.saved
  {
  }

  lemma {:induction false} RunStaysQuiescent(c: Controls, view: View, events: seq<Event>)
    requires Quiescent(c)
    ensures Quiescent(Run(c, view, events).c)
    ensures Run(c, view, events).c.saved == c.saved
    decreases |events|
  {
    if |events| > 0 {
      StepStaysQuiescent(c, view, events[0]);
      RunStaysQuiescent(Step(c, view, events[0]).c, view, events[1..]);
    }
  }

  /** With nothing pending, `reset()` moves the camera to the saved pose, clamped into the current limits. */
  lemma ResetQuiescent(c: Controls)
    requires Quiescent(c)
    ensures Reset(c).c.pose == Pose(c.saved.pose.target, Settle(c.cfg, c.saved.pose.spherical, NoTurn, 1.0))
    ensures Reset(c).c.zoom == c.saved.zoom
  {
    var back := c.(pose := c.saved.pose, zoom := c.saved.zoom);
    assert Injected(back) == NoTurn && Add(c.saved.pose.target, Zero) == c.saved.pose.target;
  }

  /**
   * Whatever the user did since construction, `reset()` brings the target back to
   * the origin and the zoom back to its initial value, and restores the initial
   * offset when that offset lies within the default limits.
   */
  lemma ResetAfterCreate(pi: real, zoomScale: PosReal, autoRotateAngle: real, camera: CameraKind,
                         offset: Spherical, zoom: real, view: View, events: seq<Event>)
    ensures var c := Run(Create(pi, zoomScale, autoRotateAngle, camera, offset, zoom).c, view, events).c;
      var r := Reset(c).c;
      && r.pose.target == Zero && r.zoom == zoom
      && (0.0 <= offset.phi <= pi && 0.0 <= offset.radius ==> r.pose.spherical == offset)
  {
    var c0 := Create(pi, zoomScale, autoRotateAngle, camera, offset, zoom).c;
    RunStaysQuiescent(c0, view, events);
    RunOnlyDisables(c0, view, events);
    var c := Run(c0, view, events).c;
    ResetQuiescent(c);
    DefaultOffsetKept(pi, zoomScale, autoRotateAngle, offset);
  }
}
