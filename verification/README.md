# Camera and gizmo controls of a 3D network-topology viewer, in Dafny

The viewer draws one box per network device and one line per link. A user moves
the camera with orbit controls and moves a device's box with a transform gizmo.
This project models the logic behind that, as pure functions over immutable
records:

- **Orbit controller** (`THREE.OrbitControls`, module `Orbit`, traces in
  `OrbitTraces`). The gesture state machine NONE / ROTATE / DOLLY / PAN /
  TOUCH_ROTATE / TOUCH_DOLLY / TOUCH_PAN is driven by mouse buttons, the wheel,
  arrow keys and finger counts. Each event is gated by `enabled`,
  `enableRotate`, `enableZoom`, `enablePan` and `enableKeys`, and emits
  `start` / `end` / `change` notices. The `update()` step adds the pending
  rotation to a spherical record `(radius, phi, theta)`, clamps it to optional
  bounds (`±Infinity` is an absent bound), and then consumes or damps the
  accumulators. The camera kind is `Perspective | Orthographic | OtherCamera`.
  An `OtherCamera` switches zoom or pan off, as the source does for unknown
  camera types.
- **Transform gizmo** (module `Gizmo`): `setActivePlane` for the translate,
  rotate and scale gizmos; the component mask; `Math.round` snapping of the
  translated position; the per-axis scale update.
- **Transform controls** (module `Transform`): the `axis` highlight, the
  `_dragging` flag across hover, down, move and up, `attach`/`detach`, and
  `setMode` with the gizmo visibility that follows from it.
- **Drag controls** (module `Drag`): the selected and hovered object, the grab
  offset, and the `hoveron` / `hoveroff` / `dragstart` / `drag` / `dragend`
  events.
- **First-person controls** (module `FirstPerson`): movement flags from keys and
  buttons, the per-frame translation, and the latitude clamp to ±85 degrees.
- **Topology** (module `Topology`):
  - how `initTopologyData` places the boxes and resolves links into
    (target, source) index pairs by first-match lookup;
  - `drawCurves`, which draws one line per pair.

Helper modules:

- `Numeric`: optional limits, `Clamp`, `Math.round`, snapping.
- `Vectors`: 3-vectors and 3×3 matrices.
- `Optional`: the option type.

Inputs that the engine or the browser would supply are parameters:

- ray hits, given as the picked handle's name, the object index, or the point
  on a plane;
- eye vectors and rotation matrices;
- the rotate and pan factors per pixel and the camera's right and up vectors;
- the zoom factor `0.95^zoomSpeed`, taken as an opaque positive number;
- `Math.PI`;
- the random box height.

The orbit controller's document-level move/up listeners are a `listening` flag.

Two behaviours of the source are easy to miss:

- `onMouseDown` (js/lib/ThreeControls.js:658-682) does not check the current
  state. A second mouse-down during an active orbit gesture overwrites the state
  with the pressed button's gesture and emits `start` again
  (`OrbitTraces.SecondPressOverrides`).
- `initTopologyData` keeps its node and pair lists for the lifetime of the
  `Topology3D` object (js/lib/Topology3D.js:6 and 84-102). A second call
  therefore resolves the links of every node placed so far and appends their
  pairs again. `Topology.InitTopologyData` models this accumulation.

## Model

| member | source | states |
|---|---|---|
| Numeric.Clamp | js/lib/ThreeControls.js:145-160 | `Math.max(min, Math.min(max, v))` with optional bounds: a value within bounds is kept; with min ≤ max the result lies within them; below min gives min, above max gives max; with inverted bounds min wins |
| Numeric.ClampIsNearest | js/lib/ThreeControls.js:145-160 | within non-empty bounds the clamped value is the admissible value nearest to the input |
| Numeric.ClampIdempotent | js/lib/ThreeControls.js:145-160 | clamping an already clamped value changes nothing, even with inverted bounds |
| Numeric.Round | js/lib/ThreeControls.js:2164-2166 | `Math.round` returns the integer within half a unit of x, with halves going up |
| Numeric.Snap | js/lib/ThreeControls.js:2164-2166 | `Math.round(v/step)*step` is a multiple of step no farther than half a step from v |
| Numeric.SnapOnGrid | js/lib/ThreeControls.js:2164-2166 | a value already on the snap grid is left where it is |
| Numeric.SnapIdempotent | js/lib/ThreeControls.js:2164-2166 | snapping twice is snapping once |
| Orbit.Defaults | js/lib/ThreeControls.js:24-77 | the constructor's settings: enabled with rotate and keys on, no damping (factor 0.25), no auto-rotation, key pan speed 7, distance and zoom in [0, ∞), polar angle in [0, π], azimuth unbounded, buttons 0/1/2 for orbit/zoom/pan, and arrow keys 37–40 |
| Orbit.Settle | js/lib/ThreeControls.js:145-160 | the updated theta, phi and scaled radius lie within their limits when min ≤ max, and equal the unclamped value when that value already lies within them |
| Orbit.RotateMove | js/lib/ThreeControls.js:432-451 | a rotate drag lowers the pending theta by the horizontal pixel distance times the rotate factor and phi likewise by the vertical distance; the drag start moves to the pointer; nothing else changes |
| Orbit.MouseDollyMove | js/lib/ThreeControls.js:453-475 | moving down divides the pending scale of a perspective camera by the zoom factor, moving up multiplies it, and no vertical movement changes only the drag start; settings and pose are kept |
| Orbit.PanMove | js/lib/ThreeControls.js:477-491 | the pan offset grows by the pixel displacement along the camera's right vector (negated) and up vector; on an unknown camera pan is switched off and the offset kept |
| Orbit.KeyPan | js/lib/ThreeControls.js:517-545 | the up, bottom, left and right keys, tested in that order, pan by (0, speed), (0, −speed), (speed, 0) and (−speed, 0); there is no pan exactly when no arrow key matches |
| Orbit.TouchDollyMove | js/lib/ThreeControls.js:597-624 | the new reference is the squared finger distance; spreading multiplies a perspective camera's pending scale by the zoom factor and pinching divides it; settings and pose are kept |
| Orbit.PanBy | js/lib/ThreeControls.js:322-360 | an unknown camera type switches panning off and changes nothing else; otherwise the pan offset grows by the screen displacement along the camera's right and up vectors |
| Orbit.DollyIn | js/lib/ThreeControls.js:362-381 | perspective: the pending scale is divided by the zoom factor; orthographic: the zoom is multiplied by it, kept within the zoom limits, and marked changed; any other camera: zoom is switched off |
| Orbit.DollyOut | js/lib/ThreeControls.js:383-402 | the mirror image of DollyIn: the scale is multiplied, or the zoom divided and clamped, or zoom is switched off |
| Orbit.Update | js/lib/ThreeControls.js:127-208 | theta, phi and radius·scale each end within their limits when min ≤ max and are untouched when already within; the target moves by the pan offset; scale returns to 1 and the pan offset to zero; the rotation delta is zeroed, or multiplied by (1 − dampingFactor) with damping; `change` is emitted exactly when the zoom changed or the pose differs from the last reported one; nothing else changes |
| Orbit.Create | js/lib/ThreeControls.js:17-98 | the constructor installs the default settings with zoom and pan on, puts the target at the origin, saves that target with the camera's offset and zoom for `reset()`, leaves the controls idle with nothing pending, keeps an offset with phi in [0, π] and a non-negative radius, and reports one `change` from the forced `update()` of line 887 (always, in the model; see Left out) |
| Orbit.Fresh | js/lib/ThreeControls.js:24-82 | the controls before the first `update()`: the given settings, zoom and pan on, idle, nothing pending, target at the origin, and the pose and zoom saved |
| Orbit.FirstUpdate | js/lib/ThreeControls.js:127-208 | without auto-rotation, the first `update()` keeps the target at the origin, the settings and the saved values, clamps the offset into the limits, and reports `change` |
| Orbit.SettleWithin | js/lib/ThreeControls.js:145-160 | an offset already within every limit is a fixed point of the clamping step |
| Orbit.DefaultOffsetKept | js/lib/ThreeControls.js:24-77 | under the default limits, an offset with phi in [0, π] and a non-negative radius is already settled |
| Orbit.Advance | js/lib/ThreeControls.js:127-186 | the new pose is the target moved by the pan offset and the clamped spherical record; scale returns to 1, the pan offset to zero, and the rotation delta to zero or its damped value; nothing else changes |
| Orbit.Reset | js/lib/ThreeControls.js:100-113 | reset returns to NONE, restores the saved zoom, reports `change` first, and restores the saved pose when nothing is pending and the saved pose is within limits |
| Orbit.MouseDown | js/lib/ThreeControls.js:652-693 | when disabled, or when the button's capability flag is off, nothing changes and nothing is emitted; otherwise the orbit, zoom and pan buttons select ROTATE, DOLLY and PAN (any other button keeps the state); `start` is emitted iff the state is not NONE, and a non-NONE state registers the move/up listeners |
| Orbit.MouseMove | js/lib/ThreeControls.js:695-721 | a move never changes the gesture state; it does nothing unless enabled, listening and in a mouse gesture; only `change` can be emitted; settings are untouched except for switching zoom or pan off |
| Orbit.MouseUp | js/lib/ThreeControls.js:723-736 | an enabled mouse-up ends the gesture with NONE, unregisters the listeners and emits exactly `end` |
| Orbit.MouseWheel | js/lib/ThreeControls.js:499-515 | the wheel is ignored unless enabled, zoom is enabled and the state is NONE or ROTATE; it never changes the state; it emits `start` then `end`, after at most one `change` |
| Orbit.KeyDown | js/lib/ThreeControls.js:517-545 | keys are ignored unless enabled with keys and pan on, and so are non-arrow keys; a key press never changes the gesture state or the zoom setting |
| Orbit.TouchStart | js/lib/ThreeControls.js:760-808 | 1, 2 and 3 fingers enter TOUCH_ROTATE, TOUCH_DOLLY and TOUCH_PAN, each only when its flag is on; any other count sets NONE; `start` is emitted iff the new state is not NONE |
| Orbit.TouchMove | js/lib/ThreeControls.js:810-852 | a count other than 1–3 sets NONE; a count that does not match the current touch state changes nothing; a matching move keeps the state and emits at most `change` |
| Orbit.TouchEnd | js/lib/ThreeControls.js:854-864 | when enabled, touch-end sets NONE and emits exactly `end` |
| OrbitTraces.RunKeepsConsistent | js/lib/ThreeControls.js:652-736 | over any sequence of events, a ROTATE, DOLLY or PAN mouse gesture always has its move/up listeners registered |
| OrbitTraces.StepOnlyDisables | js/lib/ThreeControls.js:652-864 | no single event changes the configuration or the camera, or switches zoom or pan back on |
| OrbitTraces.RunOnlyDisables | js/lib/ThreeControls.js:350-399 | over any run, a capability switched off by an unknown camera type stays off, and no setting is otherwise changed |
| OrbitTraces.UpdateSettles | js/lib/ThreeControls.js:174-186 | with damping off and no auto-rotation, a second `update()` with no new input leaves the pose alone and reports nothing |
| OrbitTraces.SettleIdempotent | js/lib/ThreeControls.js:145-160 | re-clamping a clamped spherical record with no pending delta changes nothing |
| OrbitTraces.DollyInOutPerspective | js/lib/ThreeControls.js:362-402 | for a perspective camera, dolly-in then dolly-out restores the controls exactly |
| OrbitTraces.DollyInOutOrthographic | js/lib/ThreeControls.js:362-402 | for an orthographic camera, dolly-in then dolly-out restores the zoom when no limit interferes |
| OrbitTraces.WheelUpScalesRadius | js/lib/ThreeControls.js:499-515 | a negative `deltaY` multiplies the radius by the zoom factor (times the pending scale), clamped to the distance limits, and consumes the scale |
| OrbitTraces.WheelDownScalesRadius | js/lib/ThreeControls.js:499-515 | a positive `deltaY` divides the radius by the zoom factor, clamped |
| OrbitTraces.UnknownCameraStopsWheel | js/lib/ThreeControls.js:368-378 | on an unknown camera the first effective wheel notch switches zoom off and later notches are ignored |
| OrbitTraces.DragTurnsAzimuth | js/lib/ThreeControls.js:432-451 | a horizontal mouse drag in ROTATE changes theta by −(pixels × rotate factor) and leaves phi and the radius alone |
| OrbitTraces.TouchDragTurnsAzimuth | js/lib/ThreeControls.js:576-595 | a one-finger horizontal drag turns theta in the same way |
| OrbitTraces.ArrowKeyPans | js/lib/ThreeControls.js:517-545 | an accepted arrow key moves the target by the pending pan plus the key's screen displacement along the camera's right and up vectors, and clears the pan offset |
| OrbitTraces.MouseDownwardDolliesIn | js/lib/ThreeControls.js:453-475 | moving the mouse down in DOLLY on a perspective camera divides the radius by the zoom factor, clamped to the distance limits |
| OrbitTraces.TwoFingerMove | js/lib/ThreeControls.js:810-852 | a two-finger move in TOUCH_DOLLY is the pinch step followed by `update()` |
| OrbitTraces.SpreadDolliesOut | js/lib/ThreeControls.js:597-624 | spreading two fingers on a perspective camera multiplies the radius by the zoom factor, clamped |
| OrbitTraces.DollyDrag | js/lib/ThreeControls.js:695-721 | a mouse move during DOLLY is the dolly step followed by `update()` |
| OrbitTraces.RadiusAfterUpdate | js/lib/ThreeControls.js:156-159 | `update()` multiplies the radius by the pending scale and clamps it to the distance limits |
| OrbitTraces.StepStaysQuiescent | js/lib/ThreeControls.js:174-186 | without damping or auto-rotation, every event leaves nothing pending and keeps the values saved for `reset()` |
| OrbitTraces.RunStaysQuiescent | js/lib/ThreeControls.js:174-186 | the same holds over any run of events |
| OrbitTraces.ResetQuiescent | js/lib/ThreeControls.js:100-113 | with nothing pending, `reset()` moves the camera to the saved pose clamped into the limits, and restores the saved zoom |
| OrbitTraces.ResetAfterCreate | js/lib/ThreeControls.js:17-113 | after construction and any run of events, `reset()` puts the target back at the origin and the zoom at its initial value, and restores an initial offset that lies within the default limits |
| OrbitTraces.SecondPressOverrides | js/lib/ThreeControls.js:658-682 | pressing the zoom button during ROTATE switches to DOLLY and emits `start` again |
| Gizmo.PlaneAlong | js/lib/ThreeControls.js:1520-1542 | a single-axis handle drags on one of the two coordinate planes containing its axis, namely the one the eye faces more |
| Gizmo.TranslatePlane | js/lib/ThreeControls.js:1515-1552 | X, Y, Z go to the facing plane containing the axis; XYZ goes to XYZE; XY, YZ, XZ map to themselves; any other name keeps the current plane |
| Gizmo.ScalePlane | js/lib/ThreeControls.js:1774-1802 | as translate for X, Y, Z and XYZ; any other name keeps the current plane |
| Gizmo.RotatePlane | js/lib/ThreeControls.js:1632-1642 | E goes to XYZE, and X, Y, Z go to the plane that does not contain the axis; any other name keeps the current plane |
| Gizmo.ActivePlaneFitsAxis | js/lib/ThreeControls.js:1515-1802 | for every mode, a single-axis handle gets a coordinate plane; it contains the axis exactly when the mode is not rotate, and for translate and scale it is the plane the eye faces most |
| Gizmo.Mask | js/lib/ThreeControls.js:2132-2134 | each component whose letter the handle name lacks becomes 0; the others are kept |
| Gizmo.MaskIsProjection | js/lib/ThreeControls.js:2145-2147 | masking twice is masking once, and masking distributes over vector sums |
| Gizmo.SnapNamed | js/lib/ThreeControls.js:2164-2166 | only the named position components are snapped, each to a multiple of the step within half a step; the others are untouched |
| Gizmo.SnapNamedIdempotent | js/lib/ThreeControls.js:2164-2166 | snapping a snapped position again changes nothing |
| Gizmo.TranslateDrag | js/lib/ThreeControls.js:2123-2174 | in world space with an unrotated parent, the new position is the start position plus the masked drag offset, snapped on the named axes when a snap step is set |
| Gizmo.TranslateUnsnapped | js/lib/ThreeControls.js:2123-2154 | in world space with an unrotated parent, the unsnapped position is the start position plus the masked drag offset |
| Gizmo.WorldDragKeepsOtherAxes | js/lib/ThreeControls.js:2145-2166 | a world-space drag leaves every component the handle does not name at its start value, with or without snapping |
| Gizmo.WorldDragLandsOnGrid | js/lib/ThreeControls.js:2156-2166 | with a snap step set, a world-space drag leaves every named component on the snap grid |
| Gizmo.ScaleDrag | js/lib/ThreeControls.js:2176-2201 | only local space scales; the XYZ handle multiplies the whole start scale by 1 + (vertical drag)/(largest start component); a single-axis handle sets that component to its start value plus the drag along that axis and keeps the others; any other handle keeps the scale; the only precondition is a non-zero divisor for the dragged handle |
| Gizmo.ScaleGrabWithoutJump | js/lib/ThreeControls.js:2176-2201 | moving the pointer back to the grab point restores the start scale (all of it for XYZ, the dragged component for X, Y or Z) |
| Transform.Create | js/lib/ThreeControls.js:1811-1845 | new controls have no object, are invisible and not dragging, are in translate mode in world space with only the translate gizmo shown, and every gizmo's plane is XYZE |
| Transform.Attach | js/lib/ThreeControls.js:1927-1933 | attach sets the object and makes the controls visible, keeping axis, drag flag, mode and space |
| Transform.Detach | js/lib/ThreeControls.js:1935-1941 | detach clears the object, the visibility and the axis, and does not stop a running drag |
| Transform.SetMode | js/lib/ThreeControls.js:1949-1960 | an absent mode keeps the current one; scale forces local space, and other modes keep the space; exactly the current mode's gizmo is shown; `change` is emitted |
| Transform.SetSpace | js/lib/ThreeControls.js:1982-1988 | the space is stored as given, and `change` is emitted |
| Transform.SetSize | js/lib/ThreeControls.js:1974-1980 | the size is stored, and `change` is emitted |
| Transform.SetTranslationSnap | js/lib/ThreeControls.js:1962-1966 | the translation snap is stored; the rotation snap, mode, space, object, axis and drag flag are kept; nothing is dispatched |
| Transform.SetRotationSnap | js/lib/ThreeControls.js:1968-1972 | the rotation snap is stored; the translation snap, mode, space, object, axis and drag flag are kept; nothing is dispatched |
| Transform.PointerHover | js/lib/ThreeControls.js:2030-2056 | without an object, during a drag, or with a secondary button, nothing happens; otherwise the axis becomes the picked handle (or none), and `change` is emitted exactly when it differs |
| Transform.PointerDown | js/lib/ThreeControls.js:2058-2106 | with the same guard as hover, a pass always sets dragging, even without a handle; `mouseDown` is emitted exactly when a handle is hit; the handle becomes the axis and picks its gizmo's plane; a plane hit records the drag start from the object's position and scale |
| Transform.Dragged | js/lib/ThreeControls.js:2123-2201 | translate mode moves the position by the translate rule and keeps the scale; scale mode changes the scale by the scale rule and keeps the position; rotate mode leaves the object unchanged |
| Transform.PointerMove | js/lib/ThreeControls.js:2108-2311 | acts only with an object attached, an axis set, a drag running, the primary button and a plane hit, and then emits `change` and `objectChange`; otherwise nothing changes |
| Transform.PointerUp | js/lib/ThreeControls.js:2313-2342 | a secondary button is ignored; otherwise the drag ends and `mouseUp` with the mode is emitted exactly when a drag on a handle was running; a touch clears the axis and emits `change`, and a mouse hovers again |
| Transform.RunKeepsConsistent | js/lib/ThreeControls.js:1927-1960 | over any sequence of operations, exactly the current mode's gizmo is shown and the controls are visible exactly while an object is attached |
| Transform.CreatedRunsConsistent | js/lib/ThreeControls.js:1811-1960 | new controls satisfy that invariant after any run |
| Transform.PressReleaseBrackets | js/lib/ThreeControls.js:2058-2342 | a press on a handle emits `mouseDown`, and the following primary release emits `mouseUp` in the same mode and leaves no drag running |
| Transform.ReleaseStopsMoves | js/lib/ThreeControls.js:2108-2342 | after a primary release, pointer moves change nothing |
| Transform.HoverSettles | js/lib/ThreeControls.js:2030-2056 | hovering twice over the same handle announces at most one change |
| Transform.DetachAttach | js/lib/ThreeControls.js:1927-1941 | detach then attach leaves the controls visible on the new object with no axis |
| Transform.SetModeIdempotent | js/lib/ThreeControls.js:1949-1960 | selecting a mode twice equals selecting it once |
| Drag.Create | js/lib/ThreeControls.js:1041-1173 | new drag controls have nothing selected or hovered, and are enabled and listening |
| Drag.MouseMove | js/lib/ThreeControls.js:1069-1124 | while a selection is held and enabled, the selected object goes to the plane hit minus the grab offset (or stays if the plane is missed), the others stay, and `drag` is emitted; otherwise the hover target follows the ray, with `hoveron` for a new object and `hoveroff` when leaving, and a hover that does not change is silent |
| Drag.MouseDown | js/lib/ThreeControls.js:1126-1151 | a hit object becomes the selection, even when disabled, with `dragstart`; the grab offset plus the object's position is the plane hit; a miss changes nothing |
| Drag.MouseUp | js/lib/ThreeControls.js:1153-1167 | the selection is dropped with `dragend` naming it, and no `dragend` is emitted without a selection |
| Drag.CountAppend | js/lib/ThreeControls.js:1069-1167 | the number of events of a kind in a concatenation of traces is the sum of the numbers in its parts |
| Drag.RunBalanced | js/lib/ThreeControls.js:1069-1167 | over any run, `dragend` count plus a held selection never exceeds the `dragstart` count (plus one for a selection held at the start), and likewise for `hoveroff` against `hoveron` |
| Drag.GrabWithoutJump | js/lib/ThreeControls.js:1080-1142 | grabbing an object and moving the pointer to the point where it was grabbed leaves every object where it was |
| FirstPerson.Defaults | js/lib/ThreeControls.js:2370-2387 | the default settings: enabled, movement speed 1, look speed 0.005, active look, no vertical look, no auto-forward, no height speed with coefficient 1 and height range [0, 1], and unconstrained vertical range [0, pi] |
| FirstPerson.Create | js/lib/ThreeControls.js:2389-2654 | new controls have every movement flag down, no drag, zero angles and pointer offset, and, after the constructor's `handleResize()`, half-view sizes that are half the given width and height |
| FirstPerson.KeyDirection | js/lib/ThreeControls.js:2495-2541 | up arrow and W map to forward, left arrow and A to left, down arrow and S to backward, right arrow and D to right, R to up, F to down, in both directions of each correspondence |
| FirstPerson.KeyDown | js/lib/ThreeControls.js:2495-2518 | a mapped key raises its direction's flag, and no other flag changes |
| FirstPerson.KeyUp | js/lib/ThreeControls.js:2520-2541 | a mapped key lowers its direction's flag, and no other flag changes |
| FirstPerson.KeyUpUndoesKeyDown | js/lib/ThreeControls.js:2495-2541 | pressing then releasing a key equals releasing it alone |
| FirstPerson.MouseButton | js/lib/ThreeControls.js:2433-2477 | with active look, button 0 sets forward and button 2 sets backward to the press state; without it no flag changes; the drag flag follows the press for every button |
| FirstPerson.ButtonUpUndoesButtonDown | js/lib/ThreeControls.js:2433-2477 | pressing then releasing a mouse button equals releasing it alone |
| FirstPerson.MouseMove | js/lib/ThreeControls.js:2479-2493 | the pointer offset plus the element offset plus half the view size is the page coordinate |
| FirstPerson.Resize | js/lib/ThreeControls.js:2417-2431 | the half-view sizes are half the element's size |
| FirstPerson.ClampLat | js/lib/ThreeControls.js:2590 | the latitude ends within [-85, 85], is unchanged within it, and goes to the nearer limit outside it |
| FirstPerson.Polar | js/lib/ThreeControls.js:2591 | the polar angle is (90 − lat)/180 of pi, and lies between 5 and 175 degrees for a clamped latitude |
| FirstPerson.Travel | js/lib/ThreeControls.js:2560-2569 | the step along x is right minus left, along y up minus down, and along z backward minus forward, with the height bonus on forward or auto-forward unless backing |
| FirstPerson.Update | js/lib/ThreeControls.js:2543-2610 | disabled controls do nothing; otherwise the latitude ends within ±85, and phi lies in [5°, 175°], or at the same fraction of [verticalMin, verticalMax] when constrained; without vertical look a latitude in range stays; without active look or pointer offset the longitude stays; the height bonus is 0 without height speed and otherwise bounded by the height range; the returned translation is `Travel` of the held flags at `delta · movementSpeed` with that bonus |
| FirstPerson.Turn | js/lib/ThreeControls.js:2547-2599 | the look step of an enabled update: latitude within ±85, phi in [5°, 175°] or at the same fraction of the constrained range, longitude kept without look input, height bonus 0 without height speed and bounded otherwise |
| FirstPerson.HeightAbove | js/lib/ThreeControls.js:2547-2556 | the clamped height above `heightMin` lies within the height range |
| FirstPerson.MapLinear | js/lib/ThreeControls.js:2595-2599 | `mapLinear(x, 0, pi, a, b)` places x at the same fraction of [a, b] |
| FirstPerson.OppositeKeysCancel | js/lib/ThreeControls.js:2562-2566 | holding forward and backward (and left and right) together cancels out, except for the height bonus |
| FirstPerson.LatitudeSettles | js/lib/ThreeControls.js:2587-2590 | without vertical look, a second step keeps the latitude the first step clamped |
| Topology.Label | js/lib/Topology3D.js:59 | the label is the IP address, or "cloud" when the address is missing or empty |
| Topology.Place | js/lib/Topology3D.js:56-77 | the box sits at x/5 − 300 and y/5 with the drawn height, and its label sits 10 units lower on every axis |
| Topology.PlaceAll | js/lib/Topology3D.js:55-82 | every record is placed, in order |
| Topology.Key | js/lib/Topology3D.js:86-96 | a `cloud` link is looked up by the identifier "cloud", and any other link by its `dev_id` |
| Topology.FirstFrom | js/lib/Topology3D.js:87-91 | the lookup finds the first record from the start index on whose `dev_id` matches, or reports that none does |
| Topology.FirstMatch | js/lib/Topology3D.js:94-98 | a match exists exactly when some record carries the key, and the one returned is the first such record |
| Topology.LinkPair | js/lib/Topology3D.js:90-98 | a link yields one pair when its key is known, and nothing otherwise; that pair joins the first record carrying the key to the link's record |
| Topology.PairsCount | js/lib/Topology3D.js:84-102 | there are exactly as many pairs as resolvable links, and never more than links |
| Topology.PairsJustified | js/lib/Topology3D.js:84-102 | every pair joins a link of its source to the first record carrying that link's key, and the sources never decrease along the list (node order) |
| Topology.LinkPairsOrdered | js/lib/Topology3D.js:84-102 | within one record, the pairs come from strictly increasing link positions, each joined to the first record with that link's key, and every resolvable link has its pair (link order) |
| Topology.InitTopologyData | js/lib/Topology3D.js:49-108 | the new records are appended after the nodes already placed; the links of all nodes are resolved and appended; every pair names a placed node |
| Topology.FreshScene | js/lib/Topology3D.js:49-108 | on a fresh viewer the pairs are exactly the resolution of the data's links, one per resolvable link |
| Topology.ResolveLinks | js/lib/Topology3D.js:84-102 | the nested loops pushing pairs compute exactly the resolution |
| Topology.DrawCurves | js/lib/Topology3D.js:166-181 | one line per pair, in pair order, from the target's box to the source's box |

## Left out

- Engine math is foreign code. It appears as inputs:
  - quaternions and Euler angles;
  - matrix inversion and extraction;
  - `lookAt`;
  - raycasting and `intersectObjects`.
- `Spherical.setFromVector3` and `setFromSpherical` are taken as exact inverses. The model therefore keeps the spherical record from one `update()` to the next, instead of converting the camera position back each time.
- The pan and rotate factors per pixel are inputs: they involve `tan`, `Math.pow` and the element size.
- The zoom factor `0.95^zoomSpeed` is an opaque positive number.
- Orbit.Update: the change test compares poses exactly, where the source uses an epsilon on squared distance and on the quaternion dot product. That comparison needs floating point and quaternions. The `makeSafe` adjustment of phi is also not modelled.
- Orbit.Update: `setFromVector3` recomputes theta with `atan2`, which wraps it into (−π, π] on every update. The model carries theta unwrapped, so a pose that differs only by whole turns of 2π counts as changed.
- Orbit.Create: the source's first `update()` compares against a last position at the origin and an identity quaternion (js/lib/ThreeControls.js:124-125 and 192-194), so a camera placed at the origin with that orientation would report no `change`. The model has no last pose at construction and always reports one. The camera's initial position enters as its spherical offset from the origin, and settings the page assigns after construction are a new `cfg` on the returned controls.
- Orbit.Reset: restoring the saved pose is stated only when nothing is pending and the saved pose is within the limits. Otherwise `update()` moves it, as Orbit.Update states.
- Gizmo.TranslateDrag: its contract covers world space with an unrotated parent. The local-space path and a rotated parent go through engine matrices, which are inputs, so the result is stated only by the definition.
- Transform.Dragged: the rotate mode is not modelled, because it is atan2 and quaternion arithmetic. In the model a rotate drag leaves the object as it is.
- Transform.Dragged: the source computes NaN or an infinity for a zero translation snap, for a zero starting scale component on the dragged axis, or for a zero largest component under the uniform handle. Real numbers cannot hold those values, so the model leaves the object unchanged in these cases.
- `setMode` with an unknown non-empty name is not modelled: the source would store it and then fail on the missing gizmo.
- FirstPerson.Update:
  - It requires a non-empty vertical range when the look is both vertical and constrained, because the source then divides the latitude step by `verticalMax - verticalMin`.
  - The look target is placed with sine and cosine, which are not modelled.
  - The camera translation is returned as a vector along the camera's axes, not applied.
- Drag: the drag plane is set from the camera direction through the hovered object. The plane and its intersections are engine work, so the plane hit is an input.
- DOM plumbing is not modelled:
  - `dispose`;
  - `preventDefault`;
  - cursor styles other than the drag cursor;
  - focus and `tabindex`;
  - context menus.
- Rendering is not modelled: gizmo geometry, highlighting, the renderer and render loop, lights, fonts, the jQuery deferred, and the auto-hide timer in `drawLayout`.
- Topology:
  - `Number(d.x)` coercion and JavaScript's loose `==` between values of different types are not modelled. Coordinates are real numbers, and identifiers are optional strings compared exactly, so an absent `dev_id` equals another absent one.
  - The random box height is an input.
- The deprecated compatibility properties of the orbit and drag controls are not modelled.
- js/topology.js is only a bootstrap and is not part of this model.
