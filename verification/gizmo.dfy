/**
 * The transform gizmo's pure logic (js/lib/ThreeControls.js): which helper plane a
 * handle drags on (`setActivePlane` of `TransformGizmoTranslate`, `...Rotate`,
 * `...Scale`), and how a drag offset becomes a new position or scale in the
 * translate and scale modes of `THREE.TransformControls`.
 *
 * Handle names are strings, as in the source; "the name contains a letter" is the
 * source's `axis.search(letter) !== -1`.
 */
module Gizmo {
  import opened Numeric
  import opened Vectors
  import opened Optional

  /** The three gizmos; `setMode` selects one. */
  datatype Mode = Translate | Rotate | Scale

  /** The invisible helper planes a drag is projected onto. */
  datatype Plane = XY | YZ | XZ | XYZE

  function PlaneName(p: Plane): string {
    match p
    case XY => "XY"
    case YZ => "YZ"
    case XZ => "XZ"
    case XYZE => "XYZE"
  }

  /** `name.search(part) !== -1` for a literal `part`: `part` occurs in `name`. */
  predicate Mentions(name: string, part: string)
    decreases |name|
  {
    |part| <= |name| && (name[..|part|] == part || Mentions(name[1..], part))
  }

  /** How squarely the camera looks at a coordinate plane: the eye's component along its normal. */
  function Facing(p: Plane, eye: Vec3): real {
    match p
    case XY => Abs(eye.z)
    case YZ => Abs(eye.x)
    case XZ => Abs(eye.y)
    case XYZE => 0.0
  }

  /** The single-axis handle names. */
  predicate SingleAxis(axis: string) {
    axis == "X" || axis == "Y" || axis == "Z"
  }

  /** Among the two coordinate planes through a single axis, the one the camera faces more. */
  function PlaneAlong(axis: string, eye: Vec3): (p: Plane)
    requires SingleAxis(axis)
    ensures p != XYZE && axis[0] in PlaneName(p)
    ensures forall q: Plane :: q != XYZE && axis[0] in PlaneName(q) ==> Facing(q, eye) <= Facing(p, eye)
  {
    if axis == "X" then (if Abs(eye.y) > Abs(eye.z) then XZ else XY)
    else if axis == "Y" then (if Abs(eye.x) > Abs(eye.z) then YZ else XY)
    else (if Abs(eye.x) > Abs(eye.y) then YZ else XZ)
  }

  /**
   * `TransformGizmoTranslate.setActivePlane` (lines 1515-1552); `eye` is the eye
   * vector already rotated into the gizmo's frame. Unknown names keep `current`.
   */
  function TranslatePlane(axis: string, eye: Vec3, current: Plane): (p: Plane)
    ensures SingleAxis(axis) ==> p == PlaneAlong(axis, eye)
    ensures axis == "XYZ" ==> p == XYZE
    ensures axis == "XY" || axis == "YZ" || axis == "XZ" ==> PlaneName(p) == axis
    ensures !SingleAxis(axis) && axis !in {"XYZ", "XY", "YZ", "XZ"} ==> p == current
  {
    if SingleAxis(axis) then PlaneAlong(axis, eye)
    else if axis == "XYZ" then XYZE
    else if axis == "XY" then XY
    else if axis == "YZ" then YZ
    else if axis == "XZ" then XZ
    else current
  }

  /** `TransformGizmoScale.setActivePlane` (lines 1774-1802): as translate, without the plane handles. */
  function ScalePlane(axis: string, eye: Vec3, current: Plane): (p: Plane)
    ensures SingleAxis(axis) ==> p == PlaneAlong(axis, eye)
    ensures axis == "XYZ" ==> p == XYZE
    ensures !SingleAxis(axis) && axis != "XYZ" ==> p == current
  {
    if SingleAxis(axis) then PlaneAlong(axis, eye)
    else if axis == "XYZ" then XYZE
    else current
  }

  /**
   * `TransformGizmoRotate.setActivePlane` (lines 1632-1642): a ring turns in the
   * plane normal to its axis; the outer ring `E` uses the screen plane.
   */
  function RotatePlane(axis: string, current: Plane): (p: Plane)
    ensures SingleAxis(axis) ==> p != XYZE && axis[0] !in PlaneName(p)
    ensures axis == "E" ==> p == XYZE
    ensures !SingleAxis(axis) && axis != "E" ==> p == current
  {
    if axis == "E" then XYZE
    else if axis == "X" then YZ
    else if axis == "Y" then XZ
    else if axis == "Z" then XY
    else current
  }

  /** `_gizmo[_mode].setActivePlane(axis, eye)`. */
  function ActivePlane(mode: Mode, axis: string, eye: Vec3, current: Plane): Plane {
    match mode
    case Translate => TranslatePlane(axis, eye, current)
    case Rotate => RotatePlane(axis, current)
    case Scale => ScalePlane(axis, eye, current)
  }

  /**
   * For translate and scale, a single-axis handle drags on a plane that contains the
   * axis, and of the two such planes it picks the one the camera faces more; for
   * rotate, it turns in the plane that does not contain the axis.
   */
  lemma ActivePlaneFitsAxis(mode: Mode, axis: string, eye: Vec3, current: Plane)
    requires SingleAxis(axis)
    ensures var p := ActivePlane(mode, axis, eye, current);
      && p != XYZE
      && (mode == Rotate <==> axis[0] !in PlaneName(p))
      && (mode != Rotate ==> forall q: Plane :: q != XYZE && axis[0] in PlaneName(q) ==> Facing(q, eye) <= Facing(p, eye))
  {
  }

  //
  // translate
  //

  /** Zero every component whose letter the handle name lacks (lines 2132-2134, 2145-2147). */
  function Mask(axis: string, v: Vec3): (r: Vec3)
    ensures 'X' in axis ==> r.x == v.x
    ensures 'X' !in axis ==> r.x == 0.0
    ensures 'Y' in axis ==> r.y == v.y
    ensures 'Y' !in axis ==> r.y == 0.0
    ensures 'Z' in axis ==> r.z == v.z
    ensures 'Z' !in axis ==> r.z == 0.0
  {
    Vec3(if 'X' in axis then v.x else 0.0,
         if 'Y' in axis then v.y else 0.0,
         if 'Z' in axis then v.z else 0.0)
  }

  /** Masking is a projection: masking twice is masking once, and it distributes over sums. */
  lemma MaskIsProjection(axis: string, a: Vec3, b: Vec3)
    ensures Mask(axis, Mask(axis, a)) == Mask(axis, a)
    ensures Mask(axis, Add(a, b)) == Add(Mask(axis, a), Mask(axis, b))
  {
  }

  /**
   * Round the named components of a position to the translation snap (lines
   * 2164-2166); the other components are untouched.
   */
  function SnapNamed(axis: string, pos: Vec3, step: real): (r: Vec3)
    requires step != 0.0
    ensures 'X' !in axis ==> r.x == pos.x
    ensures 'Y' !in axis ==> r.y == pos.y
    ensures 'Z' !in axis ==> r.z == pos.z
    ensures 'X' in axis ==> Abs(r.x - pos.x) <= Abs(step) / 2.0 && OnGrid(r.x, step)
    ensures 'Y' in axis ==> Abs(r.y - pos.y) <= Abs(step) / 2.0 && OnGrid(r.y, step)
    ensures 'Z' in axis ==> Abs(r.z - pos.z) <= Abs(step) / 2.0 && OnGrid(r.z, step)
  {
    Vec3(if 'X' in axis then Snap(pos.x, step) else pos.x,
         if 'Y' in axis then Snap(pos.y, step) else pos.y,
         if 'Z' in axis then Snap(pos.z, step) else pos.z)
  }

  /** Snapping a snapped position again changes nothing. */
  lemma SnapNamedIdempotent(axis: string, pos: Vec3, step: real)
    requires step != 0.0
    ensures SnapNamed(axis, SnapNamed(axis, pos, step), step) == SnapNamed(axis, pos, step)
  {
    SnapIdempotent(pos.x, step);
    SnapIdempotent(pos.y, step);
    SnapIdempotent(pos.z, step);
  }

  /**
   * What pointer-down captures for a drag (lines 2087-2096): the object's position
   * and scale, the hit point on the active plane, and the engine's rotation matrices
   * (object world rotation and its inverse, object local rotation, inverse parent
   * rotation) and inverse parent scale.
   */
  datatype Grab = Grab(
    oldPosition: Vec3,
    oldScale: Vec3,
    offset: Vec3,
    worldRot: Mat3,
    worldRotInv: Mat3,
    oldRot: Mat3,
    parentRotInv: Mat3,
    parentScale: Vec3)

  /** The drag offset in the parent's scale: `point.sub(offset).multiply(parentScale)`. */
  function DragOffset(g: Grab, hit: Vec3): Vec3 {
    Mul(Sub(hit, g.offset), g.parentScale)
  }

  /** The snap step is usable: JavaScript's division by a zero step yields NaN, which reals cannot hold. */
  predicate SnapUsable(snap: Option<real>) {
    snap.Some? ==> snap.value != 0.0
  }

  /**
   * The translate branch of `onPointerMove` (lines 2123-2174): the new position of
   * the object, currently at `current`, when the pointer's ray meets the active
   * plane at `hit`.
   */
  function TranslateDrag(axis: string, space: string, current: Vec3, g: Grab, hit: Vec3, snap: Option<real>)
    : (r: Vec3)
    requires SnapUsable(snap)
    ensures space == "world" && g.parentRotInv == Identity && snap.None? ==>
      r == Add(g.oldPosition, Mask(axis, DragOffset(g, hit)))
    ensures space == "world" && g.parentRotInv == Identity && snap.Some? ==>
      r == SnapNamed(axis, Add(g.oldPosition, Mask(axis, DragOffset(g, hit))), snap.value)
  {
    var pos := TranslateUnsnapped(axis, space, current, g, hit);
    match snap
    case None => pos
    case Some(step) =>
      if space == "local" then Apply(g.worldRot, SnapNamed(axis, Apply(g.worldRotInv, pos), step))
      else SnapNamed(axis, pos, step)
  }

  /**
   * Lines 2123-2154: in local space the offset is masked in the object's own frame;
   * in world space, or for the uniform handle, it is masked (again) in world axes and
   * turned into the parent's frame. Any other space leaves the position as it was.
   */
  function TranslateUnsnapped(axis: string, space: string, current: Vec3, g: Grab, hit: Vec3): (r: Vec3)
    ensures space == "world" && g.parentRotInv == Identity ==>
      r == Add(g.oldPosition, Mask(axis, DragOffset(g, hit)))
  {
    var p := DragOffset(g, hit);
    var local := Apply(g.oldRot, Mask(axis, Apply(g.worldRotInv, p)));
    var afterLocal := if space == "local" then Add(g.oldPosition, local) else current;
    var carried := if space == "local" then local else p;
    if space == "world" || Mentions(axis, "XYZ") then
      ApplyIdentity(Mask(axis, carried));
      Add(g.oldPosition, Apply(g.parentRotInv, Mask(axis, carried)))
    else afterLocal
  }

  /**
   * In world space (with an unrotated parent) a drag moves the object only along the
   * handle's axes: every component whose letter the handle lacks keeps its value from
   * the start of the drag, with or without snapping.
   */
  lemma WorldDragKeepsOtherAxes(axis: string, current: Vec3, g: Grab, hit: Vec3, snap: Option<real>)
    requires SnapUsable(snap) && g.parentRotInv == Identity
    ensures var r := TranslateDrag(axis, "world", current, g, hit, snap);
      && ('X' !in axis ==> r.x == g.oldPosition.x)
      && ('Y' !in axis ==> r.y == g.oldPosition.y)
      && ('Z' !in axis ==> r.z == g.oldPosition.z)
  {
  }

  /** With a snap step set, a world-space drag leaves the handle's components on the snap grid. */
  lemma WorldDragLandsOnGrid(axis: string, current: Vec3, g: Grab, hit: Vec3, step: real)
    requires step != 0.0 && g.parentRotInv == Identity
    ensures var r := TranslateDrag(axis, "world", current, g, hit, Some(step));
      && ('X' in axis ==> OnGrid(r.x, step))
      && ('Y' in axis ==> OnGrid(r.y, step))
      && ('Z' in axis ==> OnGrid(r.z, step))
  {
    var pos := Add(g.oldPosition, Mask(axis, DragOffset(g, hit)));
    var r := TranslateDrag(axis, "world", current, g, hit, Some(step));
    assert r == SnapNamed(axis, pos, step);
  }

  //
  // scale
  //

  function Max3(a: real, b: real, c: real): (m: real)
    ensures m == a || m == b || m == c
    ensures a <= m && b <= m && c <= m
  {
    Max(a, Max(b, c))
  }

  /**
   * The source's division for this handle is defined: the uniform handle divides by
   * the largest starting component, a single-axis handle by its own component, and
   * any other handle divides by nothing.
   */
  predicate ScaleUsable(axis: string, g: Grab) {
    var s0 := g.oldScale;
    && (axis == "XYZ" ==> Max3(s0.x, s0.y, s0.z) != 0.0)
    && (axis == "X" ==> s0.x != 0.0)
    && (axis == "Y" ==> s0.y != 0.0)
    && (axis == "Z" ==> s0.z != 0.0)
  }

  /**
   * The scale branch of `onPointerMove` (lines 2176-2201). Only local space scales.
   * The uniform handle scales all three components by one factor taken from the
   * vertical drag; a single-axis handle adds the drag along that axis to it and
   * leaves the other components as they are.
   */
  function ScaleDrag(axis: string, space: string, current: Vec3, g: Grab, hit: Vec3): (r: Vec3)
    requires ScaleUsable(axis, g)
    ensures space != "local" ==> r == current
    ensures space == "local" && axis == "XYZ" ==>
      r == Vectors.Scale(1.0 + DragOffset(g, hit).y / Max3(g.oldScale.x, g.oldScale.y, g.oldScale.z), g.oldScale)
    ensures space == "local" && SingleAxis(axis) ==>
      var p := Apply(g.worldRotInv, DragOffset(g, hit));
      && (axis == "X" ==> r == current.(x := g.oldScale.x + p.x))
      && (axis == "Y" ==> r == current.(y := g.oldScale.y + p.y))
      && (axis == "Z" ==> r == current.(z := g.oldScale.z + p.z))
    ensures space == "local" && !SingleAxis(axis) && axis != "XYZ" ==> r == current
  {
    var p := DragOffset(g, hit);
    var s0 := g.oldScale;
    if space != "local" then current
    else if axis == "XYZ" then
      var m := Max3(s0.x, s0.y, s0.z);
      var f := 1.0 + p.y / m;
      Vec3(s0.x * f, s0.y * f, s0.z * f)
    else
      var q := Apply(g.worldRotInv, p);
      if axis == "X" then current.(x := s0.x * (1.0 + q.x / s0.x))
      else if axis == "Y" then current.(y := s0.y * (1.0 + q.y / s0.y))
      else if axis == "Z" then current.(z := s0.z * (1.0 + q.z / s0.z))
      else current
  }

  /**
   * Moving the pointer back to the point where the scale drag was grabbed restores
   * the starting scale: all of it for the uniform handle, the dragged component for
   * a single-axis handle, with the other components as they are.
   */
  lemma ScaleGrabWithoutJump(axis: string, current: Vec3, g: Grab)
    requires ScaleUsable(axis, g)
    ensures var r := ScaleDrag(axis, "local", current, g, g.offset);
      && (axis == "XYZ" ==> r == g.oldScale)
      && (axis == "X" ==> r == current.(x := g.oldScale.x))
      && (axis == "Y" ==> r == current.(y := g.oldScale.y))
      && (axis == "Z" ==> r == current.(z := g.oldScale.z))
  {
    var p := DragOffset(g, g.offset);
    assert p == Zero;
    assert Apply(g.worldRotInv, p) == Zero;
    if axis == "XYZ" {
      assert Vectors.Scale(1.0 + 0.0 / Max3(g.oldScale.x, g.oldScale.y, g.oldScale.z), g.oldScale) == g.oldScale;
    }
  }
}
