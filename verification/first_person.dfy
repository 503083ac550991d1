/**
 * `THREE.FirstPersonControls` (js/lib/ThreeControls.js:2363-2656): movement flags
 * raised and lowered by keys and mouse buttons, and the per-frame step that turns
 * them into a translation of the camera and the pointer offset into look angles,
 * with the latitude held within 85 degrees of the horizon.
 *
 * The camera's own translation and `lookAt` are the engine's: the step returns the
 * translation along the camera's local axes and the new angles instead. The
 * constant pi is a parameter, and the sine and cosine that place the look target
 * are not modelled.
 */
module FirstPerson {
  import opened Numeric
  import opened Vectors
  import opened Optional

  /** The six movement flags. */
  datatype Direction = Forward | Backward | Left | Right | Up | Down

  datatype Flags = Flags(forward: bool, backward: bool, left: bool, right: bool, up: bool, down: bool) {
    function Get(d: Direction): bool {
      match d
      case Forward => forward
      case Backward => backward
      case Left => left
      case Right => right
      case Up => up
      case Down => down
    }

    function Set(d: Direction, on: bool): (r: Flags)
      ensures r.Get(d) == on
      ensures forall e: Direction :: e != d ==> r.Get(e) == Get(e)
    {
      match d
      case Forward => this.(forward := on)
      case Backward => this.(backward := on)
      case Left => this.(left := on)
      case Right => this.(right := on)
      case Up => this.(up := on)
      case Down => this.(down := on)
    }
  }

  /** The public settings, with their defaults in `Defaults`. */
  datatype Config = Config(
    enabled: bool,
    movementSpeed: real,
    lookSpeed: real,
    lookVertical: bool,
    autoForward: bool,
    activeLook: bool,
    heightSpeed: bool,
    heightCoef: real,
    heightMin: real,
    heightMax: real,
    constrainVertical: bool,
    verticalMin: real,
    verticalMax: real)

  type Pi = r: real | r > 0.0 witness 1.0

  datatype Controls = Controls(
    cfg: Config,
    flags: Flags,
    mouseDragOn: bool,
    mouseX: real,
    mouseY: real,
    viewHalfX: real,
    viewHalfY: real,
    lat: real,
    lon: real,
    phi: real,
    theta: real,
    autoSpeedFactor: real)

  /** Lines 2370-2396 (`verticalMax` is pi). */
  function Defaults(pi: Pi): (cfg: Config)
    ensures cfg.enabled && cfg.activeLook && !cfg.lookVertical && !cfg.autoForward && !cfg.heightSpeed
    ensures !cfg.constrainVertical && cfg.verticalMin == 0.0 && cfg.verticalMax == pi
    ensures cfg.movementSpeed == 1.0 && cfg.lookSpeed == 0.005
    ensures cfg.heightCoef == 1.0 && cfg.heightMin == 0.0 && cfg.heightMax == 1.0
  {
    Config(true, 1.0, 0.005, false, false, true, false, 1.0, 0.0, 1.0, false, 0.0, pi)
  }

  /**
   * Lines 2389-2407 and 2654: every flag down and every angle zero (`moveUp` and
   * `moveDown` start undefined, which reads as false), then `handleResize()` for the
   * element's (or the window's) `width` and `height`.
   */
  function Create(cfg: Config, width: real, height: real): (c: Controls)
    ensures forall d: Direction :: !c.flags.Get(d)
    ensures !c.mouseDragOn && c.lat == 0.0 && c.lon == 0.0 && c.cfg == cfg
    ensures c.mouseX == 0.0 && c.mouseY == 0.0
    ensures 2.0 * c.viewHalfX == width && 2.0 * c.viewHalfY == height
  {
    Resize(Controls(cfg, Flags(false, false, false, false, false, false), false, 0.0, 0.0, 0.0, 0.0, 0.0, 0.0, 0.0, 0.0, 0.0),
           width, height)
  }

  /**
   * The key map of `onKeyDown`/`onKeyUp` (lines 2495-2541): arrows and W/A/S/D move
   * in the plane, R and F up and down; any other key is ignored.
   */
  function KeyDirection(code: int): (d: Option<Direction>)
    ensures code in {38, 87} <==> d == Some(Forward)
    ensures code in {37, 65} <==> d == Some(Left)
    ensures code in {40, 83} <==> d == Some(Backward)
    ensures code in {39, 68} <==> d == Some(Right)
    ensures code == 82 <==> d == Some(Up)
    ensures code == 70 <==> d == Some(Down)
  {
    if code == 38 || code == 87 then Some(Forward)
    else if code == 37 || code == 65 then Some(Left)
    else if code == 40 || code == 83 then Some(Backward)
    else if code == 39 || code == 68 then Some(Right)
    else if code == 82 then Some(Up)
    else if code == 70 then Some(Down)
    else None
  }

  /** Press or release the key `code`: only its direction's flag changes. */
  function Key(c: Controls, code: int, pressed: bool): (r: Controls)
    ensures KeyDirection(code).Some? ==> r.flags.Get(KeyDirection(code).value) == pressed
    ensures forall d: Direction :: KeyDirection(code) != Some(d) ==> r.flags.Get(d) == c.flags.Get(d)
    ensures r.cfg == c.cfg && r.lat == c.lat && r.lon == c.lon && r.mouseDragOn == c.mouseDragOn
  {
    match KeyDirection(code)
    case None => c
    case Some(d) => c.(flags := c.flags.Set(d, pressed))
  }

  /** `onKeyDown` (lines 2495-2518). */
  function KeyDown(c: Controls, code: int): (r: Controls)
    ensures KeyDirection(code).Some? ==> r.flags.Get(KeyDirection(code).value)
    ensures forall d: Direction :: KeyDirection(code) != Some(d) ==> r.flags.Get(d) == c.flags.Get(d)
  {
    Key(c, code, true)
  }

  /** `onKeyUp` (lines 2520-2541). */
  function KeyUp(c: Controls, code: int): (r: Controls)
    ensures KeyDirection(code).Some? ==> !r.flags.Get(KeyDirection(code).value)
    ensures forall d: Direction :: KeyDirection(code) != Some(d) ==> r.flags.Get(d) == c.flags.Get(d)
  {
    Key(c, code, false)
  }

  /** Setting a flag twice is setting it to the second value. */
  lemma SetTwice(f: Flags, d: Direction, a: bool, b: bool)
    ensures f.Set(d, a).Set(d, b) == f.Set(d, b)
  {
    match d
    case Forward =>
    case Backward =>
    case Left =>
    case Right =>
    case Up =>
    case Down =>
  }

  /** Releasing a key undoes pressing it: press-then-release is release alone. */
  lemma KeyUpUndoesKeyDown(c: Controls, code: int)
    ensures KeyUp(KeyDown(c, code), code) == KeyUp(c, code)
  {
    match KeyDirection(code)
    case None =>
    case Some(d) =>
      var f := c.flags;
      assert KeyUp(KeyDown(c, code), code) == c.(flags := f.Set(d, true).Set(d, false));
      assert KeyUp(c, code) == c.(flags := f.Set(d, false));
      SetTwice(f, d, true, false);
  }

  /** The mouse buttons' flags (lines 2433-2477): button 0 moves forward, button 2 backward. */
  function ButtonDirection(button: int): (d: Option<Direction>)
    ensures button == 0 <==> d == Some(Forward)
    ensures button == 2 <==> d == Some(Backward)
    ensures button != 0 && button != 2 <==> d.None?
  {
    if button == 0 then Some(Forward)
    else if button == 2 then Some(Backward)
    else None
  }

  /**
   * `onMouseDown` and `onMouseUp` (lines 2433-2477): with `activeLook` on, the button's
   * flag follows it; whatever the button, a press starts and a release ends the drag.
   */
  function MouseButton(c: Controls, button: int, pressed: bool): (r: Controls)
    ensures r.mouseDragOn == pressed
    ensures c.cfg.activeLook && ButtonDirection(button).Some? ==> r.flags.Get(ButtonDirection(button).value) == pressed
    ensures !c.cfg.activeLook || ButtonDirection(button).None? ==> r.flags == c.flags
    ensures forall d: Direction :: d != Forward && d != Backward ==> r.flags.Get(d) == c.flags.Get(d)
    ensures r.cfg == c.cfg && r.lat == c.lat && r.lon == c.lon
  {
    var flags := match ButtonDirection(button)
      case Some(d) => if c.cfg.activeLook then c.flags.Set(d, pressed) else c.flags
      case None => c.flags;
    c.(flags := flags, mouseDragOn := pressed)
  }

  /** Releasing a mouse button undoes pressing it: press-then-release is release alone. */
  lemma ButtonUpUndoesButtonDown(c: Controls, button: int)
    ensures MouseButton(MouseButton(c, button, true), button, false) == MouseButton(c, button, false)
  {
    match ButtonDirection(button)
    case None =>
    case Some(d) =>
      if c.cfg.activeLook {
        var f := c.flags;
        assert MouseButton(MouseButton(c, button, true), button, false) == c.(flags := f.Set(d, true).Set(d, false), mouseDragOn := false);
        SetTwice(f, d, true, false);
      }
  }

  /**
   * `handleResize` and `onMouseMove` (lines 2417-2493): the pointer offset from the
   * centre of the element, whose left/top offset is 0 for the whole document.
   */
  function MouseMove(c: Controls, pageX: real, pageY: real, offsetLeft: real, offsetTop: real): (r: Controls)
    ensures r.mouseX + offsetLeft + c.viewHalfX == pageX
    ensures r.mouseY + offsetTop + c.viewHalfY == pageY
    ensures r.flags == c.flags && r.lat == c.lat && r.lon == c.lon
  {
    c.(mouseX := pageX - offsetLeft - c.viewHalfX, mouseY := pageY - offsetTop - c.viewHalfY)
  }

  function Resize(c: Controls, width: real, height: real): (r: Controls)
    ensures 2.0 * r.viewHalfX == width && 2.0 * r.viewHalfY == height
    ensures r == c.(viewHalfX := r.viewHalfX, viewHalfY := r.viewHalfY)
  {
    c.(viewHalfX := width / 2.0, viewHalfY := height / 2.0)
  }

  /** The latitude bound, in degrees. */
  const LatLimit: real := 85.0

  /** `Math.max(-85, Math.min(85, lat))` (line 2590). */
  function ClampLat(lat: real): (r: real)
    ensures -LatLimit <= r <= LatLimit
    ensures -LatLimit <= lat <= LatLimit ==> r == lat
    ensures lat < -LatLimit ==> r == -LatLimit
    ensures lat > LatLimit ==> r == LatLimit
  {
    Clamp(Finite(-LatLimit), Finite(LatLimit), lat)
  }

  /**
   * The vertical range divides the latitude step only when the look is both vertical
   * and constrained; an empty range there would make JavaScript divide by zero.
   */
  predicate LookUsable(cfg: Config) {
    cfg.constrainVertical && cfg.lookVertical ==> cfg.verticalMax != cfg.verticalMin
  }

  /**
   * The translation of one step along the camera's own axes (lines 2545-2569):
   * forward (or auto-forward unless backing) is toward -z and carries the height
   * bonus, left/right is along x, up/down along y.
   */
  function Travel(flags: Flags, autoForward: bool, speed: real, bonus: real): (t: Vec3)
    ensures t.x == (if flags.right then speed else 0.0) - (if flags.left then speed else 0.0)
    ensures t.y == (if flags.up then speed else 0.0) - (if flags.down then speed else 0.0)
    ensures t.z == (if flags.backward then speed else 0.0)
                 - (if flags.forward || (autoForward && !flags.backward) then speed + bonus else 0.0)
  {
    var z0 := if flags.forward || (autoForward && !flags.backward) then -(speed + bonus) else 0.0;
    var z := if flags.backward then z0 + speed else z0;
    var x0 := if flags.left then -speed else 0.0;
    var x := if flags.right then x0 + speed else x0;
    var y0 := if flags.up then speed else 0.0;
    var y := if flags.down then y0 - speed else y0;
    Vec3(x, y, z)
  }

  datatype Frame = Frame(c: Controls, travel: Vec3)

  /**
   * `update(delta)` (lines 2543-2610), given the camera's height `y` and pi. A
   * disabled control does nothing. Otherwise the view turns as `Turn` says, and the
   * camera moves by `Travel` for the held flags at `delta * movementSpeed`, with the
   * height bonus on forward motion.
   */
  function Update(c: Controls, delta: real, y: real, pi: Pi): (r: Frame)
    requires LookUsable(c.cfg)
    ensures !c.cfg.enabled ==> r == Frame(c, Zero)
    ensures c.cfg.enabled ==> -LatLimit <= r.c.lat <= LatLimit
    ensures c.cfg.enabled && !c.cfg.constrainVertical ==>
      (90.0 - LatLimit) / 180.0 * pi <= r.c.phi <= (90.0 + LatLimit) / 180.0 * pi
    ensures c.cfg.enabled && c.cfg.constrainVertical ==>
      r.c.phi - c.cfg.verticalMin == ((90.0 - r.c.lat) / 180.0) * (c.cfg.verticalMax - c.cfg.verticalMin)
    ensures c.cfg.enabled && !c.cfg.lookVertical && -LatLimit <= c.lat <= LatLimit ==> r.c.lat == c.lat
    ensures c.cfg.enabled && (!c.cfg.activeLook || c.mouseX == 0.0) ==> r.c.lon == c.lon
    ensures c.cfg.enabled && !c.cfg.heightSpeed ==> r.c.autoSpeedFactor == 0.0
    ensures c.cfg.enabled && c.cfg.heightSpeed && c.cfg.heightMin <= c.cfg.heightMax && delta >= 0.0 && c.cfg.heightCoef >= 0.0 ==>
      0.0 <= r.c.autoSpeedFactor <= delta * (c.cfg.heightMax - c.cfg.heightMin) * c.cfg.heightCoef
    ensures c.cfg.enabled ==> r.travel == Travel(c.flags, c.cfg.autoForward, delta * c.cfg.movementSpeed, r.c.autoSpeedFactor)
    ensures r.c.flags == c.flags && r.c.cfg == c.cfg
  {
    if !c.cfg.enabled then Frame(c, Zero)
    else
      var next := Turn(c, delta, y, pi);
      Frame(next, Travel(c.flags, c.cfg.autoForward, delta * c.cfg.movementSpeed, next.autoSpeedFactor))
  }

  /**
   * The looking part of an enabled `update(delta)` (lines 2547-2599): the longitude
   * turns by the horizontal offset; the latitude (only with `lookVertical`) by the
   * vertical one, scaled to the constrained range; the latitude is clamped to
   * [-85, 85] degrees, and `phi` is its polar angle in radians, mapped onto
   * [verticalMin, verticalMax] when constrained. The height bonus is computed too.
   */
  function Turn(c: Controls, delta: real, y: real, pi: Pi): (r: Controls)
    requires LookUsable(c.cfg)
    ensures -LatLimit <= r.lat <= LatLimit
    ensures !c.cfg.constrainVertical ==> (90.0 - LatLimit) / 180.0 * pi <= r.phi <= (90.0 + LatLimit) / 180.0 * pi
    ensures c.cfg.constrainVertical ==>
      r.phi - c.cfg.verticalMin == ((90.0 - r.lat) / 180.0) * (c.cfg.verticalMax - c.cfg.verticalMin)
    ensures !c.cfg.lookVertical && -LatLimit <= c.lat <= LatLimit ==> r.lat == c.lat
    ensures !c.cfg.activeLook || c.mouseX == 0.0 ==> r.lon == c.lon
    ensures !c.cfg.heightSpeed ==> r.autoSpeedFactor == 0.0
    ensures c.cfg.heightSpeed && c.cfg.heightMin <= c.cfg.heightMax && delta >= 0.0 && c.cfg.heightCoef >= 0.0 ==>
      0.0 <= r.autoSpeedFactor <= delta * (c.cfg.heightMax - c.cfg.heightMin) * c.cfg.heightCoef
    ensures r.flags == c.flags && r.cfg == c.cfg
  {
    var cfg := c.cfg;
    var bonus := if cfg.heightSpeed then delta * ((HeightAbove(cfg, y)) * cfg.heightCoef) else 0.0;
    var look := if cfg.activeLook then delta * cfg.lookSpeed else 0.0;
    var lon := c.lon + c.mouseX * look;
    var lat0 :=
      if !cfg.lookVertical then c.lat
      else if cfg.constrainVertical then c.lat - c.mouseY * look * (pi / (cfg.verticalMax - cfg.verticalMin))
      else c.lat - c.mouseY * look * 1.0;
    var lat := ClampLat(lat0);
    var phi0 := Polar(lat, pi);
    var phi := if cfg.constrainVertical then MapLinear(phi0, pi, cfg.verticalMin, cfg.verticalMax) else phi0;
    var theta := lon * pi / 180.0;
    c.(lat := lat, lon := lon, phi := phi, theta := theta, autoSpeedFactor := bonus)
  }

  /**
   * `degToRad(90 - lat)` (line 2591): the polar angle, in radians, of a latitude in
   * degrees; a latitude within the limit gives an angle between 5 and 175 degrees.
   */
  function Polar(lat: real, pi: Pi): (phi: real)
    ensures phi / pi == (90.0 - lat) / 180.0
    ensures -LatLimit <= lat <= LatLimit ==> (90.0 - LatLimit) / 180.0 * pi <= phi <= (90.0 + LatLimit) / 180.0 * pi
  {
    var q := (90.0 - lat) / 180.0;
    CancelFactor(q, pi);
    if -LatLimit <= lat <= LatLimit then
      var lo := (90.0 - LatLimit) / 180.0;
      var hi := (90.0 + LatLimit) / 180.0;
      MulNonneg(q - lo, pi);
      MulNonneg(hi - q, pi);
      assert q * pi - lo * pi == (q - lo) * pi;
      assert hi * pi - q * pi == (hi - q) * pi;
      q * pi
    else q * pi
  }

  /** How far the clamped height is above `heightMin` (lines 2547-2553). */
  function HeightAbove(cfg: Config, y: real): (h: real)
    ensures cfg.heightMin <= cfg.heightMax ==> 0.0 <= h <= cfg.heightMax - cfg.heightMin
  {
    Clamp(Finite(cfg.heightMin), Finite(cfg.heightMax), y) - cfg.heightMin
  }

  /** `THREE.Math.mapLinear(x, 0, pi, a, b)`: the point of [a, b] at the same fraction as x in [0, pi]. */
  function MapLinear(x: real, pi: Pi, a: real, b: real): (r: real)
    ensures r - a == (x / pi) * (b - a)
  {
    a + (x - 0.0) * (b - a) / (pi - 0.0)
  }

  /** Holding forward and backward together cancels, leaving only the height bonus. */
  lemma OppositeKeysCancel(c: Controls, delta: real, y: real, pi: Pi)
    requires LookUsable(c.cfg) && c.cfg.enabled
    requires c.flags.forward && c.flags.backward && c.flags.left && c.flags.right
    ensures var r := Update(c, delta, y, pi);
      r.travel.z == -r.c.autoSpeedFactor && r.travel.x == 0.0
  {
  }

  /** A second step with the pointer at rest and no vertical look leaves the latitude where the first put it. */
  lemma LatitudeSettles(c: Controls, delta: real, y: real, pi: Pi)
    requires LookUsable(c.cfg) && c.cfg.enabled && !c.cfg.lookVertical
    ensures var r := Update(c, delta, y, pi).c;
      Update(r, delta, y, pi).c.lat == r.lat
  {
    var r := Update(c, delta, y, pi).c;
    assert -LatLimit <= r.lat <= LatLimit;
  }
}
