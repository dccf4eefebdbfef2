/** The camera as a value: its field set, what one call of each of its
    methods does to it, and what a whole sequence of calls does. The class in
    module CameraClass is proved to agree with these functions. */
module CameraSpec {
  import opened Geometry

  /** The cursor modes `Inputs` sets through `glfwSetInputMode`. */
  datatype CursorMode = CursorNormal | CursorDisabled

  /** A cursor position in window coordinates (GLFW reports doubles). */
  datatype Point2 = Point2(x: real, y: real)

  /** What `Inputs` polls from GLFW in one frame: the keys and the right
      mouse button it queries, and the cursor position as it stands before
      the camera writes it. */
  datatype Input = Input(
    w: bool, a: bool, s: bool, d: bool,
    space: bool, leftCtrl: bool, leftShift: bool,
    rightButton: bool,
    cursor: Point2)

  /** The GLFW side effects of one `Inputs` call: the cursor mode it set and
      the cursor positions it wrote, in order. */
  datatype Effects = Effects(cursorMode: CursorMode, cursorWrites: seq<Point2>)

  /** The fields of a `Camera`, plus the function-static `speedMultiplied`
      latch of `Inputs`. */
  datatype CameraState = CameraState(
    position: Vec3,
    orientation: Vec3,
    up: Vec3,
    cameraMatrix: Mat4,
    firstClick: bool,
    width: int,
    height: int,
    speed: real,
    sensitivity: real,
    speedMultiplier: real,
    speedMultiplied: bool)

  /** One call of a public camera method (`Matrix` only uploads and is not
      modelled). */
  datatype Op =
    | Inputs(input: Input, deltaTime: real)
    | SetSpeed(newSpeed: real)
    | UpdateMatrix(fovDeg: real, nearPlane: real, farPlane: real)

  const DefaultOrientation: Vec3 := Vec3(0.0, 0.0, -1.0)
  const DefaultUp: Vec3 := Vec3(0.0, 1.0, 0.0)
  const DefaultSpeed: real := 0.1
  const DefaultSensitivity: real := 100.0
  const DefaultSpeedMultiplier: real := 1.0

  /** The pitch guard's threshold, in degrees. */
  const GuardDegrees: real := 5.0

  /** A freshly constructed camera: the constructor stores the size and the
      position; every other field keeps its declared default, and the
      latch starts false. */
  function InitialState(width: int, height: int, position: Vec3): CameraState {
    CameraState(position, DefaultOrientation, DefaultUp, Identity, true,
                width, height, DefaultSpeed, DefaultSensitivity,
                DefaultSpeedMultiplier, false)
  }

  /** C++ `n / 2` on `int`, which truncates toward zero. */
  function HalfTowardZero(n: int): (h: int)
    ensures -1 <= n - 2 * h <= 1
    ensures n >= 0 ==> h >= 0 && n - 2 * h >= 0
    ensures n < 0 ==> h <= 0 && n - 2 * h <= 0
  {
    if n >= 0 then n / 2 else -((-n) / 2)
  }

  /** The viewport centre `(width / 2, height / 2)` the cursor is set to. */
  function Center(width: int, height: int): (c: Point2)
    ensures 0 <= width ==> 0.0 <= c.x <= width as real
    ensures 0 <= height ==> 0.0 <= c.y <= height as real
  {
    Point2(HalfTowardZero(width) as real, HalfTowardZero(height) as real)
  }

  /** `adjustedSpeed`: `speed * deltaTime`, doubled when LeftShift is held. */
  function StepSize(speed: real, deltaTime: real, shift: bool): (step: real)
    ensures !shift ==> step == speed * deltaTime
    ensures shift ==> step == 2.0 * (speed * deltaTime)
  {
    var baseSpeed := speed * deltaTime;
    if shift then baseSpeed * 2.0 else baseSpeed
  }

  /** The strafe axis `normalize(cross(Orientation, Up))`. */
  function StrafeAxis(g: Glm, orientation: Vec3, up: Vec3): (n: Vec3)
    ensures n == g.normalize(Neg(Cross(up, orientation)))
  {
    g.normalize(Cross(orientation, up))
  }

  function Held(pressed: bool, v: Vec3): Vec3 {
    if pressed then v else Zero
  }

  /** The contribution of a pair of opposite keys along `v`: `+v` for the
      first, `-v` for the second. */
  function Axis(forward: bool, backward: bool, v: Vec3): Vec3 {
    Add(Held(forward, v), Held(backward, Neg(v)))
  }

  /** The sum of the directions of the held movement keys: W forward, S
      backward, A along `+StrafeAxis`, D along `-StrafeAxis`, Space along
      `Up`, LeftCtrl along `-Up`. Nothing is re-normalised. */
  function MoveDirection(g: Glm, orientation: Vec3, up: Vec3, input: Input): Vec3 {
    Add(Add(Axis(input.w, input.s, orientation),
            Axis(input.a, input.d, StrafeAxis(g, orientation, up))),
        Axis(input.space, input.leftCtrl, up))
  }

  /** `sum`, plus `term` when `pressed`. */
  function AddIf(pressed: bool, sum: Vec3, term: Vec3): Vec3 {
    if pressed then Add(sum, term) else sum
  }

  /** The translation of one frame: one `step`-scaled term per held key,
      each along its direction in `MoveDirection`, added in the order the
      keys are tested. */
  function Displacement(g: Glm, orientation: Vec3, up: Vec3, input: Input, step: real): (r: Vec3)
    ensures !(input.w || input.a || input.s || input.d || input.space || input.leftCtrl) ==> r == Zero
  {
    var n := StrafeAxis(g, orientation, up);
    var afterW := AddIf(input.w, Zero, Scale(step, orientation));
    var afterA := AddIf(input.a, afterW, Scale(step, n));
    var afterS := AddIf(input.s, afterA, Scale(step, Neg(orientation)));
    var afterD := AddIf(input.d, afterS, Scale(step, Neg(n)));
    var afterSpace := AddIf(input.space, afterD, Scale(step, up));
    AddIf(input.leftCtrl, afterSpace, Scale(step, Neg(up)))
  }

  /** The position after the translation part of `Inputs`; the directions
      come from the orientation before the call. */
  function NextPosition(g: Glm, s: CameraState, input: Input, deltaTime: real): (p: Vec3)
    ensures Sub(p, s.position) == Displacement(g, s.orientation, s.up, input,
                                               StepSize(s.speed, deltaTime, input.leftShift))
    ensures !(input.w || input.a || input.s || input.d || input.space || input.leftCtrl) ==> p == s.position
  {
    Add(s.position,
        Displacement(g, s.orientation, s.up, input,
                     StepSize(s.speed, deltaTime, input.leftShift)))
  }

  /** The `speedMultiplied` latch after one frame: set when shift is held
      and it was clear, cleared when shift is released and it was set. */
  function NextLatch(latch: bool, shift: bool): (r: bool)
    ensures r == shift
  {
    if shift && !latch then true
    else if !shift && latch then false
    else latch
  }

  /** The cursor position `Inputs` reads: on the first pressed frame the
      cursor has just been moved to the centre. */
  function CursorRead(s: CameraState, input: Input): (m: Point2)
    ensures s.firstClick ==> m == Center(s.width, s.height)
    ensures !s.firstClick ==> m == input.cursor
  {
    if s.firstClick then Center(s.width, s.height) else input.cursor
  }

  /** One look amount, in degrees: `scale` times the offset of `mouse`
      from the centre `size / 2`, divided by `size`. */
  function Offset(scale: real, mouse: real, size: int): (r: real)
    requires size != 0
    ensures mouse == HalfTowardZero(size) as real ==> r == 0.0
  {
    var d := mouse - HalfTowardZero(size) as real;
    assert d == 0.0 ==> scale * d == 0.0;
    scale * d / size as real
  }

  /** `(rotX, rotY)`: the pitch and yaw amounts from the cursor read. */
  function LookOffsets(s: CameraState, input: Input): (rot: (real, real))
    requires s.width != 0 && s.height != 0
    ensures s.firstClick || input.cursor == Center(s.width, s.height) ==> rot == (0.0, 0.0)
  {
    var m := CursorRead(s, input);
    (Offset(s.sensitivity, m.y, s.height), Offset(-s.sensitivity, m.x, s.width))
  }

  /** The pitched orientation `Inputs` considers before the guard. */
  function PitchCandidate(g: Glm, orientation: Vec3, up: Vec3, rotX: real): (c: Vec3)
    ensures rotX == 0.0 ==> c == g.rotate(orientation, 0.0, StrafeAxis(g, orientation, up))
  {
    g.rotate(orientation, Radians(-rotX), StrafeAxis(g, orientation, up))
  }

  /** The pitch guard as written: the `!` applies to the first comparison
      only. */
  predicate PitchAccepted(g: Glm, candidate: Vec3, up: Vec3): (ok: bool)
    ensures g.angle(candidate, Neg(up)) <= Radians(GuardDegrees) ==> ok
    ensures g.angle(candidate, up) > Radians(GuardDegrees) ==> ok
    ensures !ok ==> g.angle(candidate, up) <= Radians(GuardDegrees)
  {
    !(g.angle(candidate, up) <= Radians(GuardDegrees))
      || g.angle(candidate, Neg(up)) <= Radians(GuardDegrees)
  }

  /** The orientation after `Inputs`: unchanged while the right button is
      released; otherwise the guarded pitch, then the yaw about `Up`. */
  function NextOrientation(g: Glm, s: CameraState, input: Input): (o: Vec3)
    requires input.rightButton ==> s.width != 0 && s.height != 0
    ensures !input.rightButton ==> o == s.orientation
  {
    if !input.rightButton then s.orientation
    else
      var (rotX, rotY) := LookOffsets(s, input);
      var candidate := PitchCandidate(g, s.orientation, s.up, rotX);
      var pitched := if PitchAccepted(g, candidate, s.up) then candidate else s.orientation;
      g.rotate(pitched, Radians(-rotY), s.up)
  }

  /** The mouse-look part of `Inputs` reads neither the position nor the
      latch, so the translation before it does not change what it does. */
  lemma LookIgnoresPositionAndLatch(g: Glm, s: CameraState, input: Input, p: Vec3, latch: bool)
    requires input.rightButton ==> s.width != 0 && s.height != 0
    ensures NextOrientation(g, s.(position := p, speedMultiplied := latch), input)
         == NextOrientation(g, s, input)
  {
  }

  /** The GLFW effects of one `Inputs` call. */
  function FrameEffects(s: CameraState, input: Input): (fx: Effects)
    ensures fx.cursorMode == CursorDisabled <==> input.rightButton
    ensures !input.rightButton ==> fx.cursorWrites == []
    ensures input.rightButton ==>
      |fx.cursorWrites| > 0 && fx.cursorWrites[|fx.cursorWrites| - 1] == Center(s.width, s.height)
    ensures |fx.cursorWrites| == 2 <==> input.rightButton && s.firstClick
    ensures input.rightButton && !s.firstClick ==> |fx.cursorWrites| == 1
    ensures forall i | 0 <= i < |fx.cursorWrites| :: fx.cursorWrites[i] == Center(s.width, s.height)
  {
    var c := Center(s.width, s.height);
    if input.rightButton then
      Effects(CursorDisabled, (if s.firstClick then [c] else []) + [c])
    else
      Effects(CursorNormal, [])
  }

  /** The state after one `Inputs` call. */
  function InputsState(g: Glm, s: CameraState, input: Input, deltaTime: real): (r: CameraState)
    requires input.rightButton ==> s.width != 0 && s.height != 0
    ensures r.up == s.up && r.cameraMatrix == s.cameraMatrix
    ensures r.width == s.width && r.height == s.height
    ensures r.speed == s.speed && r.sensitivity == s.sensitivity && r.speedMultiplier == s.speedMultiplier
    ensures r.firstClick == !input.rightButton
    ensures r.speedMultiplied == input.leftShift
  {
    s.(position := NextPosition(g, s, input, deltaTime),
       orientation := NextOrientation(g, s, input),
       firstClick := !input.rightButton,
       speedMultiplied := NextLatch(s.speedMultiplied, input.leftShift))
  }

  /** `cameraMatrix` as `updateMatrix` computes it:
      `perspective(radians(fov), width / height, near, far) * lookAt(position, position + orientation, up)`. */
  function ViewProjection(g: Glm, position: Vec3, orientation: Vec3, up: Vec3,
                          width: int, height: int,
                          fovDeg: real, nearPlane: real, farPlane: real): (m: Mat4)
    requires height != 0
    ensures g.perspective(Radians(fovDeg), width as real / height as real, nearPlane, farPlane) == Identity ==>
              m == g.lookAt(position, Add(position, orientation), up)
  {
    MatMul(g.perspective(Radians(fovDeg), width as real / height as real, nearPlane, farPlane),
           g.lookAt(position, Add(position, orientation), up))
  }

  /** The divisions a call performs are by nonzero sizes (the model has no
      IEEE infinities). */
  predicate Admissible(width: int, height: int, op: Op) {
    match op
    case Inputs(input, _) => input.rightButton ==> width != 0 && height != 0
    case SetSpeed(_) => true
    case UpdateMatrix(_, _, _) => height != 0
  }

  /** The state after one method call. */
  function Apply(g: Glm, s: CameraState, op: Op): (r: CameraState)
    requires Admissible(s.width, s.height, op)
    ensures r.up == s.up
    ensures r.width == s.width && r.height == s.height
    ensures r.sensitivity == s.sensitivity && r.speedMultiplier == s.speedMultiplier
    ensures !op.UpdateMatrix? ==> r.cameraMatrix == s.cameraMatrix
    ensures !op.SetSpeed? ==> r.speed == s.speed
    ensures !op.Inputs? ==>
      r.position == s.position && r.orientation == s.orientation &&
      r.firstClick == s.firstClick && r.speedMultiplied == s.speedMultiplied
  {
    match op
    case Inputs(input, deltaTime) => InputsState(g, s, input, deltaTime)
    case SetSpeed(newSpeed) => s.(speed := newSpeed)
    case UpdateMatrix(fovDeg, nearPlane, farPlane) =>
      s.(cameraMatrix := ViewProjection(g, s.position, s.orientation, s.up,
                                        s.width, s.height, fovDeg, nearPlane, farPlane))
  }

  predicate AllAdmissible(width: int, height: int, ops: seq<Op>) {
    forall op | op in ops :: Admissible(width, height, op)
  }

  /** The state after a sequence of method calls, first call first. */
  function Run(g: Glm, s: CameraState, ops: seq<Op>): (r: CameraState)
    requires AllAdmissible(s.width, s.height, ops)
    ensures r.up == s.up
    ensures r.width == s.width && r.height == s.height
    ensures r.sensitivity == s.sensitivity && r.speedMultiplier == s.speedMultiplier
    decreases |ops|
  {
    if ops == [] then s
    else Run(g, Apply(g, s, ops[0]), ops[1..])
  }

  datatype Option<T> = None | Some(value: T)

  /** The input of the last `Inputs` call in `ops`, if there is one. */
  function LastInput(ops: seq<Op>): Option<Input>
    decreases |ops|
  {
    if ops == [] then None
    else match LastInput(ops[1..])
      case Some(i) => Some(i)
      case None => if ops[0].Inputs? then Some(ops[0].input) else None
  }
}
