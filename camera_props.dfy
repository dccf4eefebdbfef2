/** Properties of the camera model: how the translation terms compose, the
    step size, the pitch guard as written, the mouse-look state machine, and
    what a whole sequence of method calls can and cannot change. */
module CameraProperties {
  import opened Geometry
  import opened CameraSpec

  // ---------------------------------------------------------------- translation

  /** The six successive `+=`/`-=` of `Inputs` add up to one step-scaled
      sum of the held directions: nothing is re-normalised. */
  lemma {:induction false} DisplacementIsScaledDirection(g: Glm, o: Vec3, up: Vec3, input: Input, step: real)
    ensures Displacement(g, o, up, input, step) == Scale(step, MoveDirection(g, o, up, input))
  {
    var n := StrafeAxis(g, o, up);
    ScaleZero(step);
    var d1 := Add(Zero, Held(input.w, o));
    AddIfScaled(input.w, Zero, step, o, Zero);
    var afterW := AddIf(input.w, Zero, Scale(step, o));
    var d2 := Add(d1, Held(input.a, n));
    AddIfScaled(input.a, afterW, step, n, d1);
    var afterA := AddIf(input.a, afterW, Scale(step, n));
    var d3 := Add(d2, Held(input.s, Neg(o)));
    AddIfScaled(input.s, afterA, step, Neg(o), d2);
    var afterS := AddIf(input.s, afterA, Scale(step, Neg(o)));
    var d4 := Add(d3, Held(input.d, Neg(n)));
    AddIfScaled(input.d, afterS, step, Neg(n), d3);
    var afterD := AddIf(input.d, afterS, Scale(step, Neg(n)));
    var d5 := Add(d4, Held(input.space, up));
    AddIfScaled(input.space, afterD, step, up, d4);
    var afterSpace := AddIf(input.space, afterD, Scale(step, up));
    var d6 := Add(d5, Held(input.leftCtrl, Neg(up)));
    AddIfScaled(input.leftCtrl, afterSpace, step, Neg(up), d5);
    assert Displacement(g, o, up, input, step) == Scale(step, d6);
    Regroup(Held(input.w, o), Held(input.a, n), Held(input.s, Neg(o)), Held(input.d, Neg(n)),
            Held(input.space, up), Held(input.leftCtrl, Neg(up)));
    assert d6 == MoveDirection(g, o, up, input);
  }

  /** One conditional `+=` of a step-scaled direction keeps the running
      position change a step-scaled sum of held directions. */
  lemma AddIfScaled(pressed: bool, sum: Vec3, k: real, v: Vec3, dirSum: Vec3)
    requires sum == Scale(k, dirSum)
    ensures AddIf(pressed, sum, Scale(k, v)) == Scale(k, Add(dirSum, Held(pressed, v)))
  {
  }

  /** Six terms summed in key order equal the sum of the three pairs. */
  lemma Regroup(w: Vec3, a: Vec3, s: Vec3, d: Vec3, sp: Vec3, c: Vec3)
    ensures Add(Add(Add(Add(Add(Add(Zero, w), a), s), d), sp), c) == Add(Add(Add(w, s), Add(a, d)), Add(sp, c))
  {
  }

  lemma ScaleZero(k: real)
    ensures Scale(k, Zero) == Zero
  {
  }

  /** W with S, and A with D, and Space with LeftCtrl, cancel: holding both
      keys of a pair moves exactly as holding neither. */
  lemma OpposingKeysCancel(g: Glm, o: Vec3, up: Vec3, input: Input, step: real)
    ensures Displacement(g, o, up, input.(w := true, s := true), step)
         == Displacement(g, o, up, input.(w := false, s := false), step)
    ensures Displacement(g, o, up, input.(a := true, d := true), step)
         == Displacement(g, o, up, input.(a := false, d := false), step)
    ensures Displacement(g, o, up, input.(space := true, leftCtrl := true), step)
         == Displacement(g, o, up, input.(space := false, leftCtrl := false), step)
  {
    MoveDirectionCancels(g, o, up, input);
    SameDirectionSameDisplacement(g, o, up, input.(w := true, s := true), input.(w := false, s := false), step);
    SameDirectionSameDisplacement(g, o, up, input.(a := true, d := true), input.(a := false, d := false), step);
    SameDirectionSameDisplacement(g, o, up, input.(space := true, leftCtrl := true),
                                  input.(space := false, leftCtrl := false), step);
  }

  lemma MoveDirectionCancels(g: Glm, o: Vec3, up: Vec3, input: Input)
    ensures MoveDirection(g, o, up, input.(w := true, s := true))
         == MoveDirection(g, o, up, input.(w := false, s := false))
    ensures MoveDirection(g, o, up, input.(a := true, d := true))
         == MoveDirection(g, o, up, input.(a := false, d := false))
    ensures MoveDirection(g, o, up, input.(space := true, leftCtrl := true))
         == MoveDirection(g, o, up, input.(space := false, leftCtrl := false))
  {
    var n := StrafeAxis(g, o, up);
    var side := Axis(input.a, input.d, n);
    var vertical := Axis(input.space, input.leftCtrl, up);
    var forward := Axis(input.w, input.s, o);
    var both := input.(w := true, s := true);
    var neither := input.(w := false, s := false);
    assert MoveDirection(g, o, up, both) == Add(Add(Axis(true, true, o), side), vertical);
    assert MoveDirection(g, o, up, neither) == Add(Add(Axis(false, false, o), side), vertical);
    both := input.(a := true, d := true);
    neither := input.(a := false, d := false);
    assert MoveDirection(g, o, up, both) == Add(Add(forward, Axis(true, true, n)), vertical);
    assert MoveDirection(g, o, up, neither) == Add(Add(forward, Axis(false, false, n)), vertical);
    both := input.(space := true, leftCtrl := true);
    neither := input.(space := false, leftCtrl := false);
    assert MoveDirection(g, o, up, both) == Add(Add(forward, side), Axis(true, true, up));
    assert MoveDirection(g, o, up, neither) == Add(Add(forward, side), Axis(false, false, up));
    AxisCancels(o);
    AxisCancels(n);
    AxisCancels(up);
  }

  /** A pair of opposite keys held together contributes nothing. */
  lemma AxisCancels(v: Vec3)
    ensures Axis(true, true, v) == Axis(false, false, v)
  {
  }

  lemma SameDirectionSameDisplacement(g: Glm, o: Vec3, up: Vec3, i1: Input, i2: Input, step: real)
    requires MoveDirection(g, o, up, i1) == MoveDirection(g, o, up, i2)
    ensures Displacement(g, o, up, i1, step) == Displacement(g, o, up, i2, step)
  {
    DisplacementIsScaledDirection(g, o, up, i1, step);
    DisplacementIsScaledDirection(g, o, up, i2, step);
  }

  predicate NoMoveKeys(input: Input) {
    !input.w && !input.a && !input.s && !input.d && !input.space && !input.leftCtrl
  }

  /** The strafe signs as written: A alone moves along `+StrafeAxis`, D
      alone along `-StrafeAxis`. */
  lemma StrafeSigns(g: Glm, o: Vec3, up: Vec3, input: Input, step: real)
    requires NoMoveKeys(input)
    ensures Displacement(g, o, up, input.(a := true), step) == Scale(step, StrafeAxis(g, o, up))
    ensures Displacement(g, o, up, input.(d := true), step) == Scale(step, Neg(StrafeAxis(g, o, up)))
  {
  }

  /** From the default pose, the strafe axis is `normalize(+x)`, so A moves
      along `normalize(+x)` and D along its negation. */
  lemma DefaultStrafeAxis(g: Glm)
    ensures StrafeAxis(g, DefaultOrientation, DefaultUp) == g.normalize(Vec3(1.0, 0.0, 0.0))
  {
  }

  /** With no movement key held the position does not change, whatever the
      step size. */
  lemma NoKeysNoMove(g: Glm, s: CameraState, input: Input, deltaTime: real)
    requires NoMoveKeys(input)
    ensures NextPosition(g, s, input, deltaTime) == s.position
  {
  }

  // ----------------------------------------------------------------- step size

  /** `adjustedSpeed` is `speed * deltaTime`, doubled exactly when
      LeftShift is held. */
  lemma StepSizeDoubling(speed: real, deltaTime: real)
    ensures StepSize(speed, deltaTime, false) == speed * deltaTime
    ensures StepSize(speed, deltaTime, true) == 2.0 * StepSize(speed, deltaTime, false)
  {
  }

  /** Holding LeftShift doubles the frame's displacement, for the same keys
      and frame time. */
  lemma {:induction false} BoostDoublesDisplacement(g: Glm, o: Vec3, up: Vec3, input: Input,
                                                    speed: real, deltaTime: real)
    ensures Displacement(g, o, up, input, StepSize(speed, deltaTime, true))
         == Scale(2.0, Displacement(g, o, up, input, StepSize(speed, deltaTime, false)))
  {
    var k := speed * deltaTime;
    DisplacementIsScaledDirection(g, o, up, input, k * 2.0);
    DisplacementIsScaledDirection(g, o, up, input, k);
    ScaleTwice(k, MoveDirection(g, o, up, input));
  }

  lemma ScaleTwice(k: real, v: Vec3)
    ensures Scale(k * 2.0, v) == Scale(2.0, Scale(k, v))
  {
    assert k * 2.0 * v.x == 2.0 * (k * v.x);
    assert k * 2.0 * v.y == 2.0 * (k * v.y);
    assert k * 2.0 * v.z == 2.0 * (k * v.z);
  }

  // --------------------------------------------------------------- pitch guard

  /** The guard as written rejects the pitch only when the candidate is
      within 5 degrees of `Up` and more than 5 degrees from `-Up`. */
  lemma GuardRejectsOnlyNearUp(g: Glm, candidate: Vec3, up: Vec3)
    ensures !PitchAccepted(g, candidate, up) <==>
      g.angle(candidate, up) <= Radians(GuardDegrees) && g.angle(candidate, Neg(up)) > Radians(GuardDegrees)
  {
  }

  /** A candidate within 5 degrees of `-Up` is committed. */
  lemma GuardAcceptsNearMinusUp(g: Glm, candidate: Vec3, up: Vec3)
    requires g.angle(candidate, Neg(up)) <= Radians(GuardDegrees)
    ensures PitchAccepted(g, candidate, up)
  {
  }

  /** A pressed frame whose pitch is rejected keeps the old orientation and
      still applies the yaw; one whose pitch is accepted yaws the candidate. */
  lemma GuardThenYaw(g: Glm, s: CameraState, input: Input)
    requires input.rightButton && s.width != 0 && s.height != 0
    ensures var rot := LookOffsets(s, input);
            var candidate := PitchCandidate(g, s.orientation, s.up, rot.0);
            NextOrientation(g, s, input)
              == g.rotate(if PitchAccepted(g, candidate, s.up) then candidate else s.orientation,
                          Radians(-rot.1), s.up)
  {
  }

  /** While the right button is released, `Inputs` leaves the orientation
      alone, sets the cursor mode to normal, writes no cursor position, and
      arms `firstClick`. */
  lemma ReleasedFrame(g: Glm, s: CameraState, input: Input, deltaTime: real)
    requires !input.rightButton
    ensures InputsState(g, s, input, deltaTime).orientation == s.orientation
    ensures InputsState(g, s, input, deltaTime).firstClick
    ensures FrameEffects(s, input) == Effects(CursorNormal, [])
  {
  }

  /** A pressed frame disables the cursor, writes the centre once more when
      `firstClick` was set, and always ends with the centre written. */
  lemma PressedFrame(g: Glm, s: CameraState, input: Input, deltaTime: real)
    requires input.rightButton && s.width != 0 && s.height != 0
    ensures !InputsState(g, s, input, deltaTime).firstClick
    ensures var c := Center(s.width, s.height);
            FrameEffects(s, input) == Effects(CursorDisabled, if s.firstClick then [c, c] else [c])
  {
  }

  // ----------------------------------------------------------- sequences of calls

  /** After any sequence of calls, the latch holds the shift state of the
      last `Inputs` call and `firstClick` is set exactly when that call had
      the right button released (both unchanged if there was none). */
  lemma {:induction false} RunTracksLastInput(g: Glm, s: CameraState, ops: seq<Op>)
    requires AllAdmissible(s.width, s.height, ops)
    ensures Run(g, s, ops).speedMultiplied ==
      (match LastInput(ops) case None => s.speedMultiplied case Some(i) => i.leftShift)
    ensures Run(g, s, ops).firstClick ==
      (match LastInput(ops) case None => s.firstClick case Some(i) => !i.rightButton)
    decreases |ops|
  {
    if ops != [] {
      RunTracksLastInput(g, Apply(g, s, ops[0]), ops[1..]);
    }
  }

  /** The latch never influences anything else: starting from the latch set
      or clear gives the same camera after any sequence of calls, up to the
      latch itself. In particular the doubling it guards never reaches the
      position. */
  lemma {:induction false} LatchIsInert(g: Glm, s: CameraState, ops: seq<Op>, latch: bool)
    requires AllAdmissible(s.width, s.height, ops)
    ensures Run(g, s.(speedMultiplied := latch), ops).(speedMultiplied := false)
         == Run(g, s, ops).(speedMultiplied := false)
    decreases |ops|
  {
    if ops != [] {
      var s1 := Apply(g, s, ops[0]);
      var t1 := Apply(g, s.(speedMultiplied := latch), ops[0]);
      assert t1 == s1.(speedMultiplied := t1.speedMultiplied);
      LatchIsInert(g, s1, ops[1..], t1.speedMultiplied);
    }
  }

  /** `speedMultiplier` is never read: its value does not affect any other
      field after any sequence of calls (and it never changes, by `Run`'s
      contract). */
  lemma {:induction false} SpeedMultiplierIsInert(g: Glm, s: CameraState, ops: seq<Op>, m: real)
    requires AllAdmissible(s.width, s.height, ops)
    ensures Run(g, s.(speedMultiplier := m), ops) == Run(g, s, ops).(speedMultiplier := m)
    decreases |ops|
  {
    if ops != [] {
      var s1 := Apply(g, s, ops[0]);
      assert Apply(g, s.(speedMultiplier := m), ops[0]) == s1.(speedMultiplier := m);
      SpeedMultiplierIsInert(g, s1, ops[1..], m);
    }
  }

  predicate NoUpdateMatrix(ops: seq<Op>) {
    forall op | op in ops :: !op.UpdateMatrix?
  }

  /** `cameraMatrix` changes only through `updateMatrix`. */
  lemma {:induction false} MatrixChangesOnlyThroughUpdate(g: Glm, s: CameraState, ops: seq<Op>)
    requires AllAdmissible(s.width, s.height, ops)
    requires NoUpdateMatrix(ops)
    ensures Run(g, s, ops).cameraMatrix == s.cameraMatrix
    decreases |ops|
  {
    if ops != [] {
      assert ops[0] in ops;
      MatrixChangesOnlyThroughUpdate(g, Apply(g, s, ops[0]), ops[1..]);
    }
  }

  /** A new camera's matrix stays the identity until `updateMatrix` is
      first called. */
  lemma MatrixIsIdentityBeforeFirstUpdate(g: Glm, width: int, height: int, position: Vec3, ops: seq<Op>)
    requires AllAdmissible(width, height, ops)
    requires NoUpdateMatrix(ops)
    ensures Run(g, InitialState(width, height, position), ops).cameraMatrix == Identity
  {
    MatrixChangesOnlyThroughUpdate(g, InitialState(width, height, position), ops);
  }

  predicate NoLook(ops: seq<Op>) {
    forall op | op in ops :: op.Inputs? ==> !op.input.rightButton
  }

  /** Without a frame that holds the right button the orientation never
      changes. */
  lemma {:induction false} OrientationChangesOnlyWhileLooking(g: Glm, s: CameraState, ops: seq<Op>)
    requires AllAdmissible(s.width, s.height, ops)
    requires NoLook(ops)
    ensures Run(g, s, ops).orientation == s.orientation
    decreases |ops|
  {
    if ops != [] {
      assert ops[0] in ops;
      OrientationChangesOnlyWhileLooking(g, Apply(g, s, ops[0]), ops[1..]);
    }
  }

  /** The first pressed frame after a released one, or after construction,
      reads the cursor at the centre it has just written: its pitch and yaw
      amounts are zero, and it writes the centre twice. */
  lemma ReactivationFrameIsStill(g: Glm, s: CameraState, ops: seq<Op>, input: Input)
    requires AllAdmissible(s.width, s.height, ops)
    requires input.rightButton && s.width != 0 && s.height != 0
    requires match LastInput(ops) case None => s.firstClick case Some(i) => !i.rightButton
    ensures LookOffsets(Run(g, s, ops), input) == (0.0, 0.0)
    ensures var c := Center(s.width, s.height);
            FrameEffects(Run(g, s, ops), input).cursorWrites == [c, c]
  {
    RunTracksLastInput(g, s, ops);
  }

  /** When a zero-angle `rotate` is the identity, the first pressed frame
      after a released one keeps the orientation: the pitch candidate is the
      old orientation, whichever way the guard decides, and the yaw is by
      zero. */
  lemma ReactivationFrameKeepsOrientation(g: Glm, s: CameraState, ops: seq<Op>, input: Input)
    requires AllAdmissible(s.width, s.height, ops)
    requires input.rightButton && s.width != 0 && s.height != 0
    requires match LastInput(ops) case None => s.firstClick case Some(i) => !i.rightButton
    requires forall v: Vec3, a: Vec3 :: g.rotate(v, 0.0, a) == v
    ensures NextOrientation(g, Run(g, s, ops), input) == Run(g, s, ops).orientation
  {
    ReactivationFrameIsStill(g, s, ops, input);
  }

  /** No `Inputs` call in `ops` held the right button, then the last one (if
      any) released it. */
  lemma {:induction false} NoLookLastInputReleased(ops: seq<Op>)
    requires NoLook(ops)
    ensures match LastInput(ops) case None => true case Some(i) => !i.rightButton
    decreases |ops|
  {
    if ops != [] {
      assert ops[0] in ops;
      assert forall op | op in ops[1..] :: op in ops;
      NoLookLastInputReleased(ops[1..]);
    }
  }

  /** A new camera's first pressed frame applies no rotation amount. */
  lemma FirstPressAfterConstructionIsStill(g: Glm, width: int, height: int, position: Vec3,
                                           ops: seq<Op>, input: Input)
    requires AllAdmissible(width, height, ops)
    requires NoLook(ops)
    requires input.rightButton && width != 0 && height != 0
    ensures LookOffsets(Run(g, InitialState(width, height, position), ops), input) == (0.0, 0.0)
  {
    NoLookLastInputReleased(ops);
    ReactivationFrameIsStill(g, InitialState(width, height, position), ops, input);
  }

  // ------------------------------------------------------------------- matrix

  /** `updateMatrix` is idempotent, and reads only the pose, the size and
      its arguments. */
  lemma UpdateMatrixIdempotent(g: Glm, s: CameraState, fovDeg: real, nearPlane: real, farPlane: real)
    requires s.height != 0
    ensures var op := Op.UpdateMatrix(fovDeg, nearPlane, farPlane);
            Apply(g, Apply(g, s, op), op) == Apply(g, s, op)
  {
  }

  /** The projection sees the size only through the aspect ratio
      `width / height`: scaling both by the same positive factor gives the
      same matrix. */
  lemma {:induction false} MatrixDependsOnAspectOnly(g: Glm, position: Vec3, orientation: Vec3, up: Vec3,
                                   width: int, height: int, k: int,
                                   fovDeg: real, nearPlane: real, farPlane: real)
    requires height != 0 && k > 0
    ensures ViewProjection(g, position, orientation, up, k * width, k * height, fovDeg, nearPlane, farPlane)
         == ViewProjection(g, position, orientation, up, width, height, fovDeg, nearPlane, farPlane)
  {
    var kr, wr, hr := k as real, width as real, height as real;
    assert (k * width) as real == kr * wr;
    assert (k * height) as real == kr * hr;
    assert (kr * wr) / (kr * hr) == wr / hr;
  }

  /** An idle frame (no key, right button released) leaves the pose, and so
      the matrix `updateMatrix` would compute, unchanged. */
  lemma IdleFrameKeepsView(g: Glm, s: CameraState, input: Input, deltaTime: real,
                           fovDeg: real, nearPlane: real, farPlane: real)
    requires NoMoveKeys(input) && !input.rightButton && s.height != 0
    ensures ViewProjection(g, InputsState(g, s, input, deltaTime).position,
                           InputsState(g, s, input, deltaTime).orientation,
                           s.up, s.width, s.height, fovDeg, nearPlane, farPlane)
         == ViewProjection(g, s.position, s.orientation, s.up, s.width, s.height, fovDeg, nearPlane, farPlane)
  {
  }
}
