/** The `Camera` class: its public fields, the function-static latch of
    `Inputs` made a field, and its methods, each proved to agree with the
    value-level model in CameraSpec. */
module CameraClass {
  import opened Geometry
  import opened CameraSpec

  class Camera {
    var Position: Vec3
    var Orientation: Vec3
    var Up: Vec3
    var cameraMatrix: Mat4
    var firstClick: bool
    var width: int
    var height: int
    var speed: real
    var sensitivity: real
    var speedMultiplier: real
    /** The `static bool speedMultiplied` local of `Inputs`. */
    var speedMultiplied: bool

    /** The fields as a value. */
    function State(): CameraState
      reads this
    {
      CameraState(Position, Orientation, Up, cameraMatrix, firstClick, width, height,
                  speed, sensitivity, speedMultiplier, speedMultiplied)
    }

    constructor (width: int, height: int, position: Vec3)
      ensures State() == InitialState(width, height, position)
      ensures this.width == width && this.height == height && Position == position
      ensures Orientation == DefaultOrientation && Up == DefaultUp && cameraMatrix == Identity
      ensures firstClick && !speedMultiplied
      ensures speed == DefaultSpeed && sensitivity == DefaultSensitivity
      ensures speedMultiplier == DefaultSpeedMultiplier
    {
      Orientation := DefaultOrientation;
      Up := DefaultUp;
      cameraMatrix := Identity;
      firstClick := true;
      speed := DefaultSpeed;
      sensitivity := DefaultSensitivity;
      speedMultiplier := DefaultSpeedMultiplier;
      speedMultiplied := false;
      this.width := width;
      this.height := height;
      Position := position;
    }

    /** `setSpeed`: changes `speed` and nothing else. */
    method SetSpeed(newSpeed: real)
      modifies this`speed
      ensures speed == newSpeed
      ensures State() == old(State()).(speed := newSpeed)
      ensures forall g: Glm :: State() == Apply(g, old(State()), Op.SetSpeed(newSpeed))
    {
      speed := newSpeed;
    }

    /** `updateMatrix`: sets `cameraMatrix` to the projection times the view
        and changes nothing else. */
    method UpdateMatrix(g: Glm, FOVdeg: real, nearPlane: real, farPlane: real)
      requires height != 0
      modifies this`cameraMatrix
      ensures cameraMatrix == ViewProjection(g, Position, Orientation, Up, width, height,
                                             FOVdeg, nearPlane, farPlane)
      ensures State() == Apply(g, old(State()), Op.UpdateMatrix(FOVdeg, nearPlane, farPlane))
    {
      var view := Identity;
      var projection := Identity;
      view := g.lookAt(Position, Add(Position, Orientation), Up);
      projection := g.perspective(Radians(FOVdeg), width as real / height as real, nearPlane, farPlane);
      cameraMatrix := MatMul(projection, view);
    }

    /** `Inputs`: one frame of keyboard translation, the shift latch, and
        mouse-look while the right button is held. Returns the GLFW effects
        of the call. The translation and the mouse-look are the helper
        methods below, called in the order the statements run. */
    method Inputs(g: Glm, input: Input, deltaTime: real) returns (fx: Effects)
      requires input.rightButton ==> width != 0 && height != 0
      modifies this
      ensures Position == NextPosition(g, old(State()), input, deltaTime)
      ensures Orientation == NextOrientation(g, old(State()), input)
      ensures State() == Apply(g, old(State()), Op.Inputs(input, deltaTime))
      ensures fx == FrameEffects(old(State()), input)
    {
      var baseSpeed := speed * deltaTime;
      var adjustedSpeed := if input.leftShift then baseSpeed * 2.0 else baseSpeed;
      assert adjustedSpeed == StepSize(speed, deltaTime, input.leftShift);

      ghost var before := State();
      Translate(g, input, adjustedSpeed);
      assert Position == NextPosition(g, before, input, deltaTime);

      var shiftPressed := input.leftShift;
      adjustedSpeed := ShiftLatch(shiftPressed, adjustedSpeed);

      ghost var beforeLook := State();
      assert beforeLook == before.(position := Position, speedMultiplied := speedMultiplied);
      LookIgnoresPositionAndLatch(g, before, input, Position, speedMultiplied);
      fx := MouseLook(g, input);
    }

    /** The shift handling of `Inputs` after the translation: the latch is
        set when shift is held and it was clear (the step size is doubled
        then, after every translation is done) and cleared when shift is
        released and it was set. Returns the step size as it leaves. */
    method ShiftLatch(shiftPressed: bool, adjustedSpeed: real) returns (speedAfter: real)
      modifies this`speedMultiplied
      ensures speedMultiplied == NextLatch(old(speedMultiplied), shiftPressed)
      ensures speedAfter == if shiftPressed && !old(speedMultiplied) then adjustedSpeed * 2.0 else adjustedSpeed
    {
      speedAfter := adjustedSpeed;
      if shiftPressed && !speedMultiplied {
        speedAfter := speedAfter * 2.0;
        speedMultiplied := true;
      } else if !shiftPressed && speedMultiplied {
        speedMultiplied := false;
      }
    }

    /** The six key tests of `Inputs`: each held key moves `Position` by
        `adjustedSpeed` along its direction, in turn. */
    method Translate(g: Glm, input: Input, adjustedSpeed: real)
      modifies this`Position
      ensures Position == Add(old(Position), Displacement(g, Orientation, Up, input, adjustedSpeed))
    {
      // Position == start + moved after each key
      ghost var start, o, up := Position, Orientation, Up;
      ghost var n := StrafeAxis(g, o, up);
      ghost var moved := Zero;
      if input.w {
        AddAssociative(start, moved, Scale(adjustedSpeed, o));
        Position := Add(Position, Scale(adjustedSpeed, Orientation));
      }
      moved := AddIf(input.w, moved, Scale(adjustedSpeed, o));
      assert Position == Add(start, moved);
      if input.a {
        AddAssociative(start, moved, Scale(adjustedSpeed, n));
        SubScaled(Position, adjustedSpeed, n);
        Position := Sub(Position, Scale(adjustedSpeed, Neg(g.normalize(Cross(Orientation, Up)))));
      }
      moved := AddIf(input.a, moved, Scale(adjustedSpeed, n));
      assert Position == Add(start, moved);
      if input.s {
        AddAssociative(start, moved, Scale(adjustedSpeed, Neg(o)));
        Position := Add(Position, Scale(adjustedSpeed, Neg(Orientation)));
      }
      moved := AddIf(input.s, moved, Scale(adjustedSpeed, Neg(o)));
      assert Position == Add(start, moved);
      if input.d {
        AddAssociative(start, moved, Scale(adjustedSpeed, Neg(n)));
        SubScaled(Position, adjustedSpeed, n);
        Position := Sub(Position, Scale(adjustedSpeed, g.normalize(Cross(Orientation, Up))));
      }
      moved := AddIf(input.d, moved, Scale(adjustedSpeed, Neg(n)));
      assert Position == Add(start, moved);
      if input.space {
        AddAssociative(start, moved, Scale(adjustedSpeed, up));
        Position := Add(Position, Scale(adjustedSpeed, Up));
      }
      moved := AddIf(input.space, moved, Scale(adjustedSpeed, up));
      assert Position == Add(start, moved);
      if input.leftCtrl {
        AddAssociative(start, moved, Scale(adjustedSpeed, Neg(up)));
        Position := Add(Position, Scale(adjustedSpeed, Neg(Up)));
      }
      moved := AddIf(input.leftCtrl, moved, Scale(adjustedSpeed, Neg(up)));
      assert Position == Add(start, moved);
    }

    /** The right-button part of `Inputs`: mouse-look while it is held,
        release of the cursor otherwise. */
    method MouseLook(g: Glm, input: Input) returns (fx: Effects)
      requires input.rightButton ==> width != 0 && height != 0
      modifies this`Orientation, this`firstClick
      ensures Orientation == NextOrientation(g, old(State()), input)
      ensures firstClick == !input.rightButton
      ensures fx == FrameEffects(old(State()), input)
    {
      // the GLFW cursor, as `glfwGetCursorPos` would report it
      var cursor := input.cursor;
      var writes: seq<Point2> := [];
      var mode: CursorMode;
      if input.rightButton {
        mode := CursorDisabled;
        var center := Point2(HalfTowardZero(width) as real, HalfTowardZero(height) as real);
        if firstClick {
          cursor := center;
          writes := writes + [center];
          firstClick := false;
        }

        var mouse := cursor;
        assert mouse == CursorRead(old(State()), input);
        var rotX := Offset(sensitivity, mouse.y, height);
        var rotY := Offset(-sensitivity, mouse.x, width);

        var newOrientation := g.rotate(Orientation, Radians(-rotX), g.normalize(Cross(Orientation, Up)));
        if !(g.angle(newOrientation, Up) <= Radians(5.0)) || g.angle(newOrientation, Neg(Up)) <= Radians(5.0) {
          Orientation := newOrientation;
        }
        Orientation := g.rotate(Orientation, Radians(-rotY), Up);

        cursor := center;
        writes := writes + [center];
      } else {
        mode := CursorNormal;
        firstClick := true;
      }
      fx := Effects(mode, writes);
    }
  }
}
