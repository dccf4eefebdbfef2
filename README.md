# PhotonWeaver camera, modelled in Dafny

PhotonWeaver is a small OpenGL renderer. This project models its `Camera`
class, a fly-through camera driven by keyboard and mouse. The live program
does not use the class: `main.cpp` sends its own camera position, direction
and up vectors to the shader. The only code that constructs a `Camera` and
calls `Inputs` and `updateMatrix` is the commented-out world file. The model
covers:

- the public fields and their defaults, from `Camera.h`;
- the constructor;
- `setSpeed`;
- `updateMatrix`, which builds the view-projection matrix;
- `Inputs`, the per-frame step. It covers keyboard translation, the
  LeftShift boost and its `static` latch, and right-mouse-button mouse-look
  with the pitch guard and the yaw.

It is split into four modules.

- **Geometry** (`geometry.dfy`) holds the values the camera works with:
  - `Vec3` is a `glm::vec3` over exact reals, with addition, negation,
    scaling and the concrete `glm::cross`.
  - `Mat4` holds four rows of four reals, with the identity and the matrix
    product.
  - `Radians` is `glm::radians`, using GLM's own factor.
  - `Glm` is a record of caller-supplied total functions. They stand for
    `glm::normalize`, `glm::rotate`, `glm::angle`, `glm::lookAt` and
    `glm::perspective`, whose internals are not modelled. Every property
    below therefore holds whatever those functions compute.
- **CameraSpec** (`camera_spec.dfy`) is the camera as a value:
  - `CameraState` is the field set, plus the latch.
  - `Input` is one frame's GLFW poll: the seven keys, the right button, and
    the cursor position.
  - `Effects` is what the frame does to GLFW: the cursor mode set and the
    cursor positions written.
  - `Apply` gives the new state for one method call. `Run` gives it for a
    sequence of calls.
- **CameraClass** (`camera.dfy`) is the `Camera` class itself. Its fields
  are updated in place, in the source's order of statements. Each public
  method (`SetSpeed`, `UpdateMatrix`, `Inputs`) is proved to leave `State()`
  equal to `Apply` of the old state. The helpers of `Inputs` state the
  fields they change.
- **CameraProperties** (`camera_props.dfy`) proves the properties the code
  promises. It covers how the translation terms compose, the boost, the
  strafe signs, and the pitch guard as written. It also covers the
  mouse-look state machine, and what a whole sequence of calls can and
  cannot change.

Several quirks of the code are kept exactly as written:

- A moves along `+normalize(cross(Orientation, Up))` and D along its
  negation (`Camera.cpp:51-62`).
- In the pitch guard (`Camera.cpp:105`), the `!` applies only to the first
  comparison. A candidate within 5 degrees of `-Up` is therefore accepted.
- The latch doubles `adjustedSpeed` only after every translation is done, so
  the doubling never reaches `Position`.
- On the first pressed frame the cursor is moved to the centre before it is
  read, so that frame's pitch and yaw angles are zero. If a zero-angle
  rotation is the identity, the orientation is then unchanged.

## Behaviour worth noting

- The yaw turns about the camera's `Up` field, not about a separate world
  axis. `Up` itself never changes.
- The pitch guard rejects a candidate only when it is within 5 degrees of
  `Up` and not within 5 degrees of `-Up`. A candidate near `-Up` is
  accepted.
- The mouse-look amounts are scaled by `sensitivity` and the window size
  only, not by `deltaTime`.
- The strafe signs are as listed above.

## Model

| member | source | states |
|---|---|---|
| CameraClass.Camera.constructor | PhotonWeaver/src/Camera.cpp:4-9 | stores `width`, `height` and `Position`; every other field takes its declared default (`Orientation` (0,0,-1), `Up` (0,1,0), identity matrix, `firstClick` true, speed 0.1, sensitivity 100, multiplier 1), and the latch starts false; `State()` is `InitialState` |
| CameraSpec.InitialState | PhotonWeaver/src/Camera.h:11-22 | the field defaults of a new camera |
| CameraClass.Camera.SetSpeed | PhotonWeaver/src/Camera.cpp:32-35 | `speed` becomes the argument and every other field is unchanged |
| CameraClass.Camera.UpdateMatrix | PhotonWeaver/src/Camera.cpp:11-24 | `cameraMatrix` becomes `perspective(radians(FOVdeg), width/height, near, far) * lookAt(Position, Position + Orientation, Up)`; nothing else changes |
| CameraClass.Camera.Inputs | PhotonWeaver/src/Camera.cpp:37-119 | the new position is `NextPosition` and the new orientation `NextOrientation` of the old state; the whole new state is `Apply` of the old one; the GLFW effects are `FrameEffects` |
| CameraClass.Camera.Translate | PhotonWeaver/src/Camera.cpp:47-70 | the six conditional `+=`/`-=` together move `Position` by `Displacement` of the held keys, with the orientation read before the moves |
| CameraClass.Camera.ShiftLatch | PhotonWeaver/src/Camera.cpp:72-84 | the latch becomes `NextLatch` of its old value; the step size is doubled exactly when shift is held and the latch was clear |
| CameraClass.Camera.MouseLook | PhotonWeaver/src/Camera.cpp:86-118 | the orientation becomes `NextOrientation`; `firstClick` ends as the negation of the right button; the cursor mode and the writes are `FrameEffects` |
| CameraSpec.HalfTowardZero | PhotonWeaver/src/Camera.cpp:92 | C++ `int / 2`: the remainder is in -1..1 and has the sign of the dividend |
| CameraSpec.NextLatch | PhotonWeaver/src/Camera.cpp:72-84 | after a frame the latch equals whether shift is held |
| CameraSpec.Offset | PhotonWeaver/src/Camera.cpp:100-101 | a look amount is zero when the cursor coordinate is at the centre `size / 2` |
| CameraSpec.LookOffsets | PhotonWeaver/src/Camera.cpp:96-101 | `(rotX, rotY)` are both zero on a frame with `firstClick` set, and whenever the cursor is at the centre |
| CameraSpec.FrameEffects | PhotonWeaver/src/Camera.cpp:86-118 | the cursor is disabled exactly when the right button is held; released frames write nothing; pressed frames end with the centre written; the centre is written twice exactly on a pressed frame with `firstClick` set and once on any other pressed frame; every write is the centre |
| CameraSpec.Apply | PhotonWeaver/src/Camera.cpp:11-119 | no call changes `Up`, the size, `sensitivity` or `speedMultiplier`; only `updateMatrix` changes the matrix; only `setSpeed` changes `speed`; only `Inputs` changes the position, orientation, `firstClick` and the latch |
| CameraSpec.Run | PhotonWeaver/src/Camera.h:13-22 | after any sequence of calls `Up`, the size, `sensitivity` and `speedMultiplier` are as they started |
| CameraSpec.LookIgnoresPositionAndLatch | PhotonWeaver/src/Camera.cpp:86-113 | the mouse-look reads neither `Position` nor the latch, so the translation before it does not change the orientation it computes |
| CameraSpec.StepSize | PhotonWeaver/src/Camera.cpp:40-43 | `adjustedSpeed` is `speed * deltaTime`, and twice that when LeftShift is held |
| CameraSpec.StrafeAxis | PhotonWeaver/src/Camera.cpp:53-61 | the strafe axis `normalize(cross(Orientation, Up))` is also `normalize(-cross(Up, Orientation))` |
| CameraSpec.Displacement | PhotonWeaver/src/Camera.cpp:47-70 | the six conditional moves, added in the order the keys are tested; with no movement key held the displacement is zero |
| CameraSpec.NextPosition | PhotonWeaver/src/Camera.cpp:40-70 | the new position minus the old is the displacement at the step size fixed before the latch; with no movement key held the position is unchanged |
| CameraSpec.Center | PhotonWeaver/src/Camera.cpp:92 | the re-centring point `(width / 2, height / 2)` lies inside the window for non-negative sizes |
| CameraSpec.CursorRead | PhotonWeaver/src/Camera.cpp:90-98 | the cursor read is the centre on a frame with `firstClick` set (it was just written) and the polled position otherwise |
| CameraSpec.PitchCandidate | PhotonWeaver/src/Camera.cpp:103 | the pitch candidate is `rotate(Orientation, radians(-rotX), strafe axis)`; a zero `rotX` gives a rotation by a zero angle |
| CameraSpec.PitchAccepted | PhotonWeaver/src/Camera.cpp:105 | the guard as written, with `!` on the first comparison: a candidate is accepted when it is more than 5 degrees from `Up` or within 5 degrees of `-Up`; a rejected candidate is within 5 degrees of `Up` |
| CameraSpec.NextOrientation | PhotonWeaver/src/Camera.cpp:86-110 | the orientation after a frame: unchanged while the right button is released, otherwise the guarded pitch followed by the yaw about `Up` |
| CameraSpec.InputsState | PhotonWeaver/src/Camera.cpp:37-119 | one `Inputs` frame changes only the position, the orientation, `firstClick` (which becomes the negation of the right button) and the latch (which becomes the shift state) |
| CameraSpec.ViewProjection | PhotonWeaver/src/Camera.cpp:18-23 | `perspective(radians(fov), width / height, near, far) * lookAt(P, P + O, Up)`; when the projection is the identity the matrix is the view alone |
| Geometry.Cross | PhotonWeaver/src/Camera.cpp:53 | `glm::cross` computed exactly; the cross product of a vector with itself, or with zero, is zero |
| Geometry.MatMul | PhotonWeaver/src/Camera.cpp:23 | the 4x4 matrix product; the identity (`glm::mat4(1.0f)`, Camera.h:14 and Camera.cpp:14-15) is a unit on both sides |
| Geometry.Radians | PhotonWeaver/src/Camera.cpp:20 | `glm::radians` keeps zero at zero and keeps the sign of positive angles |
| CameraProperties.DisplacementIsScaledDirection | PhotonWeaver/src/Camera.cpp:47-70 | the displacement is `adjustedSpeed` times the plain sum of the held directions (W `+O`, S `-O`, A `+n`, D `-n`, Space `+Up`, Ctrl `-Up`), not re-normalised |
| CameraProperties.OpposingKeysCancel | PhotonWeaver/src/Camera.cpp:47-70 | holding W with S, A with D, or Space with LeftCtrl moves exactly as holding neither key of the pair |
| CameraProperties.MoveDirectionCancels | PhotonWeaver/src/Camera.cpp:47-70 | the same cancellation, stated on the direction sum |
| CameraProperties.StrafeSigns | PhotonWeaver/src/Camera.cpp:51-62 | A alone moves by `step * normalize(cross(O, Up))`; D alone moves by `step` times its negation |
| CameraProperties.DefaultStrafeAxis | PhotonWeaver/src/Camera.h:12-13 | from the default pose the strafe axis is `normalize((1,0,0))` |
| CameraProperties.NoKeysNoMove | PhotonWeaver/src/Camera.cpp:47-70 | with no movement key held the position is unchanged |
| CameraProperties.StepSizeDoubling | PhotonWeaver/src/Camera.cpp:40-43 | the step size is `speed * deltaTime`, and twice that with LeftShift held |
| CameraProperties.BoostDoublesDisplacement | PhotonWeaver/src/Camera.cpp:40-70 | with the same keys and frame time, LeftShift exactly doubles the frame's displacement |
| CameraProperties.GuardRejectsOnlyNearUp | PhotonWeaver/src/Camera.cpp:105 | the guard rejects the pitch if and only if the candidate is within 5 degrees of `Up` and more than 5 degrees from `-Up` |
| CameraProperties.GuardAcceptsNearMinusUp | PhotonWeaver/src/Camera.cpp:105 | a candidate within 5 degrees of `-Up` is committed |
| CameraProperties.GuardThenYaw | PhotonWeaver/src/Camera.cpp:103-110 | a pressed frame yaws about `Up` either the pitched candidate, if the guard accepts it, or the old orientation |
| CameraProperties.ReleasedFrame | PhotonWeaver/src/Camera.cpp:114-118 | a released frame keeps the orientation, arms `firstClick`, sets the cursor to normal and writes no cursor position |
| CameraProperties.PressedFrame | PhotonWeaver/src/Camera.cpp:86-112 | a pressed frame clears `firstClick`, disables the cursor, and writes the centre twice if `firstClick` was set and once otherwise |
| CameraProperties.RunTracksLastInput | PhotonWeaver/src/Camera.cpp:45-118 | after any sequence of calls the latch is the shift state of the last `Inputs` call, and `firstClick` is set exactly when that call had the button released (both unchanged if there was none) |
| CameraProperties.LatchIsInert | PhotonWeaver/src/Camera.cpp:72-84 | starting from the latch set or clear gives the same camera after any sequence of calls, apart from the latch itself: its doubling never reaches the position |
| CameraProperties.SpeedMultiplierIsInert | PhotonWeaver/src/Camera.h:22 | `speedMultiplier` has no influence on any other field after any sequence of calls |
| CameraProperties.MatrixChangesOnlyThroughUpdate | PhotonWeaver/src/Camera.cpp:23 | a sequence of calls without `updateMatrix` leaves `cameraMatrix` unchanged |
| CameraProperties.MatrixIsIdentityBeforeFirstUpdate | PhotonWeaver/src/Camera.h:14 | a new camera's matrix is the identity until `updateMatrix` is first called |
| CameraProperties.OrientationChangesOnlyWhileLooking | PhotonWeaver/src/Camera.cpp:86-118 | a sequence of calls none of which holds the right button leaves the orientation unchanged |
| CameraProperties.ReactivationFrameIsStill | PhotonWeaver/src/Camera.cpp:90-118 | the first pressed frame after a released one has zero pitch and yaw angles and writes the centre twice |
| CameraProperties.ReactivationFrameKeepsOrientation | PhotonWeaver/src/Camera.cpp:90-110 | when `rotate` by a zero angle is the identity, the first pressed frame after a released one leaves the orientation unchanged, whatever the guard decides |
| CameraProperties.NoLookLastInputReleased | PhotonWeaver/src/Camera.cpp:114-118 | if no call held the right button, the last `Inputs` call, if any, had it released |
| CameraProperties.FirstPressAfterConstructionIsStill | PhotonWeaver/src/Camera.h:16 | a new camera's first pressed frame has zero pitch and yaw angles, whatever button-free calls came before it |
| CameraProperties.UpdateMatrixIdempotent | PhotonWeaver/src/Camera.cpp:11-24 | calling `updateMatrix` twice with the same arguments gives the same camera as calling it once |
| CameraProperties.MatrixDependsOnAspectOnly | PhotonWeaver/src/Camera.cpp:20 | scaling width and height by the same positive factor gives the same matrix |
| CameraProperties.IdleFrameKeepsView | PhotonWeaver/src/Camera.cpp:37-119 | a frame with no key and the button released leaves the matrix `updateMatrix` would compute unchanged |

## Left out

- `Camera::Matrix` only uploads the matrix to a shader uniform through OpenGL. It changes no camera state.
- GLFW is not called. Each frame's key, button and cursor state is the `Input` parameter. The cursor-mode change and the cursor writes are returned as `Effects`. A cursor read after the camera writes it is modelled as returning the position just written.
- The internals of `glm::normalize`, `rotate`, `angle`, `lookAt` and `perspective` are floating-point square roots and trigonometry in a library outside this model. They are kept abstract, so properties that need them are not proved. This includes unit length of `Orientation` and the guard keeping `Orientation` away from the poles.
- `float` and `double` rounding is not modelled. Arithmetic is over exact reals, and the `float` casts are identities.
- The model has no IEEE infinities or NaNs. `UpdateMatrix` requires a nonzero `height`, since it divides by it. `Inputs` and `MouseLook` require a nonzero `width` and `height` when the right button is held, since they divide by both.
- `speedMultiplied` is a function-local `static` in the code, so all cameras share it. The model gives each camera its own latch. No live code creates a camera, and the commented-out world code creates one.
- `Inputs` is split into `Translate`, `ShiftLatch` and `MouseLook`, which run in the code's order. The doubled step size that `ShiftLatch` returns is dropped, as the code drops it.
- The window, shader and draw loop (`main.cpp`), the buffer wrappers and the precompiled header are not part of this model: they are OpenGL and GLFW I/O with no camera logic. The world file is entirely commented out.
