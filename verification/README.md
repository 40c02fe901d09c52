# First-person camera controller of CoreEngine, in Dafny

This project models `FPCamera`, the first-person controller of the CoreEngine game engine:
its constructor and its per-frame `onUpdate`. Stripped of physics, input, audio and
rendering calls, one tick is a pure function

    Step(numerics, controller, input) -> Tick(controller', body commands, listener values)

The controller state is the camera (position, yaw, pitch), the latched `spacePressed`
jump debounce bit, the `walking`/`sprinting` flags and the `move` vector. The input is one
snapshot per tick: the set of held key codes, the mouse delta, the frame time and the origin
of the rigid body's transform. The output is the next state, the calls made on the rigid
body (velocity override, central force), and the position and orientation handed to the
audio listener.

Floats are modelled as `real`. The transcendental functions are uninterpreted fields of a
`Numerics` value: `halfPow(t)` stands for `exp(log(0.5) * t)`, `cosDeg`/`sinDeg` for
`Math.cos`/`Math.sin` of `Math.toRadians`, and `viewRay` for the camera's view ray after
`updateViewMatrix`. No proof depends on their values. Where a proof needs trigonometric
identities or the value 0.5^0 = 1, the lemma takes them as a hypothesis.

Files:
- `vectors.dfy` (module `Vectors`): the `Vec3` value type.
- `settings.dfy` (module `Settings`): the configuration values the constructor reads, and the pitch interval.
- `last_write.dfy` (module `LastWrite`): a chain of conditional assignments and its reference meaning.
- `fp_camera.dfy` (module `FPCamera`): the state, the constructor `Spawn`, the tick `Step` and its parts.
- `properties.dfy` (module `Properties`): properties of single ticks and of the pitch clamp and force.
- `runs.dfy` (module `Runs`): runs of many ticks, covering the jump debounce, the run invariants and yaw accumulation.

Behaviour kept as the code has it:
- Axis selection is last-write-wins. On each axis the second key checked (right, backward)
  overrides the first (left, forward). Opposite keys held together do not cancel. Two bindings
  that share a key code behave the same way, because keys are modelled by code.
- `walking` is `speedx != 0 || speedz != 0`. With a configured speed of zero, holding a
  direction key therefore does not make the player walk.
- The smoothing factor depends only on the frame time. Two ticks with the same mouse delta
  and frame time turn the camera by the same amount (`Runs.SameDeltaSameTurn`).
- The velocity override is `move` with its `y` set to the jump power. It equals
  (0, jumpPower, 0) only because `move` is zero between ticks. The model keeps `move` in the
  state and proves this as a run invariant (`Runs.PureJumps`).
- The pitch clamp checks the lower bound first. With a misconfigured interval
  (`minPitch > maxPitch`) the result lies outside the interval (`Properties.ClampMisconfigured`).

## Model

| member | source | states |
|---|---|---|
| FPCamera.Spawn | src/main/java/de/coreengine/system/gameObjects/FPCamera.java:103-118 | The camera starts at the spawn point with yaw and pitch 0, no latched jump, flags off and `move` zero. The body is created as a non-kinematic capsule of the configured mass and size and placed at the same point. It is then, in this order, kept active, damped with (0.999, 1.0), and given angular factor 0. |
| FPCamera.SmoothingFactor | src/main/java/de/coreengine/system/gameObjects/FPCamera.java:143-144 | When 0.5^(springiness·frameTime) lies in [0,1] and the intensiveness is non-negative, the factor lies between 0 and the intensiveness. It is 0 when that power is 1 and is the full intensiveness when the power is 0. |
| FPCamera.ClampPitch | src/main/java/de/coreengine/system/gameObjects/FPCamera.java:148-152 | When minPitch <= maxPitch the result lies in [-maxPitch, -minPitch]. A pitch already in range is kept unchanged. The result is always the input or one of the two bounds. |
| Properties.ClampIsNearest | src/main/java/de/coreengine/system/gameObjects/FPCamera.java:148-152 | When minPitch <= maxPitch, the clamped pitch is a point of the interval nearest to the requested pitch. |
| Properties.ClampIdempotent | src/main/java/de/coreengine/system/gameObjects/FPCamera.java:148-152 | When minPitch <= maxPitch, clamping an already clamped pitch changes nothing. |
| Properties.ClampMonotone | src/main/java/de/coreengine/system/gameObjects/FPCamera.java:148-152 | When minPitch <= maxPitch, the clamp preserves the order of pitches. |
| Properties.ClampMisconfigured | src/main/java/de/coreengine/system/gameObjects/FPCamera.java:148-152 | With minPitch > maxPitch, a pitch below -maxPitch becomes -maxPitch and every other pitch becomes -minPitch. Neither result is in range. |
| LastWrite.Assign | src/main/java/de/coreengine/system/gameObjects/FPCamera.java:158-166 | A chain of conditional assignments yields either the initial value or the value of a statement whose condition holds. |
| LastWrite.AssignIsLastEnabled | src/main/java/de/coreengine/system/gameObjects/FPCamera.java:158-166 | The chain yields the value of the last statement whose condition holds, or the initial value when no condition holds. |
| LastWrite.SecondWins | src/main/java/de/coreengine/system/gameObjects/FPCamera.java:159-162 | In two conditional assignments the second one wins whenever it fires. |
| FPCamera.SelectSpeed | src/main/java/de/coreengine/system/gameObjects/FPCamera.java:155 | The tick's speed is the sprint speed when the sprint key is held and the walk speed when it is not. |
| FPCamera.AxisSpeeds | src/main/java/de/coreengine/system/gameObjects/FPCamera.java:158-166 | speedx is speed if right is held, else -speed if left is held, else 0. speedz is speed if backward is held, else -speed if forward is held, else 0. |
| Properties.OpposingKeysDoNotCancel | src/main/java/de/coreengine/system/gameObjects/FPCamera.java:158-166 | With all four direction keys held, both axis speeds are +speed rather than zero. |
| FPCamera.Jump | src/main/java/de/coreengine/system/gameObjects/FPCamera.java:168-176 | The jump fires exactly when the jump key is held and was not latched. Only then does `move.y` become the jump power. The latch afterwards equals the key state. |
| FPCamera.MoveForce | src/main/java/de/coreengine/system/gameObjects/FPCamera.java:182-190 | The force keeps `move.y`. A pure forward speed is projected by (sin, cos) of -yaw, and a pure strafe speed by (sin, cos) of -yaw+90. |
| Properties.ForceIsRotation | src/main/java/de/coreengine/system/gameObjects/FPCamera.java:182-190 | Given the usual trigonometric identities, the horizontal force has the same length as the speed pair, whatever the yaw. |
| Properties.TickForce | src/main/java/de/coreengine/system/gameObjects/FPCamera.java:155-191 | On a walking tick the one force applied is described from the keys alone: speed chosen by the sprint key, on each axis the later-checked key winning, rotated by the yaw after this tick's turn, with y the jump power on a jump tick and the carried `move.y` otherwise. |
| Properties.ForwardAtYawZero | src/main/java/de/coreengine/system/gameObjects/FPCamera.java:155-191 | With forward alone held, at yaw 0, with no mouse dx, no jump and a non-zero selected speed, the one force applied is (0, 0, -speed). The speed is the sprint speed exactly when the sprint key is held and the walk speed otherwise. |
| FPCamera.TickCommands | src/main/java/de/coreengine/system/gameObjects/FPCamera.java:168-192 | The tick's body calls are one velocity override if the jump fired and one central force if walking, with the override first. |
| FPCamera.Step | src/main/java/de/coreengine/system/gameObjects/FPCamera.java:129-204 | After one tick the camera position is the body's origin and yaw has moved by exactly dx·d (unchanged when dx = 0). The pitch is the clamp of the pitch dy·d asked for: in range when minPitch <= maxPitch, and kept as asked when that is in range. The latch follows the jump key, and an override is issued only on its rising edge. walking holds iff a direction key gives non-zero speed, and sprinting iff walking and sprint held. A force is applied iff walking; it is the last-write-wins axis speeds rotated by the yaw after this tick's turn, with y = jump power on a jump tick. The listener gets the camera position and the view ray with its vertical part dropped. `move` ends zero. |
| Properties.TickPitchIsNearest | src/main/java/de/coreengine/system/gameObjects/FPCamera.java:146-152 | With minPitch <= maxPitch, the pitch a tick leaves is in range and is a point of the interval nearest to the pitch the mouse asked for. |
| Runs.RunKeepsConfig | src/main/java/de/coreengine/system/gameObjects/FPCamera.java:53-75 | The configuration values, final fields of the object, are the same after every tick. |
| Runs.PitchStaysInRange | src/main/java/de/coreengine/system/gameObjects/FPCamera.java:146-152 | When minPitch <= maxPitch, after every tick of any run the pitch lies in [-maxPitch, -minPitch]. |
| Runs.RunStarts | src/main/java/de/coreengine/system/gameObjects/FPCamera.java:201 | Every tick of a run after the first starts with `move` zero and with the configuration the run began with. |
| Runs.PureJumpFromRest | src/main/java/de/coreengine/system/gameObjects/FPCamera.java:168-191 | A tick that starts with `move` zero overrides the velocity only with (0, jumpPower, 0). Its force has y = jumpPower on a jump tick and 0 otherwise. |
| Runs.SpawnedRun | src/main/java/de/coreengine/system/gameObjects/FPCamera.java:103-204 | From a freshly constructed controller, the number of jumps equals the number of presses of the jump key, the first press included, and every jump goes straight up, whatever the configuration. When minPitch <= maxPitch the pitch also stays in range. |
| Runs.PureJumps | src/main/java/de/coreengine/system/gameObjects/FPCamera.java:168-191 | From a controller whose `move` is zero, every velocity override of a run is (0, jumpPower, 0). Every force has y = jumpPower on a jump tick and 0 otherwise. |
| Runs.JumpsArePresses | src/main/java/de/coreengine/system/gameObjects/FPCamera.java:168-176 | Over any run, the number of velocity overrides equals the number of ticks where the jump key goes from released to held. |
| Runs.HeldKeyJumpsOnce | src/main/java/de/coreengine/system/gameObjects/FPCamera.java:168-176 | While the jump key stays held there is exactly one override if it was released before, and none if it was already latched. |
| Runs.PressesAtMostReleases | src/main/java/de/coreengine/system/gameObjects/FPCamera.java:168-176 | Presses exceed releases by at most one. Together with JumpsArePresses this gives at most one jump per press/release cycle. |
| Runs.JumpsPerCycle | src/main/java/de/coreengine/system/gameObjects/FPCamera.java:168-176 | Over any run the number of velocity overrides is at most the number of releases of the jump key, plus one when it starts released. |
| Runs.YawAccumulates | src/main/java/de/coreengine/system/gameObjects/FPCamera.java:143-145 | Yaw is never clamped. After a run it equals the initial yaw plus the sum of dx·d over the ticks. |
| Runs.IdleKeepsOrientation | src/main/java/de/coreengine/system/gameObjects/FPCamera.java:133-152 | With no mouse movement and an in-range pitch, every tick keeps yaw and pitch and puts the camera at the body's origin. |
| Runs.FlagsNotLatched | src/main/java/de/coreengine/system/gameObjects/FPCamera.java:130-131 | A tick's whole outcome does not depend on the previous `walking` and `sprinting` values. |
| Runs.WalkingReportsThisTick | src/main/java/de/coreengine/system/gameObjects/FPCamera.java:222-231 | After a tick, `isWalking()` is true iff this tick's speed is non-zero and a direction key is held. `isSprinting()` is true iff walking and the sprint key is held. |
| Runs.SameDeltaSameTurn | src/main/java/de/coreengine/system/gameObjects/FPCamera.java:143-145 | Two consecutive ticks with equal mouse dx and frame time turn the yaw by equal amounts. |
| Properties.NoTimeNoTurn | src/main/java/de/coreengine/system/gameObjects/FPCamera.java:143-146 | Given 0.5^0 = 1, a tick with zero frame time leaves yaw and an in-range pitch unchanged. |

## Left out

- Floating-point numerics. Reals stand in for `float`, and the `(float)` narrowing casts and single-precision rounding are not modelled. `exp`/`log`, `cos`/`sin`/`toRadians` and the view ray are uninterpreted.
- The rigid-body physics. Creation, damping, force integration and collision are recorded only as `BodyCommand` values. The body's origin enters each tick as input.
- `onInit` (`addRigidBodyToWorld`), because it is a call into the physics world with no local logic.
- `onRender` (`MasterRenderer.setCamera`), a write to the renderer's global camera slot. `getCamera` is the `camera` field of the controller.
- `Mouse.setGrabbed`/`setVisible` in the constructor and `AudioListener.apply`, because they are side effects on devices. The listener's position and orientation values are recorded.
- Keyboard polling. The sprint key is polled twice in the source (lines 155 and 180); the model reads one snapshot per tick.
- Configuration loading. The values arrive as a `Config`. A missing key or a failing body allocation are errors raised inside `Configuration` and `Physics`, which are not part of this model.
- `Camera`, `Configuration`, `Physics` and `FrameTimer` are not part of this model. Camera yaw and pitch are assumed to start at 0 and to be stored as set, without wrapping.
- `Logger` and `Point3D`, since they are unrelated to the controller.
- The `super.onInit()`, `super.onUpdate()` and `super.onRender()` calls (lines 125, 203, 209). The parent game object class is not part of this model.
- Java `int` negation of the pitch limits. `-MAX_PICH` wraps for `Integer.MIN_VALUE`; `Settings.Config` holds `minPitch`/`maxPitch` as unbounded integers, so that wrap is not modelled.
- Outside writes to the camera. `getCamera()` (lines 215-217) hands out the live `Camera` object; the run lemmas (`Runs.YawAccumulates`, `Runs.IdleKeepsOrientation` and the others) assume nothing writes to it between ticks.
- FPCamera.MoveForce: states only the pure-forward and pure-strafe cases and the vertical component. The combined sum is stated through `Properties.ForceIsRotation` under trigonometric hypotheses.
