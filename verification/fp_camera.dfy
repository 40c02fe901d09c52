/** The first-person camera controller `FPCamera`: its construction and one `onUpdate` tick,
    as a pure step from (controller, input snapshot) to (controller, issued commands).

    Everything the tick reads from the outside world arrives as an `Input`; everything it
    does to the outside world leaves as a `BodyCommand` or as the `Listener` values handed to
    the audio system. Floating-point transcendental functions are opaque parameters. */
module FPCamera {
  import opened Vectors
  import opened Settings
  import LastWrite

  /** The camera the controller owns: position and orientation in degrees. The view matrix is
      derived from these and is not stored. */
  datatype Camera = Camera(position: Vec3, yaw: real, pitch: real)

  /** The controller object between two ticks. `move` is a field of the object in the
      source; it only ever holds a non-zero value in the middle of a tick. */
  datatype Controller = Controller(
    cfg: Config,
    camera: Camera,
    spacePressed: bool,
    walking: bool,
    sprinting: bool,
    move: Vec3)

  /** What one tick samples: the keys held (by key code), the mouse movement since the last
      poll, the time since the last frame in seconds, and the origin of the body's transform
      as the physics world currently holds it. */
  datatype Input = Input(held: set<int>, dx: real, dy: real, frameTime: real, origin: Vec3)

  /** The floating-point functions the tick calls, left uninterpreted.
      `halfPow(t)` is `exp(ln(0.5) * t)`, that is 0.5 to the power t;
      `cosDeg`/`sinDeg` take degrees (`Math.cos(Math.toRadians(a))`);
      `viewRay` is the camera's view direction after its view matrix is recomputed. */
  datatype Numerics = Numerics(
    halfPow: real -> real,
    cosDeg: real -> real,
    sinDeg: real -> real,
    viewRay: Camera -> Vec3)

  /** Calls the controller makes on its rigid body, in the order it makes them. */
  datatype BodyCommand =
    | CreateRigidBody(mass: real, radius: real, height: real, kinematic: bool)
    | SetWorldTransform(origin: Vec3)
    | DisableDeactivation
    | SetDamping(linear: real, angular: real)
    | SetAngularFactor(factor: real)
    | SetLinearVelocity(velocity: Vec3)
    | ApplyCentralForce(force: Vec3)

  /** The values handed to the audio listener before it is applied. */
  datatype Listener = Listener(position: Vec3, orientation: Vec3)

  /** The outcome of one tick. */
  datatype Tick = Tick(next: Controller, body: seq<BodyCommand>, listener: Listener)

  /** The outcome of construction: the new controller and the set-up calls on its body. */
  datatype Spawned = Spawned(controller: Controller, setup: seq<BodyCommand>)

  // Damping and angular factor the constructor gives the body (0.999f, 1.0f, 0).
  const LinearDamping: real := 0.999
  const AngularDamping: real := 1.0
  const AngularFactor: real := 0.0

  /** The velocities of the velocity overrides among `cmds`, in order. */
  function Overrides(cmds: seq<BodyCommand>): seq<Vec3>
  {
    if |cmds| == 0 then []
    else (if cmds[0].SetLinearVelocity? then [cmds[0].velocity] else []) + Overrides(cmds[1..])
  }

  /** The forces of the central-force applications among `cmds`, in order. */
  function Forces(cmds: seq<BodyCommand>): seq<Vec3>
  {
    if |cmds| == 0 then []
    else (if cmds[0].ApplyCentralForce? then [cmds[0].force] else []) + Forces(cmds[1..])
  }

  // ---------------------------------------------------------------------------------------
  // Construction
  // ---------------------------------------------------------------------------------------

  /** `new FPCamera(x, y, z)`: a capsule body placed at the spawn point, never deactivated,
      never rotated by physics, and a camera at the spawn point looking straight ahead. */
  function Spawn(cfg: Config, x: real, y: real, z: real): (r: Spawned)
    ensures r.controller.cfg == cfg
    ensures r.controller.camera == Camera(Vec3(x, y, z), 0.0, 0.0)
    ensures !r.controller.spacePressed && !r.controller.walking && !r.controller.sprinting
    ensures r.controller.move == Zero
    ensures |r.setup| == 5
    ensures r.setup[0] == CreateRigidBody(cfg.playerMass, cfg.playSizeX, cfg.playSizeY, false)
    ensures r.setup[1] == SetWorldTransform(r.controller.camera.position)
    ensures r.setup[2..] == [DisableDeactivation, SetDamping(0.999, 1.0), SetAngularFactor(0.0)]
  {
    var origin := Vec3(x, y, z);
    Spawned(
      Controller(cfg, Camera(origin, 0.0, 0.0), false, false, false, Zero),
      [ CreateRigidBody(cfg.playerMass, cfg.playSizeX, cfg.playSizeY, false),
        SetWorldTransform(origin),
        DisableDeactivation,
        SetDamping(LinearDamping, AngularDamping),
        SetAngularFactor(AngularFactor) ])
  }

  // ---------------------------------------------------------------------------------------
  // Looking
  // ---------------------------------------------------------------------------------------

  /** The frame-rate dependent factor that turns a mouse delta into degrees:
      `(1 - 0.5^(springiness * frameTime)) * intensiveness`. */
  function SmoothingFactor(halfPow: real -> real, cfg: Config, frameTime: real): (d: real)
    ensures 0.0 <= halfPow(cfg.mouseSpringiness * frameTime) <= 1.0 && cfg.mouseIntensiveness >= 0.0 ==>
              0.0 <= d <= cfg.mouseIntensiveness
    ensures halfPow(cfg.mouseSpringiness * frameTime) == 1.0 ==> d == 0.0
    ensures halfPow(cfg.mouseSpringiness * frameTime) == 0.0 ==> d == cfg.mouseIntensiveness
  {
    var h := halfPow(cfg.mouseSpringiness * frameTime);
    var k := cfg.mouseIntensiveness;
    assert 0.0 <= h <= 1.0 && k >= 0.0 ==> 0.0 <= (1.0 - h) * k <= k by {
      if 0.0 <= h <= 1.0 && k >= 0.0 {
        NonNegativeProduct(1.0 - h, k);
        NonNegativeProduct(h, k);
        assert (1.0 - h) * k + h * k == k;
      }
    }
    (1.0 - h) * k
  }

  lemma NonNegativeProduct(a: real, b: real)
    requires a >= 0.0 && b >= 0.0
    ensures a * b >= 0.0
  {
  }

  /** The pitch clamp: below `-maxPitch` is raised to it, otherwise above `-minPitch` is
      lowered to it. The lower bound is checked first. */
  function ClampPitch(cfg: Config, p: real): (r: real)
    ensures PitchRangeValid(cfg) ==> PitchInRange(cfg, r)
    ensures PitchInRange(cfg, p) ==> r == p
    ensures r == p || r == LowestPitch(cfg) as real || r == HighestPitch(cfg) as real
  {
    if p < LowestPitch(cfg) as real then LowestPitch(cfg) as real
    else if p > HighestPitch(cfg) as real then HighestPitch(cfg) as real
    else p
  }

  // ---------------------------------------------------------------------------------------
  // Moving
  // ---------------------------------------------------------------------------------------

  /** The speed of this tick: sprint speed exactly when the sprint key is held. */
  function SelectSpeed(cfg: Config, held: set<int>): (speed: real)
    ensures cfg.keySprint in held ==> speed == cfg.sprintSpeed
    ensures cfg.keySprint !in held ==> speed == cfg.walkSpeed
  {
    if cfg.keySprint in held then cfg.sprintSpeed else cfg.walkSpeed
  }

  /** The strafe and forward speeds, selected by two conditional assignments per axis in the
      order left, right, forward, backward: on each axis the key checked later wins. */
  function AxisSpeeds(cfg: Config, held: set<int>, speed: real): (r: (real, real))
    ensures r.0 == (if cfg.keyRight in held then speed else if cfg.keyLeft in held then -speed else 0.0)
    ensures r.1 == (if cfg.keyBackward in held then speed else if cfg.keyForward in held then -speed else 0.0)
  {
    var xs := [LastWrite.Write(cfg.keyLeft in held, -speed), LastWrite.Write(cfg.keyRight in held, speed)];
    var zs := [LastWrite.Write(cfg.keyForward in held, -speed), LastWrite.Write(cfg.keyBackward in held, speed)];
    LastWrite.SecondWins(0.0, xs[0], xs[1]);
    LastWrite.SecondWins(0.0, zs[0], zs[1]);
    (LastWrite.Assign(0.0, xs), LastWrite.Assign(0.0, zs))
  }

  /** The jump debounce after one tick. */
  datatype JumpOutcome = JumpOutcome(spacePressed: bool, move: Vec3, fired: bool)

  /** Edge-triggered jump: fires only when the jump key is held and was not held on the
      previous tick; the latch then follows the key. */
  function Jump(spacePressed: bool, upHeld: bool, move: Vec3, jumpPower: real): (r: JumpOutcome)
    ensures r.spacePressed == upHeld
    ensures r.fired <==> upHeld && !spacePressed
    ensures r.move.x == move.x && r.move.z == move.z
    ensures r.move.y == (if r.fired then jumpPower else move.y)
  {
    if upHeld then
      if !spacePressed then JumpOutcome(true, move.(y := jumpPower), true)
      else JumpOutcome(spacePressed, move, false)
    else JumpOutcome(false, move, false)
  }

  /** The walking force: the forward speed rotated by `-yaw` degrees, the strafe speed by
      `-yaw + 90` degrees, summed in the horizontal plane; the vertical component is whatever
      `move` already holds. */
  function MoveForce(num: Numerics, yaw: real, speedX: real, speedZ: real, move: Vec3): (f: Vec3)
    ensures f.y == move.y
    ensures speedX == 0.0 ==> f.x == speedZ * num.sinDeg(-yaw) && f.z == speedZ * num.cosDeg(-yaw)
    ensures speedZ == 0.0 ==> f.x == speedX * num.sinDeg(-yaw + 90.0) && f.z == speedX * num.cosDeg(-yaw + 90.0)
  {
    var zForward := speedZ * num.cosDeg(-yaw);
    var xForward := speedZ * num.sinDeg(-yaw);
    var zSide := speedX * num.cosDeg(-yaw + 90.0);
    var xSide := speedX * num.sinDeg(-yaw + 90.0);
    Vec3(xForward + xSide, move.y, zForward + zSide)
  }

  // ---------------------------------------------------------------------------------------
  // One tick
  // ---------------------------------------------------------------------------------------

  /** The pitch the mouse asks for before clamping. */
  function RawPitch(num: Numerics, s: Controller, i: Input): real {
    s.camera.pitch + i.dy * SmoothingFactor(num.halfPow, s.cfg, i.frameTime)
  }

  /** Some directional key produces a non-zero speed on this tick. */
  predicate Moves(cfg: Config, i: Input) {
    && SelectSpeed(cfg, i.held) != 0.0
    && (cfg.keyLeft in i.held || cfg.keyRight in i.held || cfg.keyForward in i.held || cfg.keyBackward in i.held)
  }

  /** `onUpdate()`: follow the body, turn with the mouse, clamp the pitch, pick the speed,
      handle the jump latch, push the body if walking, publish to the audio listener and
      clear `move`. */
  function Step(num: Numerics, s: Controller, i: Input): (t: Tick)
    // configuration is fixed for the lifetime of the controller
    ensures t.next.cfg == s.cfg
    // physics is the position authority
    ensures t.next.camera.position == i.origin
    // looking
    ensures t.next.camera.yaw == s.camera.yaw + i.dx * SmoothingFactor(num.halfPow, s.cfg, i.frameTime)
    ensures i.dx == 0.0 ==> t.next.camera.yaw == s.camera.yaw
    ensures PitchRangeValid(s.cfg) ==> PitchInRange(s.cfg, t.next.camera.pitch)
    ensures PitchInRange(s.cfg, RawPitch(num, s, i)) ==> t.next.camera.pitch == RawPitch(num, s, i)
    ensures t.next.camera.pitch == ClampPitch(s.cfg, RawPitch(num, s, i))
    // jump latch and velocity override
    ensures t.next.spacePressed == (s.cfg.keyUp in i.held)
    ensures Overrides(t.body) ==
              (if s.cfg.keyUp in i.held && !s.spacePressed then [s.move.(y := s.cfg.jumpPower)] else [])
    // flags recomputed from this tick's input only
    ensures t.next.walking <==> Moves(s.cfg, i)
    ensures t.next.sprinting <==> Moves(s.cfg, i) && s.cfg.keySprint in i.held
    // walking force
    ensures |Forces(t.body)| == (if Moves(s.cfg, i) then 1 else 0)
    ensures Moves(s.cfg, i) ==>
              Forces(t.body)[0].y == (if |Overrides(t.body)| == 1 then s.cfg.jumpPower else s.move.y)
    // the force is computed from the yaw after this tick's turn and the last-write-wins speeds
    ensures Moves(s.cfg, i) ==>
              var (speedX, speedZ) := AxisSpeeds(s.cfg, i.held, SelectSpeed(s.cfg, i.held));
              var jump := Jump(s.spacePressed, s.cfg.keyUp in i.held, s.move, s.cfg.jumpPower);
              Forces(t.body) == [MoveForce(num, t.next.camera.yaw, speedX, speedZ, jump.move)]
    // nothing else is done to the body, and the velocity override comes first
    ensures |t.body| == |Overrides(t.body)| + |Forces(t.body)|
    ensures |Overrides(t.body)| == 1 ==> t.body[0].SetLinearVelocity?
    // audio listener follows the camera, horizontally
    ensures t.listener.position == t.next.camera.position
    ensures t.listener.orientation == Horizontal(num.viewRay(t.next.camera))
    // move is cleared at the end of every tick
    ensures t.next.move == Zero
  {
    Update(num, s.cfg, s.camera, s.spacePressed, s.move, i)
  }

  /** The tick computed from the only parts of the controller it reads: neither the
      `walking` nor the `sprinting` flag of the previous tick is among them. */
  function Update(num: Numerics, cfg: Config, cam: Camera, spacePressed: bool, move: Vec3, i: Input): Tick
  {
    var d := SmoothingFactor(num.halfPow, cfg, i.frameTime);
    var yaw := cam.yaw + i.dx * d;
    var pitch := ClampPitch(cfg, cam.pitch + i.dy * d);
    var sprintHeld := cfg.keySprint in i.held;
    var speed := SelectSpeed(cfg, i.held);
    var (speedX, speedZ) := AxisSpeeds(cfg, i.held, speed);
    var jump := Jump(spacePressed, cfg.keyUp in i.held, move, cfg.jumpPower);
    var walking := speedX != 0.0 || speedZ != 0.0;
    var camera := Camera(i.origin, yaw, pitch);
    var force := MoveForce(num, yaw, speedX, speedZ, jump.move);
    Tick(
      Controller(cfg, camera, jump.spacePressed, walking, walking && sprintHeld, Zero),
      TickCommands(jump.fired, jump.move, walking, force),
      Listener(camera.position, Horizontal(num.viewRay(camera))))
  }

  /** The body calls of one tick: the velocity override, if the jump fired, before the
      walking force, if the player walks. */
  function TickCommands(fired: bool, velocity: Vec3, walking: bool, force: Vec3): (cmds: seq<BodyCommand>)
    ensures Overrides(cmds) == (if fired then [velocity] else [])
    ensures Forces(cmds) == (if walking then [force] else [])
    ensures |cmds| == |Overrides(cmds)| + |Forces(cmds)|
    ensures fired ==> cmds[0] == SetLinearVelocity(velocity)
  {
    var velocityCmds := if fired then [SetLinearVelocity(velocity)] else [];
    var forceCmds := if walking then [ApplyCentralForce(force)] else [];
    OverridesAndForcesSplit(velocityCmds, forceCmds);
    velocityCmds + forceCmds
  }

  /** Filtering distributes over concatenation. */
  lemma {:induction false} OverridesAndForcesSplit(a: seq<BodyCommand>, b: seq<BodyCommand>)
    ensures Overrides(a + b) == Overrides(a) + Overrides(b)
    ensures Forces(a + b) == Forces(a) + Forces(b)
  {
    OverridesSplit(a, b);
    ForcesSplit(a, b);
  }

  lemma {:induction false} OverridesSplit(a: seq<BodyCommand>, b: seq<BodyCommand>)
    ensures Overrides(a + b) == Overrides(a) + Overrides(b)
    decreases |a|
  {
    if |a| == 0 {
      assert a + b == b;
    } else {
      assert (a + b)[0] == a[0];
      assert (a + b)[1..] == a[1..] + b;
      OverridesSplit(a[1..], b);
    }
  }

  lemma {:induction false} ForcesSplit(a: seq<BodyCommand>, b: seq<BodyCommand>)
    ensures Forces(a + b) == Forces(a) + Forces(b)
    decreases |a|
  {
    if |a| == 0 {
      assert a + b == b;
    } else {
      assert (a + b)[0] == a[0];
      assert (a + b)[1..] == a[1..] + b;
      ForcesSplit(a[1..], b);
    }
  }

  /** `isWalking()`. */
  function IsWalking(c: Controller): bool { c.walking }

  /** `isSprinting()`. */
  function IsSprinting(c: Controller): bool { c.sprinting }
}
