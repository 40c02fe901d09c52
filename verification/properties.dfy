/** Properties of single ticks and of the pieces a tick is made of, stated against
    independent descriptions rather than against the code that computes them. */
module Properties {
  import opened Vectors
  import opened Settings
  import opened FPCamera

  function Abs(x: real): real { if x < 0.0 then -x else x }

  /** The clamp picks the point of the pitch interval nearest to the requested pitch. */
  lemma ClampIsNearest(cfg: Config, p: real, q: real)
    requires PitchRangeValid(cfg) && PitchInRange(cfg, q)
    ensures Abs(ClampPitch(cfg, p) - p) <= Abs(q - p)
  {
  }

  /** Clamping twice is clamping once. */
  lemma ClampIdempotent(cfg: Config, p: real)
    requires PitchRangeValid(cfg)
    ensures ClampPitch(cfg, ClampPitch(cfg, p)) == ClampPitch(cfg, p)
  {
  }

  /** More mouse-down never yields less pitch: the clamp preserves order. */
  lemma ClampMonotone(cfg: Config, p: real, q: real)
    requires PitchRangeValid(cfg) && p <= q
    ensures ClampPitch(cfg, p) <= ClampPitch(cfg, q)
  {
  }

  /** With a misconfigured interval (minimum above maximum) the lower check wins whenever it
      fires and every other pitch is sent to `-minPitch`, which then lies below `-maxPitch`. */
  lemma ClampMisconfigured(cfg: Config, p: real)
    requires !PitchRangeValid(cfg)
    ensures ClampPitch(cfg, p) == (if p < LowestPitch(cfg) as real then LowestPitch(cfg) as real
                                   else HighestPitch(cfg) as real)
    ensures !PitchInRange(cfg, ClampPitch(cfg, p))
  {
  }

  /** Holding both keys of an axis does not cancel: the key checked second decides. */
  lemma OpposingKeysDoNotCancel(cfg: Config, held: set<int>, speed: real)
    requires cfg.keyLeft in held && cfg.keyRight in held
    requires cfg.keyForward in held && cfg.keyBackward in held
    ensures AxisSpeeds(cfg, held, speed) == (speed, speed)
  {
  }

  /** The pitch a tick leaves is the point of the pitch interval nearest to the pitch the
      mouse asked for. */
  lemma TickPitchIsNearest(num: Numerics, s: Controller, i: Input, q: real)
    requires PitchRangeValid(s.cfg) && PitchInRange(s.cfg, q)
    ensures var p := Step(num, s, i).next.camera.pitch;
            PitchInRange(s.cfg, p) && Abs(p - RawPitch(num, s, i)) <= Abs(q - RawPitch(num, s, i))
  {
    ClampIsNearest(s.cfg, RawPitch(num, s, i), q);
  }

  /** The walking force of a tick, described from the keys alone: the speed is the sprint
      speed exactly while the sprint key is held, on each axis the key checked later wins,
      the rotation uses the yaw after this tick's turn, and the vertical part is the jump
      power on a jump tick and the carried `move.y` otherwise. */
  lemma TickForce(num: Numerics, s: Controller, i: Input)
    requires Moves(s.cfg, i)
    ensures var speed := if s.cfg.keySprint in i.held then s.cfg.sprintSpeed else s.cfg.walkSpeed;
            var speedX := if s.cfg.keyRight in i.held then speed else if s.cfg.keyLeft in i.held then -speed else 0.0;
            var speedZ := if s.cfg.keyBackward in i.held then speed else if s.cfg.keyForward in i.held then -speed else 0.0;
            var yaw := s.camera.yaw + i.dx * SmoothingFactor(num.halfPow, s.cfg, i.frameTime);
            var lift := if s.cfg.keyUp in i.held && !s.spacePressed then s.cfg.jumpPower else s.move.y;
            Forces(Step(num, s, i).body) == [MoveForce(num, yaw, speedX, speedZ, s.move.(y := lift))]
  {
  }

  /** Sines and cosines, in degrees, that obey the identities the force computation relies on. */
  predicate RotationAt(num: Numerics, a: real) {
    && num.cosDeg(a) * num.cosDeg(a) + num.sinDeg(a) * num.sinDeg(a) == 1.0
    && num.cosDeg(a + 90.0) == -num.sinDeg(a)
    && num.sinDeg(a + 90.0) == num.cosDeg(a)
  }

  /** The walking force is the speed pair rotated by the yaw: its horizontal length does
      not depend on where the camera looks. */
  lemma ForceIsRotation(num: Numerics, yaw: real, speedX: real, speedZ: real, move: Vec3)
    requires RotationAt(num, -yaw)
    ensures var f := MoveForce(num, yaw, speedX, speedZ, move);
            f.x * f.x + f.z * f.z == speedX * speedX + speedZ * speedZ
  {
    var c, s := num.cosDeg(-yaw), num.sinDeg(-yaw);
    var f := MoveForce(num, yaw, speedX, speedZ, move);
    assert f.x == speedZ * s + speedX * c;
    assert f.z == speedZ * c - speedX * s;
    calc {
      f.x * f.x + f.z * f.z;
      (speedZ * s + speedX * c) * (speedZ * s + speedX * c) + (speedZ * c - speedX * s) * (speedZ * c - speedX * s);
      { MulDistributes(speedZ, speedX, s, c); }
      (speedX * speedX + speedZ * speedZ) * (c * c + s * s);
    }
  }

  lemma MulDistributes(a: real, b: real, s: real, c: real)
    ensures (a * s + b * c) * (a * s + b * c) + (a * c - b * s) * (a * c - b * s)
         == (b * b + a * a) * (c * c + s * s)
  {
  }

  /** Walking straight ahead with the camera at yaw 0 pushes along -z with the selected
      speed: walk speed, or sprint speed while the sprint key is held. */
  lemma ForwardAtYawZero(num: Numerics, s: Controller, i: Input)
    requires num.cosDeg(0.0) == 1.0 && num.sinDeg(0.0) == 0.0
    requires s.camera.yaw == 0.0 && i.dx == 0.0 && s.move == Zero
    requires s.cfg.keyForward in i.held
    requires s.cfg.keyBackward !in i.held && s.cfg.keyLeft !in i.held && s.cfg.keyRight !in i.held
    requires s.cfg.keyUp !in i.held
    requires SelectSpeed(s.cfg, i.held) != 0.0
    ensures Forces(Step(num, s, i).body) ==
              [Vec3(0.0, 0.0, -(if s.cfg.keySprint in i.held then s.cfg.sprintSpeed else s.cfg.walkSpeed))]
    ensures Overrides(Step(num, s, i).body) == []
  {
    var t := Step(num, s, i);
    assert t.next.camera.yaw == 0.0;
    var speed := SelectSpeed(s.cfg, i.held);
    assert AxisSpeeds(s.cfg, i.held, speed) == (0.0, -speed);
    assert -0.0 == 0.0;
  }

  /** A tick with no elapsed frame time (0.5 to the power 0 is 1) does not turn the camera,
      whatever the mouse did. */
  lemma NoTimeNoTurn(num: Numerics, s: Controller, i: Input)
    requires num.halfPow(0.0) == 1.0 && i.frameTime == 0.0
    requires PitchInRange(s.cfg, s.camera.pitch)
    ensures Step(num, s, i).next.camera.yaw == s.camera.yaw
    ensures Step(num, s, i).next.camera.pitch == s.camera.pitch
  {
    assert s.cfg.mouseSpringiness * i.frameTime == 0.0;
    assert SmoothingFactor(num.halfPow, s.cfg, i.frameTime) == 0.0;
    assert RawPitch(num, s, i) == s.camera.pitch;
  }
}
