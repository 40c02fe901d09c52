/** Sequences of ticks: what the controller promises over the whole life of the object, not
    only about one `onUpdate` call. */
module Runs {
  import opened Vectors
  import opened Settings
  import opened FPCamera

  /** One `onUpdate` of the controller, as a value. */
  function StepOf(num: Numerics): (Controller, Input) -> Tick {
    (c: Controller, i: Input) => Step(num, c, i)
  }

  /** The ticks produced by feeding `ins` one by one to a controller that starts as `s` and
      advances by `step`. */
  function Trace(step: (Controller, Input) -> Tick, s: Controller, ins: seq<Input>): (ts: seq<Tick>)
    ensures |ts| == |ins|
    decreases |ins|
  {
    if |ins| == 0 then []
    else
      var t := step(s, ins[0]);
      [t] + Trace(step, t.next, ins[1..])
  }

  /** The ticks produced by feeding `ins` to the controller `s`, one `onUpdate` per input. */
  function Run(num: Numerics, s: Controller, ins: seq<Input>): seq<Tick> {
    Trace(StepOf(num), s, ins)
  }

  /** The controller a tick of the run started from. */
  function Before(s: Controller, ts: seq<Tick>, k: int): Controller
    requires 0 <= k <= |ts|
  {
    if k == 0 then s else ts[k - 1].next
  }

  /** The controller after the whole run. */
  function Final(s: Controller, ts: seq<Tick>): Controller {
    Before(s, ts, |ts|)
  }

  /** The number of velocity overrides issued during the run. */
  function JumpCount(ts: seq<Tick>): nat
    decreases |ts|
  {
    if |ts| == 0 then 0 else |Overrides(ts[0].body)| + JumpCount(ts[1..])
  }

  /** The number of ticks on which `key` is held after not having been held on the tick
      before; `wasHeld` says whether it was held before the first input. */
  function Presses(wasHeld: bool, key: int, ins: seq<Input>): nat
    decreases |ins|
  {
    if |ins| == 0 then 0
    else
      var h := key in ins[0].held;
      (if h && !wasHeld then 1 else 0) + Presses(h, key, ins[1..])
  }

  /** The total yaw the mouse asks for over the inputs. */
  function YawDelta(num: Numerics, cfg: Config, ins: seq<Input>): real
    decreases |ins|
  {
    if |ins| == 0 then 0.0
    else ins[0].dx * SmoothingFactor(num.halfPow, cfg, ins[0].frameTime) + YawDelta(num, cfg, ins[1..])
  }

  /** Each tick of a trace is the step of the controller the previous tick left. */
  lemma {:induction false} TraceIsStepwise(step: (Controller, Input) -> Tick, s: Controller, ins: seq<Input>)
    ensures forall k :: 0 <= k < |ins| ==>
              Trace(step, s, ins)[k] == step(Before(s, Trace(step, s, ins), k), ins[k])
    decreases |ins|
  {
    if |ins| > 0 {
      var ts := Trace(step, s, ins);
      var t := step(s, ins[0]);
      var rest := Trace(step, t.next, ins[1..]);
      assert ts == [t] + rest;
      TraceIsStepwise(step, t.next, ins[1..]);
      forall k | 1 <= k < |ins|
        ensures ts[k] == step(Before(s, ts, k), ins[k])
      {
        assert ts[k] == rest[k - 1];
        assert ins[k] == ins[1..][k - 1];
        assert Before(s, ts, k) == Before(t.next, rest, k - 1);
      }
    }
  }

  /** Each tick of a run is the `onUpdate` of the controller the previous tick left. */
  lemma RunIsStepwise(num: Numerics, s: Controller, ins: seq<Input>)
    ensures forall k :: 0 <= k < |ins| ==>
              Run(num, s, ins)[k] == Step(num, Before(s, Run(num, s, ins), k), ins[k])
  {
    TraceIsStepwise(StepOf(num), s, ins);
  }

  /** A property of controllers that every step keeps, on the inputs of the trace, holds
      before every tick of the trace. */
  lemma {:induction false} TraceInvariant(step: (Controller, Input) -> Tick, inv: Controller -> bool,
                                          s: Controller, ins: seq<Input>, k: nat)
    requires k <= |ins|
    requires inv(s)
    requires forall j, c :: 0 <= j < |ins| && inv(c) ==> inv(step(c, ins[j]).next)
    ensures inv(Before(s, Trace(step, s, ins), k))
    decreases k
  {
    if k > 0 {
      var ts := Trace(step, s, ins);
      TraceInvariant(step, inv, s, ins, k - 1);
      TraceIsStepwise(step, s, ins);
      assert ts[k - 1] == step(Before(s, ts, k - 1), ins[k - 1]);
    }
  }

  /** The controller before tick `k` has the configuration the run began with. */
  lemma ConfigAt(num: Numerics, s: Controller, ins: seq<Input>, k: nat)
    requires k <= |ins|
    ensures Before(s, Run(num, s, ins), k).cfg == s.cfg
  {
    var inv := (c: Controller) => c.cfg == s.cfg;
    forall j, c | 0 <= j < |ins| && inv(c)
      ensures inv(StepOf(num)(c, ins[j]).next)
    {
      StepTurns(num, c, ins[j]);
    }
    TraceInvariant(StepOf(num), inv, s, ins, k);
  }

  /** The configuration never changes during a run. */
  lemma RunKeepsConfig(num: Numerics, s: Controller, ins: seq<Input>)
    ensures forall k :: 0 <= k < |ins| ==> Run(num, s, ins)[k].next.cfg == s.cfg
  {
    var ts := Run(num, s, ins);
    forall k | 0 <= k < |ins|
      ensures ts[k].next.cfg == s.cfg
    {
      ConfigAt(num, s, ins, k + 1);
      assert Before(s, ts, k + 1) == ts[k].next;
    }
  }

  /** Every tick of a run starts from the configuration it was built with, and every tick
      but the first starts with a cleared move vector. */
  lemma RunStarts(num: Numerics, s: Controller, ins: seq<Input>)
    ensures forall k :: 0 <= k < |ins| ==>
              && Run(num, s, ins)[k] == Step(num, Before(s, Run(num, s, ins), k), ins[k])
              && Before(s, Run(num, s, ins), k).cfg == s.cfg
              && (k > 0 ==> Before(s, Run(num, s, ins), k).move == Zero)
  {
    var ts := Run(num, s, ins);
    RunIsStepwise(num, s, ins);
    forall k | 0 <= k < |ins|
      ensures Before(s, ts, k).cfg == s.cfg
      ensures k > 0 ==> Before(s, ts, k).move == Zero
    {
      ConfigAt(num, s, ins, k);
      if k > 0 {
        assert ts[k - 1] == Step(num, Before(s, ts, k - 1), ins[k - 1]);
      }
    }
  }

  /** Between ticks the camera pitch stays inside the configured range, whatever the mouse
      does. */
  lemma PitchStaysInRange(num: Numerics, s: Controller, ins: seq<Input>)
    requires PitchRangeValid(s.cfg)
    ensures forall k :: 0 <= k < |ins| ==> PitchInRange(s.cfg, Run(num, s, ins)[k].next.camera.pitch)
  {
    var ts := Run(num, s, ins);
    RunStarts(num, s, ins);
    forall k | 0 <= k < |ins|
      ensures PitchInRange(s.cfg, ts[k].next.camera.pitch)
    {
      assert ts[k] == Step(num, Before(s, ts, k), ins[k]);
    }
  }

  /** The velocity override of a tick is a pure vertical jump, and its walking force is
      vertical exactly when the tick jumps. */
  predicate PureJumpTick(t: Tick, jumpPower: real) {
    && (forall v :: v in Overrides(t.body) ==> v == Vec3(0.0, jumpPower, 0.0))
    && (forall f :: f in Forces(t.body) ==> f.y == (if |Overrides(t.body)| == 1 then jumpPower else 0.0))
  }

  /** A tick that starts with a cleared move vector jumps straight up. */
  lemma PureJumpFromRest(num: Numerics, b: Controller, i: Input)
    requires b.move == Zero
    ensures PureJumpTick(Step(num, b, i), b.cfg.jumpPower)
  {
    var t := Step(num, b, i);
    assert b.move.(y := b.cfg.jumpPower) == Vec3(0.0, b.cfg.jumpPower, 0.0);
    assert |Forces(t.body)| <= 1;
  }

  /** A controller that starts with a zero move vector (as every constructed one does) only
      ever overrides the velocity with (0, jumpPower, 0), and its walking force is vertical
      exactly on a jump tick. */
  lemma PureJumps(num: Numerics, s: Controller, ins: seq<Input>)
    requires s.move == Zero
    ensures forall k :: 0 <= k < |ins| ==> PureJumpTick(Run(num, s, ins)[k], s.cfg.jumpPower)
  {
    var ts := Run(num, s, ins);
    RunStarts(num, s, ins);
    forall k | 0 <= k < |ins|
      ensures PureJumpTick(ts[k], s.cfg.jumpPower)
    {
      var b := Before(s, ts, k);
      PureJumpFromRest(num, b, ins[k]);
    }
  }

  /** The jump debounce over a whole run: a velocity override is issued exactly on the ticks
      where the jump key goes from released to held. */
  lemma {:induction false} JumpsArePresses(num: Numerics, s: Controller, ins: seq<Input>)
    ensures JumpCount(Run(num, s, ins)) == Presses(s.spacePressed, s.cfg.keyUp, ins)
    decreases |ins|
  {
    if |ins| > 0 {
      var t := Step(num, s, ins[0]);
      var ts := Run(num, s, ins);
      assert ts[1..] == Run(num, t.next, ins[1..]);
      JumpsArePresses(num, t.next, ins[1..]);
    }
  }

  /** While the jump key stays held, at most one jump happens: one if it was released before
      the first tick, none if it was already held. */
  lemma {:induction false} HeldKeyJumpsOnce(num: Numerics, s: Controller, ins: seq<Input>)
    requires forall k :: 0 <= k < |ins| ==> s.cfg.keyUp in ins[k].held
    ensures JumpCount(Run(num, s, ins)) == (if |ins| > 0 && !s.spacePressed then 1 else 0)
  {
    JumpsArePresses(num, s, ins);
    PressesWhileHeld(s.spacePressed, s.cfg.keyUp, ins);
  }

  lemma {:induction false} PressesWhileHeld(wasHeld: bool, key: int, ins: seq<Input>)
    requires forall k :: 0 <= k < |ins| ==> key in ins[k].held
    ensures Presses(wasHeld, key, ins) == (if |ins| > 0 && !wasHeld then 1 else 0)
    decreases |ins|
  {
    if |ins| > 0 {
      assert forall k :: 0 <= k < |ins[1..]| ==> ins[1..][k] == ins[k + 1];
      PressesWhileHeld(true, key, ins[1..]);
    }
  }

  /** Jumps never outnumber the presses of the jump key, so one press/release cycle gives at
      most one jump: between two presses there is a tick with the key released. */
  lemma {:induction false} PressesAtMostReleases(wasHeld: bool, key: int, ins: seq<Input>)
    ensures Presses(wasHeld, key, ins) <= Releases(wasHeld, key, ins) + (if wasHeld then 0 else 1)
    decreases |ins|
  {
    if |ins| > 0 {
      PressesAtMostReleases(key in ins[0].held, key, ins[1..]);
    }
  }

  /** At most one jump per press/release cycle of the jump key, over any run. */
  lemma JumpsPerCycle(num: Numerics, s: Controller, ins: seq<Input>)
    ensures JumpCount(Run(num, s, ins)) <=
              Releases(s.spacePressed, s.cfg.keyUp, ins) + (if s.spacePressed then 0 else 1)
  {
    JumpsArePresses(num, s, ins);
    PressesAtMostReleases(s.spacePressed, s.cfg.keyUp, ins);
  }

  /** The number of ticks on which `key` is released after having been held. */
  function Releases(wasHeld: bool, key: int, ins: seq<Input>): nat
    decreases |ins|
  {
    if |ins| == 0 then 0
    else
      var h := key in ins[0].held;
      (if !h && wasHeld then 1 else 0) + Releases(h, key, ins[1..])
  }

  /** Yaw is never clamped: after a run it has moved by exactly the sum of the per-tick
      mouse deltas scaled by their smoothing factors. */
  lemma {:induction false} YawAccumulates(num: Numerics, s: Controller, ins: seq<Input>)
    ensures Final(s, Run(num, s, ins)).camera.yaw == s.camera.yaw + YawDelta(num, s.cfg, ins)
    decreases |ins|
  {
    if |ins| > 0 {
      var t := Step(num, s, ins[0]);
      StepTurns(num, s, ins[0]);
      RunCons(num, s, ins);
      FinalCons(s, t, Run(num, t.next, ins[1..]));
      YawAccumulates(num, t.next, ins[1..]);
    }
  }

  /** The yaw and configuration part of the tick contract, on its own. */
  lemma StepTurns(num: Numerics, s: Controller, i: Input)
    ensures Step(num, s, i).next.camera.yaw == s.camera.yaw + i.dx * SmoothingFactor(num.halfPow, s.cfg, i.frameTime)
    ensures Step(num, s, i).next.cfg == s.cfg
  {
  }

  /** One step of the recursion of `Run`. */
  lemma RunCons(num: Numerics, s: Controller, ins: seq<Input>)
    requires |ins| > 0
    ensures Run(num, s, ins) == [Step(num, s, ins[0])] + Run(num, Step(num, s, ins[0]).next, ins[1..])
  {
    assert StepOf(num)(s, ins[0]) == Step(num, s, ins[0]);
  }

  lemma FinalCons(s: Controller, t: Tick, rest: seq<Tick>)
    ensures Final(s, [t] + rest) == Final(t.next, rest)
  {
    if |rest| > 0 {
      assert ([t] + rest)[|rest|] == rest[|rest| - 1];
    }
  }

  /** With no mouse movement, the camera keeps its orientation (the pitch too, once it is in
      range) and tracks the body: the idle scenario of a freshly spawned, falling player. */
  lemma IdleKeepsOrientation(num: Numerics, s: Controller, ins: seq<Input>)
    requires PitchInRange(s.cfg, s.camera.pitch)
    requires forall k :: 0 <= k < |ins| ==> ins[k].dx == 0.0 && ins[k].dy == 0.0
    ensures forall k :: 0 <= k < |ins| ==>
              Run(num, s, ins)[k].next.camera == Camera(ins[k].origin, s.camera.yaw, s.camera.pitch)
  {
    var ts := Run(num, s, ins);
    RunIsStepwise(num, s, ins);
    forall k | 0 <= k < |ins|
      ensures ts[k].next.camera == Camera(ins[k].origin, s.camera.yaw, s.camera.pitch)
    {
      var b := Before(s, ts, k);
      IdleAt(num, s, ins, k);
      assert ts[k] == Step(num, b, ins[k]);
      IdleTick(num, b, ins[k]);
    }
  }

  /** Without mouse movement the controller before tick `k` still has the initial
      orientation and configuration. */
  lemma IdleAt(num: Numerics, s: Controller, ins: seq<Input>, k: nat)
    requires PitchInRange(s.cfg, s.camera.pitch)
    requires forall j :: 0 <= j < |ins| ==> ins[j].dx == 0.0 && ins[j].dy == 0.0
    requires k <= |ins|
    ensures var b := Before(s, Run(num, s, ins), k);
            b.cfg == s.cfg && b.camera.yaw == s.camera.yaw && b.camera.pitch == s.camera.pitch
  {
    var inv := (c: Controller) => c.cfg == s.cfg && c.camera.yaw == s.camera.yaw && c.camera.pitch == s.camera.pitch;
    forall j, c | 0 <= j < |ins| && inv(c)
      ensures inv(StepOf(num)(c, ins[j]).next)
    {
      IdleTick(num, c, ins[j]);
    }
    TraceInvariant(StepOf(num), inv, s, ins, k);
  }

  /** One tick without mouse movement. */
  lemma IdleTick(num: Numerics, s: Controller, i: Input)
    requires PitchInRange(s.cfg, s.camera.pitch)
    requires i.dx == 0.0 && i.dy == 0.0
    ensures Step(num, s, i).next.camera == Camera(i.origin, s.camera.yaw, s.camera.pitch)
    ensures Step(num, s, i).next.cfg == s.cfg
  {
    assert RawPitch(num, s, i) == s.camera.pitch;
  }

  /** The whole tick ignores the `walking` and `sprinting` flags it starts from: they are
      recomputed, never latched. */
  lemma FlagsNotLatched(num: Numerics, s: Controller, i: Input, walking: bool, sprinting: bool)
    ensures Step(num, s.(walking := walking, sprinting := sprinting), i) == Step(num, s, i)
  {
    var s' := s.(walking := walking, sprinting := sprinting);
    assert Step(num, s', i) == Update(num, s.cfg, s.camera, s.spacePressed, s.move, i);
  }

  /** `isWalking()` and `isSprinting()` after a tick report that tick's keys alone. */
  lemma WalkingReportsThisTick(num: Numerics, s: Controller, i: Input)
    ensures IsWalking(Step(num, s, i).next) <==>
              SelectSpeed(s.cfg, i.held) != 0.0 &&
              (s.cfg.keyLeft in i.held || s.cfg.keyRight in i.held ||
               s.cfg.keyForward in i.held || s.cfg.keyBackward in i.held)
    ensures IsSprinting(Step(num, s, i).next) <==> IsWalking(Step(num, s, i).next) && s.cfg.keySprint in i.held
  {
  }

  /** The mouse response does not decay from one tick to the next: two ticks with the same
      mouse delta and the same frame time turn the camera by the same amount. */
  lemma SameDeltaSameTurn(num: Numerics, s: Controller, i1: Input, i2: Input)
    requires i1.dx == i2.dx && i1.frameTime == i2.frameTime
    ensures var t1 := Step(num, s, i1);
            var t2 := Step(num, t1.next, i2);
            t2.next.camera.yaw - t1.next.camera.yaw == t1.next.camera.yaw - s.camera.yaw
  {
  }

  /** From construction on: the jump key fires on its first press and on every later
      press, each time straight up, and the camera pitch is always in range. */
  lemma SpawnedRun(num: Numerics, cfg: Config, x: real, y: real, z: real, ins: seq<Input>)
    ensures var c := Spawn(cfg, x, y, z).controller;
            && JumpCount(Run(num, c, ins)) == Presses(false, cfg.keyUp, ins)
            && (forall k :: 0 <= k < |ins| ==> PureJumpTick(Run(num, c, ins)[k], cfg.jumpPower))
            && (PitchRangeValid(cfg) ==>
                  forall k :: 0 <= k < |ins| ==> PitchInRange(cfg, Run(num, c, ins)[k].next.camera.pitch))
  {
    var c := Spawn(cfg, x, y, z).controller;
    JumpsArePresses(num, c, ins);
    PureJumps(num, c, ins);
    if PitchRangeValid(cfg) {
      PitchStaysInRange(num, c, ins);
    }
  }
}
