/** The tunables the first-person controller reads from the engine configuration
    when it is constructed. Each field corresponds to one configuration key. */
module Settings {

  datatype Config = Config(
    // FPC_CAMERA_MIN_PITCH / FPC_CAMERA_MAX_PITCH: pitch limits; the stored pitch is clamped to [-max, -min]
    minPitch: int,
    maxPitch: int,
    // key codes of the bindings
    keyForward: int,
    keyBackward: int,
    keyLeft: int,
    keyRight: int,
    keyUp: int,
    keySprint: int,
    // mouse look
    mouseIntensiveness: real,
    mouseSpringiness: real,
    // movement
    walkSpeed: real,
    sprintSpeed: real,
    jumpPower: real,
    // capsule of the player body
    playSizeX: real,
    playSizeY: real,
    playerMass: real)

  /** The lowest pitch the camera may hold. */
  function LowestPitch(c: Config): int { -c.maxPitch }

  /** The highest pitch the camera may hold. */
  function HighestPitch(c: Config): int { -c.minPitch }

  /** The configured pitch interval is non-empty. Nothing in the source enforces this. */
  predicate PitchRangeValid(c: Config) {
    c.minPitch <= c.maxPitch
  }

  /** `p` lies in the interval the pitch clamp keeps the camera in. */
  predicate PitchInRange(c: Config, p: real) {
    LowestPitch(c) as real <= p <= HighestPitch(c) as real
  }
}
