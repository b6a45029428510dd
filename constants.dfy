/** The player's fixed tunables, as the Player constructor sets them, and two
    small real-number helpers used throughout the model.

    Python floats are idealised as Dafny `real`: every speed, velocity,
    angle and coordinate below is exact. */
module Constants {

  /** Walking speed at start, and also the step of the walking-speed ladder. */
  const WALK_SPEED: real := 5.0
  /** The walking-speed guard: an increase happens only at or below this value. */
  const MAX_SPEED: real := 15.0
  /** The walking-speed floor: a decrease happens only above this value. */
  const MIN_SPEED: real := 5.0
  /** The highest walking speed the ladder reaches: one step above MAX_SPEED. */
  const TOP_WALK_SPEED: real := MAX_SPEED + WALK_SPEED

  const GRAVITY: real := 20.0
  const MAX_JUMP_HEIGHT: real := 1.0
  /** floor(sqrt(2 * GRAVITY * MAX_JUMP_HEIGHT)) = floor(sqrt(40)) = 6; the
      square root is replaced by its value (see InitialJumpSpeedIsFloorSqrt). */
  const INITIAL_JUMP_SPEED: real := 6.0
  const MAX_JUMP_SPEED: real := INITIAL_JUMP_SPEED + 10.0
  const MIN_JUMP_SPEED: real := INITIAL_JUMP_SPEED
  /** The step of the jump-speed ladder (a literal 5 in the source). */
  const JUMP_SPEED_STEP: real := 5.0
  /** The highest jump speed the ladder reaches: one step above MAX_JUMP_SPEED. */
  const TOP_JUMP_SPEED: real := MAX_JUMP_SPEED + JUMP_SPEED_STEP

  const FLYING_SPEED: real := 15.0
  const MAX_FALL_SPEED: real := 50.0
  const PLAYER_HEIGHT: int := 2

  /** Degrees of rotation per unit of mouse movement. */
  const SIGHT_SENSITIVITY: real := 0.15
  /** Pitch is kept within [-PITCH_LIMIT, PITCH_LIMIT]. */
  const PITCH_LIMIT: real := 90.0

  /** The initial jump speed is the integer part of sqrt(2 * g * h). */
  lemma InitialJumpSpeedIsFloorSqrt()
    ensures INITIAL_JUMP_SPEED.Floor as real == INITIAL_JUMP_SPEED
    ensures INITIAL_JUMP_SPEED * INITIAL_JUMP_SPEED <= 2.0 * GRAVITY * MAX_JUMP_HEIGHT
    ensures 2.0 * GRAVITY * MAX_JUMP_HEIGHT < (INITIAL_JUMP_SPEED + 1.0) * (INITIAL_JUMP_SPEED + 1.0)
  {
  }

  function Min(a: real, b: real): (r: real)
    ensures r <= a && r <= b && (r == a || r == b)
  {
    if a <= b then a else b
  }

  function Max(a: real, b: real): (r: real)
    ensures r >= a && r >= b && (r == a || r == b)
  {
    if a >= b then a else b
  }
}
