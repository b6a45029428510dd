/** The per-tick motion step (speed selection, gravity, flight lift, the
    candidate position handed to the collision checker), the jump, the
    pitch clamp of sight adjustment, and the world-boundary clamp. */
module Physics {
  import opened Constants
  import opened Vectors

  /** current_speed: the flying speed in flight, the walking speed otherwise. */
  function CurrentSpeed(flying: bool, walkingSpeed: real): (r: real)
    ensures flying ==> r == FLYING_SPEED
    ensures !flying ==> r == walkingSpeed
    ensures walkingSpeed > 0.0 ==> r > 0.0
  {
    if flying then FLYING_SPEED else walkingSpeed
  }

  /** The vertical velocity after one tick. In flight it is untouched; on
      foot gravity slows it and it saturates at terminal velocity. */
  function TickVelocity(flying: bool, v: real, dt: real): (r: real)
    ensures flying ==> r == v
    ensures !flying ==> r >= -MAX_FALL_SPEED
    ensures !flying && v - dt * GRAVITY >= -MAX_FALL_SPEED ==> r == v - dt * GRAVITY
    ensures !flying && v - dt * GRAVITY < -MAX_FALL_SPEED ==> r == -MAX_FALL_SPEED
  {
    if flying then v else Max(v - dt * GRAVITY, -MAX_FALL_SPEED)
  }

  /** The vertical direction of flight: +1 ascending, -1 descending, 0 for
      neither or both. */
  function FlightModifier(ascend: bool, descend: bool): (r: int)
    ensures -1 <= r <= 1
    ensures r == 0 <==> ascend == descend
    ensures r == 1 <==> ascend && !descend
    ensures r == -1 <==> descend && !ascend
  {
    (if ascend then 1 else 0) - (if descend then 1 else 0)
  }

  /** The position handed to the collision checker: the current position
      moved by the motion vector scaled to this tick's distance, plus the
      vertical term (the new vertical velocity on foot, the lift in flight).
      `newV` is the vertical velocity after TickVelocity. */
  function TickCandidate(pos: Vec3, motion: Vec3, distance: real, flying: bool,
                         ascend: bool, descend: bool, newV: real, dt: real): (r: Vec3)
    ensures motion.x == 0.0 && motion.z == 0.0 ==> r.x == pos.x && r.z == pos.z
    ensures !flying && motion.y == 0.0 ==> r.y == pos.y + newV * dt
    ensures flying && motion.y == 0.0 ==>
      r.y == pos.y + FlightModifier(ascend, descend) as real * dt * FLYING_SPEED
  {
    var step := Scale(motion, distance);
    var dy := if flying then step.y + FlightModifier(ascend, descend) as real * dt * FLYING_SPEED
              else step.y + newV * dt;
    Vec3(pos.x + step.x, pos.y + dy, pos.z + step.z)
  }

  /** The candidate is the position moved by the motion vector scaled to the
      tick's distance, plus the vertical term of the still candidate; the
      still candidate in flight is the position lifted by
      (ascend - descend)·dt·15, whatever the motion's pitch part. */
  lemma TickCandidateDecomposes(pos: Vec3, motion: Vec3, distance: real, flying: bool,
                                ascend: bool, descend: bool, newV: real, dt: real)
    ensures var r := TickCandidate(pos, motion, distance, flying, ascend, descend, newV, dt);
            var still := TickCandidate(pos, ZERO, distance, flying, ascend, descend, newV, dt);
            r == Vec3(still.x + motion.x * distance, still.y + motion.y * distance,
                      still.z + motion.z * distance)
    ensures flying ==>
      TickCandidate(pos, ZERO, distance, true, ascend, descend, newV, dt)
        == Vec3(pos.x, pos.y + FlightModifier(ascend, descend) as real * dt * FLYING_SPEED, pos.z)
    ensures !flying ==>
      TickCandidate(pos, ZERO, distance, false, ascend, descend, newV, dt)
        == Vec3(pos.x, pos.y + newV * dt, pos.z)
  {
  }

  /** Standing still (no strafe) moves the player neither in x nor in z. */
  lemma StillPlayerKeepsHorizontalPosition(m: MathLib, pos: Vec3, rot: Rotation, strafe: seq<int>,
                                           flying: bool, ascend: bool, descend: bool,
                                           speed: real, newV: real, dt: real)
    requires |strafe| == 2 && strafe[0] == 0 && strafe[1] == 0
    ensures var c := TickCandidate(pos, MotionVector(m, rot, strafe, flying), dt * speed,
                                   flying, ascend, descend, newV, dt);
            c.x == pos.x && c.z == pos.z
  {
  }

  /** On foot the only vertical movement is the velocity term, whatever the strafe. */
  lemma GroundedTickMovesVerticallyByVelocity(m: MathLib, pos: Vec3, rot: Rotation, strafe: seq<int>,
                                              ascend: bool, descend: bool,
                                              speed: real, v: real, dt: real)
    requires |strafe| == 2
    ensures var newV := TickVelocity(false, v, dt);
            TickCandidate(pos, MotionVector(m, rot, strafe, false), dt * speed,
                          false, ascend, descend, newV, dt).y == pos.y + newV * dt
  {
  }

  /** Flying with both ascend and descend held and no strafe: hovering in place. */
  lemma BothFlightFlagsHover(m: MathLib, pos: Vec3, rot: Rotation, strafe: seq<int>,
                             speed: real, v: real, dt: real)
    requires |strafe| == 2 && strafe[0] == 0 && strafe[1] == 0
    ensures TickCandidate(pos, MotionVector(m, rot, strafe, true), dt * speed,
                          true, true, true, TickVelocity(true, v, dt), dt) == pos
  {
  }

  /** jump: only a player whose vertical velocity is exactly zero takes off. */
  function JumpVelocity(v: real, jumpSpeed: real): (r: real)
    ensures v == 0.0 ==> r == jumpSpeed
    ensures v != 0.0 ==> r == v
  {
    if v == 0.0 then jumpSpeed else v
  }

  /** With a non-zero jump speed the velocity changes exactly when grounded,
      and a second jump right after the first does nothing. */
  lemma JumpOnlyFromRest(v: real, jumpSpeed: real)
    requires jumpSpeed != 0.0
    ensures JumpVelocity(v, jumpSpeed) != v <==> v == 0.0
    ensures JumpVelocity(JumpVelocity(v, jumpSpeed), jumpSpeed) == JumpVelocity(v, jumpSpeed)
  {
  }

  /** The pitch clamp of adjust_sight, written like the source as
      max(-90, min(90, p)). */
  function ClampPitch(p: real): (r: real)
    ensures -PITCH_LIMIT <= r <= PITCH_LIMIT
    ensures -PITCH_LIMIT <= p <= PITCH_LIMIT ==> r == p
    ensures p > PITCH_LIMIT ==> r == PITCH_LIMIT
    ensures p < -PITCH_LIMIT ==> r == -PITCH_LIMIT
  {
    Max(-PITCH_LIMIT, Min(PITCH_LIMIT, p))
  }

  /** keep_player_within_coordinates. For a non-negative boundary the result
      lies in [-b, b], equals the input inside that range and the nearest
      bound outside it. */
  function KeepWithinCoordinates(dimension: real, boundarySize: real): (r: real)
    ensures r == dimension || r == boundarySize || r == -boundarySize
    ensures boundarySize >= 0.0 ==> -boundarySize <= r <= boundarySize
    ensures -boundarySize <= dimension <= boundarySize ==> r == dimension
    ensures dimension > boundarySize ==> r == boundarySize
    ensures boundarySize >= 0.0 && dimension < -boundarySize ==> r == -boundarySize
  {
    if dimension > boundarySize then boundarySize
    else if dimension < -boundarySize then -boundarySize
    else dimension
  }

  /** Clamping twice is clamping once. */
  lemma KeepWithinCoordinatesIdempotent(dimension: real, boundarySize: real)
    requires boundarySize >= 0.0
    ensures KeepWithinCoordinates(KeepWithinCoordinates(dimension, boundarySize), boundarySize)
         == KeepWithinCoordinates(dimension, boundarySize)
  {
  }

  /** The two clamps of the player agree: the pitch clamp is the boundary
      clamp with boundary 90. */
  lemma PitchClampIsBoundaryClamp(p: real)
    ensures ClampPitch(p) == KeepWithinCoordinates(p, PITCH_LIMIT)
  {
  }

  /** check_player_within_world_boundaries on a position value: x and z are
      clamped, and y is left as it is. */
  function WithinWorld(pos: Vec3, width: real): (r: Vec3)
    ensures r.y == pos.y
    ensures width >= 0.0 ==> -width <= r.x <= width && -width <= r.z <= width
    ensures -width <= pos.x <= width && -width <= pos.z <= width ==> r == pos
  {
    Vec3(KeepWithinCoordinates(pos.x, width), pos.y, KeepWithinCoordinates(pos.z, width))
  }
}
