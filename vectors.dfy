/** The direction vectors the player derives from its rotation and its
    strafe intent: where it looks and where it moves this tick.

    The trigonometry is not modelled: sine, cosine, atan2 and the
    degree/radian conversions come in as a `MathLib` value whose functions
    are arbitrary. What is proved is what follows from the branch structure
    alone, for every choice of those functions. */
module Vectors {
  datatype Vec3 = Vec3(x: real, y: real, z: real)

  const ZERO: Vec3 := Vec3(0.0, 0.0, 0.0)

  /** Yaw in the ground plane (unbounded) and pitch above it, in degrees. */
  datatype Rotation = Rotation(yaw: real, pitch: real)

  /** The functions of the host math library that the player calls. */
  datatype MathLib = MathLib(
    sin: real -> real,
    cos: real -> real,
    atan2: (real, real) -> real,
    radians: real -> real,
    degrees: real -> real)

  function Scale(v: Vec3, k: real): Vec3
  {
    Vec3(v.x * k, v.y * k, v.z * k)
  }

  /** True when some strafe component is non-zero (Python's `any`). */
  predicate Strafing(strafe: seq<int>)
    requires |strafe| == 2
  {
    strafe[0] != 0 || strafe[1] != 0
  }

  /** The line-of-sight vector for a rotation. Looking straight up or down
      (cosine of the pitch zero) leaves no horizontal component; looking
      level (sine zero, cosine one) gives no vertical one and points along
      yaw - 90 degrees in the ground plane. */
  function SightVector(m: MathLib, rot: Rotation): (r: Vec3)
    ensures m.cos(m.radians(rot.pitch)) == 0.0 ==> r.x == 0.0 && r.z == 0.0
    ensures m.sin(m.radians(rot.pitch)) == 0.0 && m.cos(m.radians(rot.pitch)) == 1.0 ==>
      r == Vec3(m.cos(m.radians(rot.yaw - 90.0)), 0.0, m.sin(m.radians(rot.yaw - 90.0)))
  {
    var horizontal := m.cos(m.radians(rot.pitch));
    var dy := m.sin(m.radians(rot.pitch));
    var yawRad := m.radians(rot.yaw - 90.0);
    Vec3(m.cos(yawRad) * horizontal, dy, m.sin(yawRad) * horizontal)
  }

  /** The heading angle (radians) of a motion: yaw turned by the strafe
      angle atan2(strafe[0], strafe[1]), in that argument order. */
  function HeadingAngle(m: MathLib, rot: Rotation, strafe: seq<int>): real
    requires |strafe| == 2
  {
    m.radians(rot.yaw + m.degrees(m.atan2(strafe[0] as real, strafe[1] as real)))
  }

  /** The per-tick motion direction, before it is scaled by the distance.
      No strafe gives the zero vector. On the ground the vertical part is
      zero; in flight it is zero too whenever the strafe has a sideways part,
      and moving backward mirrors the pitch. */
  function MotionVector(m: MathLib, rot: Rotation, strafe: seq<int>, flying: bool): (r: Vec3)
    requires |strafe| == 2
    ensures !Strafing(strafe) ==> r == ZERO
    ensures !flying ==> r.y == 0.0
    ensures flying && strafe[1] != 0 ==> r.y == 0.0
    ensures flying && strafe[1] == 0 && strafe[0] > 0 ==> r.y == -m.sin(m.radians(rot.pitch))
    ensures flying && strafe[1] == 0 && strafe[0] < 0 ==> r.y == m.sin(m.radians(rot.pitch))
  {
    if Strafing(strafe) then
      var xAngle := HeadingAngle(m, rot, strafe);
      var yAngle := m.radians(rot.pitch);
      if flying then
        // A sideways component ignores the pitch entirely.
        var horizontal := if strafe[1] != 0 then 1.0 else m.cos(yAngle);
        var rise := if strafe[1] != 0 then 0.0 else m.sin(yAngle);
        var dy := if strafe[0] > 0 then -rise else rise;
        Vec3(m.cos(xAngle) * horizontal, dy, m.sin(xAngle) * horizontal)
      else
        Vec3(m.cos(xAngle), 0.0, m.sin(xAngle))
    else
      ZERO
  }

  /** On the ground the look pitch has no influence on motion. */
  lemma GroundMotionIgnoresPitch(m: MathLib, yaw: real, p1: real, p2: real, strafe: seq<int>)
    requires |strafe| == 2
    ensures MotionVector(m, Rotation(yaw, p1), strafe, false) == MotionVector(m, Rotation(yaw, p2), strafe, false)
  {
  }

  /** Flying with a sideways strafe component moves exactly as walking does. */
  lemma SidewaysFlightMatchesWalking(m: MathLib, rot: Rotation, strafe: seq<int>)
    requires |strafe| == 2 && strafe[1] != 0
    ensures MotionVector(m, rot, strafe, true) == MotionVector(m, rot, strafe, false)
  {
  }
}
