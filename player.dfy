/** The Player object: its state, the operations that change it, and a few
    scenarios that drive a fresh player through those operations. */
module PlayerModel {
  import opened Constants
  import opened Vectors
  import opened Speeds
  import opened Physics

  /** The block kinds the player's inventory holds; their textures and the
      rest of the block catalog are not part of this model. */
  datatype Block = Brick | Grass | Sand | TreeTrunk | TreeLeaves | LightCloud | DarkCloud

  const DEFAULT_INVENTORY: seq<Block> :=
    [Brick, Grass, Sand, TreeTrunk, TreeLeaves, LightCloud, DarkCloud]

  /** Index of the forward(-1)/backward(+1) strafe component. */
  const FORWARD_BACK: nat := 0
  /** Index of the left(-1)/right(+1) strafe component. */
  const LEFT_RIGHT: nat := 1

  /** A move_* or stop_* key event: one strafe component shifted by delta,
      the other one kept. */
  function Nudge(strafe: seq<int>, axis: nat, delta: int): (r: seq<int>)
    requires |strafe| == 2 && axis < 2
    ensures |r| == 2
    ensures r[axis] == strafe[axis] + delta
    ensures r[1 - axis] == strafe[1 - axis]
  {
    strafe[axis := strafe[axis] + delta]
  }

  /** A stop undoes the matching move, and a move undoes the matching stop. */
  lemma NudgeUndone(strafe: seq<int>, axis: nat, delta: int)
    requires |strafe| == 2 && axis < 2
    ensures Nudge(Nudge(strafe, axis, delta), axis, -delta) == strafe
  {
  }

  /** The slot select_active_item picks: Python's `index % size`, which for a
      positive size is never negative, as Dafny's `%` is. An index that is
      already a slot picks itself. */
  function SlotIndex(index: int, size: nat): (k: nat)
    requires size > 0
    ensures k < size
    ensures 0 <= index < size ==> k == index
  {
    index % size
  }

  /** The remainder is determined by any quotient/remainder split. */
  lemma RemainderUnique(a: int, n: nat, q: int, r: int)
    requires n > 0 && 0 <= r < n && a == q * n + r
    ensures a % n == r
  {
    var q0, r0 := a / n, a % n;
    var k := q - q0;
    assert k * n == q * n - q0 * n;
    assert k * n == r0 - r;
  }

  /** Selection is periodic in the inventory size, and -1 is the last slot. */
  lemma SlotIndexPeriodic(index: int, size: nat)
    requires size > 0
    ensures SlotIndex(index + size, size) == SlotIndex(index, size)
    ensures SlotIndex(-1, size) == size - 1
  {
    var q := index / size;
    RemainderUnique(index + size, size, q + 1, index % size);
    RemainderUnique(-1, size, -1, size - 1);
  }

  class Player {
    var walkingSpeed: real
    var jumpSpeed: real
    var flying: bool
    /** Set by the input layer while the ascend or descend key is held. */
    var ascend: bool
    var descend: bool
    /** [forward/back, left/right], each -1, 0 or +1 under paired key events. */
    var strafe: seq<int>
    var position: Vec3
    var rotation: Rotation
    var verticalVelocity: real
    const inventory: seq<Block>
    var selectedBlock: Block

    /** What every operation keeps. */
    ghost predicate Valid()
      reads this
    {
      |strafe| == 2 &&
      inventory == DEFAULT_INVENTORY &&
      selectedBlock in inventory &&
      -PITCH_LIMIT <= rotation.pitch <= PITCH_LIMIT &&
      walkingSpeed > 0.0 &&
      OnJumpLadder(jumpSpeed) &&
      verticalVelocity >= -MAX_FALL_SPEED
    }

    constructor ()
      ensures Valid()
      ensures walkingSpeed == WALK_SPEED && jumpSpeed == INITIAL_JUMP_SPEED
      ensures !flying && !ascend && !descend
      ensures strafe == [0, 0]
      ensures position == ZERO && rotation == Rotation(0.0, 0.0) && verticalVelocity == 0.0
      ensures inventory == DEFAULT_INVENTORY && selectedBlock == inventory[0]
    {
      jumpSpeed := INITIAL_JUMP_SPEED;
      walkingSpeed := WALK_SPEED;
      flying, ascend, descend := false, false, false;
      strafe := [0, 0];
      position := ZERO;
      rotation := Rotation(0.0, 0.0);
      verticalVelocity := 0.0;
      inventory := DEFAULT_INVENTORY;
      selectedBlock := DEFAULT_INVENTORY[0];
    }

    method IncreaseWalkSpeed()
      requires Valid()
      modifies this`walkingSpeed
      ensures Valid()
      ensures walkingSpeed == WalkSpeedUp(old(walkingSpeed))
    {
      if walkingSpeed <= MAX_SPEED {
        walkingSpeed := walkingSpeed + WALK_SPEED;
      }
    }

    method DecreaseWalkSpeed()
      requires Valid()
      modifies this`walkingSpeed
      ensures Valid()
      ensures walkingSpeed == WalkSpeedDown(old(walkingSpeed))
    {
      if walkingSpeed > MIN_SPEED {
        walkingSpeed := walkingSpeed - WALK_SPEED;
      }
    }

    method IncreaseJumpSpeed()
      requires Valid()
      modifies this`jumpSpeed
      ensures Valid()
      ensures jumpSpeed == JumpSpeedUp(old(jumpSpeed))
    {
      if jumpSpeed <= MAX_JUMP_SPEED {
        jumpSpeed := jumpSpeed + JUMP_SPEED_STEP;
      }
    }

    method DecreaseJumpSpeed()
      requires Valid()
      modifies this`jumpSpeed
      ensures Valid()
      ensures jumpSpeed == JumpSpeedDown(old(jumpSpeed))
    {
      if jumpSpeed > MIN_JUMP_SPEED {
        jumpSpeed := jumpSpeed - JUMP_SPEED_STEP;
      }
    }

    method MoveForward()
      requires Valid()
      modifies this`strafe
      ensures Valid()
      ensures strafe == Nudge(old(strafe), FORWARD_BACK, -1)
    {
      strafe := strafe[FORWARD_BACK := strafe[FORWARD_BACK] - 1];
    }

    method MoveBackward()
      requires Valid()
      modifies this`strafe
      ensures Valid()
      ensures strafe == Nudge(old(strafe), FORWARD_BACK, 1)
    {
      strafe := strafe[FORWARD_BACK := strafe[FORWARD_BACK] + 1];
    }

    method MoveLeft()
      requires Valid()
      modifies this`strafe
      ensures Valid()
      ensures strafe == Nudge(old(strafe), LEFT_RIGHT, -1)
    {
      strafe := strafe[LEFT_RIGHT := strafe[LEFT_RIGHT] - 1];
    }

    method MoveRight()
      requires Valid()
      modifies this`strafe
      ensures Valid()
      ensures strafe == Nudge(old(strafe), LEFT_RIGHT, 1)
    {
      strafe := strafe[LEFT_RIGHT := strafe[LEFT_RIGHT] + 1];
    }

    method StopForward()
      requires Valid()
      modifies this`strafe
      ensures Valid()
      ensures strafe == Nudge(old(strafe), FORWARD_BACK, 1)
    {
      strafe := strafe[FORWARD_BACK := strafe[FORWARD_BACK] + 1];
    }

    method StopBackward()
      requires Valid()
      modifies this`strafe
      ensures Valid()
      ensures strafe == Nudge(old(strafe), FORWARD_BACK, -1)
    {
      strafe := strafe[FORWARD_BACK := strafe[FORWARD_BACK] - 1];
    }

    method StopLeft()
      requires Valid()
      modifies this`strafe
      ensures Valid()
      ensures strafe == Nudge(old(strafe), LEFT_RIGHT, 1)
    {
      strafe := strafe[LEFT_RIGHT := strafe[LEFT_RIGHT] + 1];
    }

    method StopRight()
      requires Valid()
      modifies this`strafe
      ensures Valid()
      ensures strafe == Nudge(old(strafe), LEFT_RIGHT, -1)
    {
      strafe := strafe[LEFT_RIGHT := strafe[LEFT_RIGHT] - 1];
    }

    method Jump()
      requires Valid()
      modifies this`verticalVelocity
      ensures Valid()
      ensures verticalVelocity == JumpVelocity(old(verticalVelocity), jumpSpeed)
    {
      if verticalVelocity == 0.0 {
        verticalVelocity := jumpSpeed;
      }
    }

    method SelectActiveItem(index: int)
      requires Valid()
      modifies this`selectedBlock
      ensures Valid()
      ensures selectedBlock == inventory[SlotIndex(index, |inventory|)]
    {
      var selectedIndex := index % |inventory|;
      selectedBlock := inventory[selectedIndex];
    }

    /** Mouse movement turns the view: yaw without bound, pitch clamped. */
    method AdjustSight(dx: int, dy: int)
      requires Valid()
      modifies this`rotation
      ensures Valid()
      ensures rotation.yaw == old(rotation.yaw) + dx as real * SIGHT_SENSITIVITY
      ensures rotation.pitch == ClampPitch(old(rotation.pitch) + dy as real * SIGHT_SENSITIVITY)
    {
      var x := dx as real * SIGHT_SENSITIVITY + rotation.yaw;
      var y := dy as real * SIGHT_SENSITIVITY + rotation.pitch;
      y := Max(-PITCH_LIMIT, Min(PITCH_LIMIT, y));
      rotation := Rotation(x, y);
    }

    method ToggleFlight()
      requires Valid()
      modifies this`flying
      ensures Valid()
      ensures flying == !old(flying)
    {
      flying := !flying;
    }

    /** One tick of motion: the walking or flying distance along the motion
        vector, gravity or flight lift vertically, and the collision checker
        (given the candidate position and the player height) decides the new
        position. */
    method Update(dt: real, collisionChecker: (Vec3, int) -> Vec3, m: MathLib)
      requires Valid()
      modifies this`position, this`verticalVelocity
      ensures Valid()
      ensures verticalVelocity == TickVelocity(flying, old(verticalVelocity), dt)
      ensures position == collisionChecker(
        TickCandidate(old(position), MotionVector(m, rotation, strafe, flying),
                      dt * CurrentSpeed(flying, walkingSpeed),
                      flying, ascend, descend, verticalVelocity, dt),
        PLAYER_HEIGHT)
    {
      var distance := dt * CurrentSpeed(flying, walkingSpeed);
      var motion := MotionVector(m, rotation, strafe, flying);
      verticalVelocity := TickVelocity(flying, verticalVelocity, dt);
      var candidate := TickCandidate(position, motion, distance, flying, ascend, descend, verticalVelocity, dt);
      position := collisionChecker(candidate, PLAYER_HEIGHT);
      assert motion == MotionVector(m, rotation, strafe, flying);
      assert distance == dt * CurrentSpeed(flying, walkingSpeed);
    }

    /** Snap x and z back into the square world of half-width `worldWidth`. */
    method CheckWithinWorldBoundaries(worldWidth: nat)
      requires Valid()
      modifies this`position
      ensures Valid()
      ensures position == WithinWorld(old(position), worldWidth as real)
    {
      var x := KeepWithinCoordinates(position.x, worldWidth as real);
      var z := KeepWithinCoordinates(position.z, worldWidth as real);
      position := Vec3(x, position.y, z);
    }

    /** Requires the default walking speed, as the source asserts; leaves a
        third of it. */
    method SlowWalkingSpeed()
      requires Valid()
      requires walkingSpeed == WALK_SPEED
      modifies this`walkingSpeed
      ensures Valid()
      ensures walkingSpeed == WALK_SPEED / 3.0
    {
      walkingSpeed := walkingSpeed / 3.0;
    }

    method ResetWalkingSpeed()
      requires Valid()
      modifies this`walkingSpeed
      ensures Valid()
      ensures walkingSpeed == WALK_SPEED
    {
      walkingSpeed := WALK_SPEED;
    }

    /** Sprinting doubles the walking speed, with no ceiling. */
    method StartSprinting()
      requires Valid()
      modifies this`walkingSpeed
      ensures Valid()
      ensures walkingSpeed == 2.0 * old(walkingSpeed)
    {
      walkingSpeed := walkingSpeed * 2.0;
    }
  }

  /** A fresh player: four walking-speed increases give 10, 15, 20, 20, and
      four decreases from there give 15, 10, 5, 5. */
  method WalkLadderScenario() returns (ups: seq<real>, downs: seq<real>)
    ensures ups == [10.0, 15.0, 20.0, 20.0]
    ensures downs == [15.0, 10.0, 5.0, 5.0]
  {
    var p := new Player();
    ups, downs := [], [];
    p.IncreaseWalkSpeed(); ups := ups + [p.walkingSpeed];
    p.IncreaseWalkSpeed(); ups := ups + [p.walkingSpeed];
    p.IncreaseWalkSpeed(); ups := ups + [p.walkingSpeed];
    p.IncreaseWalkSpeed(); ups := ups + [p.walkingSpeed];
    p.DecreaseWalkSpeed(); downs := downs + [p.walkingSpeed];
    p.DecreaseWalkSpeed(); downs := downs + [p.walkingSpeed];
    p.DecreaseWalkSpeed(); downs := downs + [p.walkingSpeed];
    p.DecreaseWalkSpeed(); downs := downs + [p.walkingSpeed];
  }

  /** A fresh player jumps at the initial jump speed; one already moving
      vertically (after a jump) does not jump again. */
  method JumpScenario() returns (first: real, second: real)
    ensures first == INITIAL_JUMP_SPEED && second == INITIAL_JUMP_SPEED
  {
    var p := new Player();
    p.Jump();
    first := p.verticalVelocity;
    p.Jump();
    second := p.verticalVelocity;
  }

  /** Each move followed by its stop leaves the strafe at rest. */
  method StrafeScenario() returns (moving: seq<int>, stopped: seq<int>)
    ensures moving == [-1, 1] && stopped == [0, 0]
  {
    var p := new Player();
    p.MoveForward();
    p.MoveRight();
    moving := p.strafe;
    p.StopRight();
    p.StopForward();
    stopped := p.strafe;
  }

  /** Selecting 0, the size plus one, and -1 on a fresh player. */
  method SelectionScenario() returns (atZero: Block, pastEnd: Block, atMinusOne: Block)
    ensures atZero == Brick && pastEnd == Grass && atMinusOne == DarkCloud
  {
    var p := new Player();
    p.SelectActiveItem(0);
    atZero := p.selectedBlock;
    p.SelectActiveItem(|p.inventory| + 1);
    pastEnd := p.selectedBlock;
    p.SelectActiveItem(-1);
    atMinusOne := p.selectedBlock;
  }

  /** Looking 700 units up from level clamps at 90; 700 down from there ends
      at -15, and 700 down from level clamps at -90. */
  method SightScenario() returns (up: real, thenDown: real, downFromLevel: real, yaw: real)
    ensures up == 90.0 && thenDown == -15.0 && downFromLevel == -90.0
    ensures yaw == 0.15
  {
    var p := new Player();
    p.AdjustSight(0, 700);
    up := p.rotation.pitch;
    p.AdjustSight(0, -700);
    thenDown := p.rotation.pitch;
    var q := new Player();
    q.AdjustSight(0, -700);
    downFromLevel := q.rotation.pitch;
    q.AdjustSight(1, 0);
    yaw := q.rotation.yaw;
  }

  /** A fresh player walking forward for one second with a collision checker
      that accepts every position: it covers 5 blocks along its heading and
      falls 20 blocks at 20 blocks per second. */
  method FirstTickScenario(m: MathLib) returns (v: real, pos: Vec3)
    ensures v == -20.0
    ensures var heading := HeadingAngle(m, Rotation(0.0, 0.0), [-1, 0]);
            pos == Vec3(m.cos(heading) * 5.0, -20.0, m.sin(heading) * 5.0)
  {
    var p := new Player();
    p.MoveForward();
    p.Update(1.0, (c: Vec3, h: int) => c, m);
    v := p.verticalVelocity;
    pos := p.position;
  }

  /** A player standing still in flight with both flight keys held stays put. */
  method HoverScenario(m: MathLib, dt: real) returns (before: Vec3, after: Vec3, v: real)
    ensures after == before && v == 0.0
  {
    var p := new Player();
    p.ToggleFlight();
    p.ascend, p.descend := true, true;
    before := p.position;
    p.Update(dt, (c: Vec3, h: int) => c, m);
    after := p.position;
    v := p.verticalVelocity;
  }

  /** A player pushed outside the world is snapped to its edge in x and z. */
  method BoundaryScenario(m: MathLib) returns (pos: Vec3)
    ensures pos == Vec3(10.0, 3.0, -10.0)
  {
    var p := new Player();
    p.Update(1.0, (c: Vec3, h: int) => Vec3(25.0, 3.0, -40.0), m);
    p.CheckWithinWorldBoundaries(10);
    pos := p.position;
  }

  /** Toggling flight twice returns to walking, and speed follows the mode. */
  method FlightScenario() returns (speedFlying: real, speedWalking: real, flyingAfterTwo: bool)
    ensures speedFlying == FLYING_SPEED && speedWalking == WALK_SPEED && !flyingAfterTwo
  {
    var p := new Player();
    p.ToggleFlight();
    speedFlying := CurrentSpeed(p.flying, p.walkingSpeed);
    p.ToggleFlight();
    speedWalking := CurrentSpeed(p.flying, p.walkingSpeed);
    flyingAfterTwo := p.flying;
  }

  /** Sneaking takes the walking speed to 5/3, and reset brings back 5;
      sprinting from there doubles it past the ladder's top when repeated. */
  method SneakSprintScenario() returns (sneaking: real, reset: real, sprinting: real)
    ensures sneaking == 5.0 / 3.0 && reset == 5.0 && sprinting == 40.0
  {
    var p := new Player();
    p.SlowWalkingSpeed();
    sneaking := p.walkingSpeed;
    p.ResetWalkingSpeed();
    reset := p.walkingSpeed;
    p.StartSprinting();
    p.StartSprinting();
    p.StartSprinting();
    sprinting := p.walkingSpeed;
  }
}
