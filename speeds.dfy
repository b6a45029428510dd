/** The walking-speed and jump-speed ladders: one step of each operation as a
    function of the current speed, and what repeated steps reach.

    Both increases test the guard BEFORE adding, so each ladder tops out one
    step above its named maximum: walking at 20 (guard 15), jumping at 21
    (guard 16). */
module Speeds {
  import opened Constants

  /** The walking speeds reachable from the start by increases and decreases. */
  predicate OnWalkLadder(s: real)
  {
    s == 5.0 || s == 10.0 || s == 15.0 || s == 20.0
  }

  /** The jump speeds reachable from the initial jump speed. */
  predicate OnJumpLadder(s: real)
  {
    s == 6.0 || s == 11.0 || s == 16.0 || s == 21.0
  }

  /** increase_walk_speed. It never lowers the speed, never takes a speed at or
      below the top past the top, and keeps the ladder closed. */
  function WalkSpeedUp(s: real): (r: real)
    ensures r >= s
    ensures s <= TOP_WALK_SPEED ==> r <= TOP_WALK_SPEED
    ensures OnWalkLadder(s) ==> OnWalkLadder(r)
    ensures r != s <==> s <= MAX_SPEED
  {
    if s <= MAX_SPEED then s + WALK_SPEED else s
  }

  /** decrease_walk_speed. It never raises the speed, keeps a positive speed
      positive and keeps the ladder closed. */
  function WalkSpeedDown(s: real): (r: real)
    ensures r <= s
    ensures s > 0.0 ==> r > 0.0
    ensures OnWalkLadder(s) ==> OnWalkLadder(r)
    ensures r != s <==> s > MIN_SPEED
  {
    if s > MIN_SPEED then s - WALK_SPEED else s
  }

  /** increase_jump_speed: closes the jump ladder and stays below its top. */
  function JumpSpeedUp(s: real): (r: real)
    ensures r >= s
    ensures s <= TOP_JUMP_SPEED ==> r <= TOP_JUMP_SPEED
    ensures OnJumpLadder(s) ==> OnJumpLadder(r)
    ensures r != s <==> s <= MAX_JUMP_SPEED
  {
    if s <= MAX_JUMP_SPEED then s + JUMP_SPEED_STEP else s
  }

  /** decrease_jump_speed: closes the jump ladder and never takes a ladder
      value below the initial jump speed. */
  function JumpSpeedDown(s: real): (r: real)
    ensures r <= s
    ensures OnJumpLadder(s) ==> OnJumpLadder(r) && r >= MIN_JUMP_SPEED
    ensures r != s <==> s > MIN_JUMP_SPEED
  {
    if s > MIN_JUMP_SPEED then s - JUMP_SPEED_STEP else s
  }

  /** Applying a speed step n times. */
  function Repeat(step: real -> real, s: real, n: nat): real
    decreases n
  {
    if n == 0 then s else Repeat(step, step(s), n - 1)
  }

  /** From any ladder value, n increases climb n steps and then stay at 20. */
  lemma {:induction false} WalkSpeedUpRepeated(s: real, n: nat)
    requires OnWalkLadder(s)
    ensures Repeat(WalkSpeedUp, s, n) == Min(s + WALK_SPEED * n as real, TOP_WALK_SPEED)
    decreases n
  {
    if n > 0 {
      WalkSpeedUpRepeated(WalkSpeedUp(s), n - 1);
    }
  }

  /** From the starting speed: 10, 15, 20 after one, two, three increases,
      and 20 after any number beyond. */
  lemma WalkSpeedUpFromStart(n: nat)
    ensures n <= 3 ==> Repeat(WalkSpeedUp, WALK_SPEED, n) == WALK_SPEED * (n + 1) as real
    ensures n >= 3 ==> Repeat(WalkSpeedUp, WALK_SPEED, n) == TOP_WALK_SPEED
  {
    WalkSpeedUpRepeated(WALK_SPEED, n);
  }

  /** From any ladder value, n decreases descend n steps and then stay at 5. */
  lemma {:induction false} WalkSpeedDownRepeated(s: real, n: nat)
    requires OnWalkLadder(s)
    ensures Repeat(WalkSpeedDown, s, n) == Max(s - WALK_SPEED * n as real, MIN_SPEED)
    decreases n
  {
    if n > 0 {
      WalkSpeedDownRepeated(WalkSpeedDown(s), n - 1);
    }
  }

  /** No number of decreases stops a moving player. */
  lemma {:induction false} WalkSpeedDownStaysPositive(s: real, n: nat)
    requires s > 0.0
    ensures Repeat(WalkSpeedDown, s, n) > 0.0
    decreases n
  {
    if n > 0 {
      WalkSpeedDownStaysPositive(WalkSpeedDown(s), n - 1);
    }
  }

  /** From any jump-ladder value, n increases climb n steps and stay at 21. */
  lemma {:induction false} JumpSpeedUpRepeated(s: real, n: nat)
    requires OnJumpLadder(s)
    ensures Repeat(JumpSpeedUp, s, n) == Min(s + JUMP_SPEED_STEP * n as real, TOP_JUMP_SPEED)
    decreases n
  {
    if n > 0 {
      JumpSpeedUpRepeated(JumpSpeedUp(s), n - 1);
    }
  }

  /** From any jump-ladder value, n decreases descend n steps and stay at 6. */
  lemma {:induction false} JumpSpeedDownRepeated(s: real, n: nat)
    requires OnJumpLadder(s)
    ensures Repeat(JumpSpeedDown, s, n) == Max(s - JUMP_SPEED_STEP * n as real, MIN_JUMP_SPEED)
    decreases n
  {
    if n > 0 {
      JumpSpeedDownRepeated(JumpSpeedDown(s), n - 1);
    }
  }

  /** A key press on one of the two ladders' keys. */
  datatype SpeedKey = WalkFaster | WalkSlower | JumpHigher | JumpLower

  /** The (walking, jump) speeds after a sequence of key presses. */
  function ApplyKeys(walk: real, jump: real, keys: seq<SpeedKey>): (real, real)
    decreases |keys|
  {
    if keys == [] then (walk, jump)
    else
      var (w, j) := match keys[0]
        case WalkFaster => (WalkSpeedUp(walk), jump)
        case WalkSlower => (WalkSpeedDown(walk), jump)
        case JumpHigher => (walk, JumpSpeedUp(jump))
        case JumpLower => (walk, JumpSpeedDown(jump));
      ApplyKeys(w, j, keys[1..])
  }

  /** Whatever keys are pressed, both speeds stay on their ladders. */
  lemma {:induction false} KeysKeepLadders(walk: real, jump: real, keys: seq<SpeedKey>)
    requires OnWalkLadder(walk) && OnJumpLadder(jump)
    ensures OnWalkLadder(ApplyKeys(walk, jump, keys).0)
    ensures OnJumpLadder(ApplyKeys(walk, jump, keys).1)
    decreases |keys|
  {
    if keys != [] {
      match keys[0]
      case WalkFaster => KeysKeepLadders(WalkSpeedUp(walk), jump, keys[1..]);
      case WalkSlower => KeysKeepLadders(WalkSpeedDown(walk), jump, keys[1..]);
      case JumpHigher => KeysKeepLadders(walk, JumpSpeedUp(jump), keys[1..]);
      case JumpLower => KeysKeepLadders(walk, JumpSpeedDown(jump), keys[1..]);
    }
  }
}
