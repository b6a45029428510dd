# Tempus Fugit Minecraft: the player's motion core in Dafny

This project models the `Player` class of Tempus Fugit Minecraft
(`tempus_fugit_minecraft/player.py`). The class holds one player's state:
- walking speed and jump speed, each adjusted by keys on a stepped ladder;
- vertical velocity, integrated under gravity with a terminal fall speed;
- rotation, as yaw and a pitch clamped to [-90, 90];
- position, strafe intent, flight flags, and the inventory with its selected block.

Once per tick, `update` builds a candidate position and hands it to an external
collision checker. Afterwards the caller clamps the horizontal position to the
world's boundary.

Layout, one module per part of the class:

- `constants.dfy` (`Constants`): the tunables the constructor sets, plus `Min`/`Max`.
- `vectors.dfy` (`Vectors`): the sight and motion vectors. The trigonometry is passed in as a `MathLib` value.
- `speeds.dfy` (`Speeds`): one step of each walk/jump speed operation as a function. Also lemmas about repeated steps and any sequence of speed keys.
- `physics.dfy` (`Physics`): speed selection, gravity and flight lift, the candidate position, the jump rule, and the pitch/boundary clamps.
- `player.dfy` (`PlayerModel`): the `Player` class, which has mutable fields and methods that modify them. Also the inventory selection, the strafe key events, and scenario methods that drive a fresh player as the test suite does, plus four scenarios of `update`, the boundary clamp and sneak/sprint.

The `Player` class has an object invariant, `Valid()`. Every method keeps it:
- the strafe pair has two components;
- the inventory is the seven default blocks and the selected block is one of them;
- the pitch is within [-90, 90];
- the walking speed is positive;
- the jump speed is on its ladder {6, 11, 16, 21};
- the vertical velocity is never below -50.

Each state-changing method relates its new state to a pure function of the
old state. The properties are proved about those functions.

Modelling choices:
- All speeds, velocities, angles and coordinates are Dafny `real`. The 5/3 sneak speed, the 0.15 sight factor and `dt * speed` are therefore exact.
- `INITIAL_JUMP_SPEED` is the literal 6, which is `int(sqrt(2 * 20 * 1.0))`. `InitialJumpSpeedIsFloorSqrt` shows that 6 is the floor of sqrt(40).
- `World.WIDTH_FROM_ORIGIN_IN_BLOCKS` is a `nat` parameter of `CheckWithinWorldBoundaries`.
- The collision checker is a total function parameter `(Vec3, int) -> Vec3`.
- `math.sin`, `math.cos`, `math.atan2`, `math.radians` and `math.degrees` are the fields of a `MathLib` parameter and can be any functions.
- `current_speed`, `get_sight_vector` and `get_motion_vector` only read fields. They are modelled as functions of the field values: `CurrentSpeed`, `SightVector`, `MotionVector`.
- `strafe_unit_vector` is a `seq<int>` field. The move/stop methods reassign it with one component changed.

Three details of the code that are easy to misread, and that the model keeps:
- `get_motion_vector` calls `atan2(strafe[0], strafe[1])`: forward/back is the first argument. The model keeps that order (`HeadingAngle`).
- `adjust_sight(0, 700)` from level pitch gives 90, and `adjust_sight(0, -700)` from level gives -90. Applied one after the other, the second call ends at -15, not -90, because 90 - 105 = -15. The tests reset the rotation between the two. `SightScenario` proves both outcomes.
- Both speed increases check their guard before adding, so each ladder ends one step above its named maximum: walking at 20 (guard 15), jumping at 21 (guard `MAX_JUMP_SPEED` = 16). The model keeps both ceilings. `tests/test_speed.py:26` confirms 20 as the intended walking maximum.

## Model

| member | source | states |
|---|---|---|
| Constants.InitialJumpSpeedIsFloorSqrt | tempus_fugit_minecraft/player.py:18-35 | the initial jump speed 6 is an integer with 6² ≤ 2·g·h = 40 < 7², i.e. int(sqrt(40)) |
| Vectors.SightVector | tempus_fugit_minecraft/player.py:67-81 | looking straight up/down (cos of pitch 0) gives no horizontal component; looking level gives dy = 0 and the yaw−90° ground direction |
| Vectors.MotionVector | tempus_fugit_minecraft/player.py:83-116 | no strafe gives the zero vector; on the ground dy = 0; in flight with a sideways component dy = 0; flying straight back mirrors the pitch's sine, straight forward follows it |
| Vectors.GroundMotionIgnoresPitch | tempus_fugit_minecraft/player.py:108-111 | on the ground the motion vector is the same for every pitch |
| Vectors.SidewaysFlightMatchesWalking | tempus_fugit_minecraft/player.py:94-111 | flying with a left/right component moves exactly as walking does (pitch ignored, full horizontal factor) |
| Speeds.WalkSpeedUp | tempus_fugit_minecraft/player.py:128-129 | the speed changes exactly when it is ≤ 15; it never decreases, never passes 20 from ≤ 20, and keeps {5,10,15,20} closed |
| Speeds.WalkSpeedDown | tempus_fugit_minecraft/player.py:139-140 | the speed changes exactly when it is > 5; it never increases, keeps a positive speed positive, and keeps {5,10,15,20} closed |
| Speeds.JumpSpeedUp | tempus_fugit_minecraft/player.py:147-148 | the jump speed changes exactly when it is ≤ 16; it never passes 21 from ≤ 21 and keeps {6,11,16,21} closed |
| Speeds.JumpSpeedDown | tempus_fugit_minecraft/player.py:155-156 | the jump speed changes exactly when it is > 6; ladder values stay on {6,11,16,21} and never drop below 6 |
| Speeds.WalkSpeedUpRepeated | tempus_fugit_minecraft/player.py:128-129 | n increases from any ladder value give min(s + 5n, 20) |
| Speeds.WalkSpeedUpFromStart | tests/test_speed.py:15-26 | from 5, one/two/three increases give 10/15/20, and any number ≥ 3 gives 20 |
| Speeds.WalkSpeedDownRepeated | tempus_fugit_minecraft/player.py:139-140 | n decreases from any ladder value give max(s − 5n, 5) |
| Speeds.WalkSpeedDownStaysPositive | tests/test_speed.py:28-40 | no number of decreases takes a positive walking speed to zero or below |
| Speeds.JumpSpeedUpRepeated | tempus_fugit_minecraft/player.py:142-148 | n increases from any jump-ladder value give min(s + 5n, 21) |
| Speeds.JumpSpeedDownRepeated | tempus_fugit_minecraft/player.py:150-156 | n decreases from any jump-ladder value give max(s − 5n, 6) |
| Speeds.KeysKeepLadders | tempus_fugit_minecraft/player.py:118-156 | after any sequence of walk/jump speed keys from ladder values, both speeds are still on their ladders |
| Physics.CurrentSpeed | tempus_fugit_minecraft/player.py:245-250 | flying speed 15 in flight, the walking speed otherwise; positive when the walking speed is |
| Physics.TickVelocity | tempus_fugit_minecraft/player.py:277-283 | in flight the vertical velocity is unchanged; on foot it becomes v − 20·dt, saturating at −50, so it is ≥ −50 |
| Physics.FlightModifier | tempus_fugit_minecraft/player.py:284-292 | the flight direction is in {−1, 0, 1}: +1 exactly for ascend alone, −1 for descend alone, 0 for neither or both |
| Physics.TickCandidate | tempus_fugit_minecraft/player.py:270-296 | a motion without horizontal part keeps x and z; with no vertical motion part, y moves by v·dt on foot and by modifier·dt·15 in flight |
| Physics.TickCandidateDecomposes | tempus_fugit_minecraft/player.py:274-296 | for every motion (pitched flight included) the candidate is the position plus motion·distance plus the vertical term; that term is (ascend − descend)·dt·15 in flight and v·dt on foot |
| Physics.StillPlayerKeepsHorizontalPosition | tempus_fugit_minecraft/player.py:89-116 | with strafe (0,0), the candidate's x and z are the current x and z |
| Physics.GroundedTickMovesVerticallyByVelocity | tempus_fugit_minecraft/player.py:277-283 | on foot, whatever the strafe, the candidate's y is y + newV·dt |
| Physics.BothFlightFlagsHover | tempus_fugit_minecraft/player.py:289-292 | flying with no strafe and both ascend and descend held, the candidate is the current position |
| Physics.JumpVelocity | tempus_fugit_minecraft/player.py:191-192 | a vertical velocity of exactly 0 becomes the jump speed; any other is kept |
| Physics.JumpOnlyFromRest | tempus_fugit_minecraft/player.py:186-192 | with a non-zero jump speed the velocity changes iff it was exactly 0, and a second jump does nothing |
| Physics.ClampPitch | tempus_fugit_minecraft/player.py:242 | pitch lands in [−90, 90]; inside it is unchanged, above it is 90, below it is −90 |
| Physics.KeepWithinCoordinates | tempus_fugit_minecraft/player.py:320-325 | for b ≥ 0 the result lies in [−b, b], is the identity inside and the nearest bound outside; it is always the input or ±b |
| Physics.KeepWithinCoordinatesIdempotent | tempus_fugit_minecraft/player.py:310-325 | for b ≥ 0, clamping twice equals clamping once |
| Physics.PitchClampIsBoundaryClamp | tempus_fugit_minecraft/player.py:238-243 | the pitch clamp max(−90, min(90, p)) agrees with the boundary clamp at 90 for every p |
| Physics.WithinWorld | tempus_fugit_minecraft/player.py:304-308 | y is unchanged; for width ≥ 0, x and z lie in [−w, w]; a position already inside is unchanged |
| PlayerModel.Nudge | tempus_fugit_minecraft/player.py:158-184 | a strafe key event changes exactly one component by its delta and keeps the other |
| PlayerModel.NudgeUndone | tempus_fugit_minecraft/player.py:203-229 | a stop after the matching move (opposite delta on the same axis) restores the strafe pair |
| PlayerModel.SlotIndex | tempus_fugit_minecraft/player.py:200-201 | the selected slot is a valid index, and an index that is already a slot selects itself |
| PlayerModel.SlotIndexPeriodic | tempus_fugit_minecraft/player.py:194-201 | selection is periodic in the inventory size, and −1 selects the last slot |
| PlayerModel.Player.constructor | tempus_fugit_minecraft/player.py:13-65 | a new player is valid: speeds 5 and 6, not flying, strafe (0,0), at the origin, level rotation, at rest, the seven default blocks with the first selected |
| PlayerModel.Player.IncreaseWalkSpeed | tempus_fugit_minecraft/player.py:118-129 | the walking speed becomes WalkSpeedUp of the old one; the invariant is kept |
| PlayerModel.Player.DecreaseWalkSpeed | tempus_fugit_minecraft/player.py:131-140 | the walking speed becomes WalkSpeedDown of the old one; the invariant is kept |
| PlayerModel.Player.IncreaseJumpSpeed | tempus_fugit_minecraft/player.py:142-148 | the jump speed becomes JumpSpeedUp of the old one and stays on its ladder |
| PlayerModel.Player.DecreaseJumpSpeed | tempus_fugit_minecraft/player.py:150-156 | the jump speed becomes JumpSpeedDown of the old one and stays on its ladder |
| PlayerModel.Player.MoveForward | tempus_fugit_minecraft/player.py:158-163 | the forward/back component goes down by 1, the other is kept |
| PlayerModel.Player.MoveBackward | tempus_fugit_minecraft/player.py:165-170 | the forward/back component goes up by 1, the other is kept |
| PlayerModel.Player.MoveLeft | tempus_fugit_minecraft/player.py:172-177 | the left/right component goes down by 1, the other is kept |
| PlayerModel.Player.MoveRight | tempus_fugit_minecraft/player.py:179-184 | the left/right component goes up by 1, the other is kept |
| PlayerModel.Player.StopForward | tempus_fugit_minecraft/player.py:203-208 | the forward/back component goes up by 1, undoing MoveForward |
| PlayerModel.Player.StopBackward | tempus_fugit_minecraft/player.py:210-215 | the forward/back component goes down by 1, undoing MoveBackward |
| PlayerModel.Player.StopLeft | tempus_fugit_minecraft/player.py:217-222 | the left/right component goes up by 1, undoing MoveLeft |
| PlayerModel.Player.StopRight | tempus_fugit_minecraft/player.py:224-229 | the left/right component goes down by 1, undoing MoveRight |
| PlayerModel.Player.Jump | tempus_fugit_minecraft/player.py:186-192 | the vertical velocity becomes JumpVelocity of the old one: it is set to the jump speed when it was exactly 0 and kept otherwise |
| PlayerModel.Player.SelectActiveItem | tempus_fugit_minecraft/player.py:194-201 | the selected block becomes inventory[index mod 7], always an inventory member |
| PlayerModel.Player.AdjustSight | tempus_fugit_minecraft/player.py:231-243 | yaw gains 0.15·dx with no bound; pitch becomes the clamp of pitch + 0.15·dy, so it stays in [−90, 90] |
| PlayerModel.Player.ToggleFlight | tempus_fugit_minecraft/player.py:252-257 | flying is negated |
| PlayerModel.Player.Update | tempus_fugit_minecraft/player.py:259-296 | the vertical velocity becomes TickVelocity of the old one (≥ −50 kept); the new position is exactly the collision checker's answer for the tick candidate and the player height 2 |
| PlayerModel.Player.CheckWithinWorldBoundaries | tempus_fugit_minecraft/player.py:298-308 | the position becomes WithinWorld of the old one: x and z clamped to the world's half-width, y kept |
| PlayerModel.Player.SlowWalkingSpeed | tempus_fugit_minecraft/player.py:327-337 | requires the walking speed 5, as the source asserts; leaves exactly 5/3 |
| PlayerModel.Player.ResetWalkingSpeed | tempus_fugit_minecraft/player.py:339-345 | the walking speed becomes 5 |
| PlayerModel.Player.StartSprinting | tempus_fugit_minecraft/player.py:347-352 | the walking speed doubles, with no ceiling |
| PlayerModel.WalkLadderScenario | tests/test_player.py:177-226 | from a new player, four increases give 10, 15, 20, 20 and four decreases then give 15, 10, 5, 5 |
| PlayerModel.JumpScenario | tests/test_player.py:228-235 | a player at rest jumps at 6; a player already moving up does not jump again |
| PlayerModel.StrafeScenario | tests/test_player.py:237-283 | forward+right gives (−1, 1); the matching stops bring the pair back to (0, 0) |
| PlayerModel.SelectionScenario | tests/test_player.py:253-263 | selecting 0, size+1 and −1 picks brick, grass and dark cloud (first, second and last slot) |
| PlayerModel.SightScenario | tests/test_player.py:285-303 | from level, 700 up gives pitch 90 and 700 down gives −90; 700 down after 700 up gives −15; one unit of x gives yaw 0.15 |
| PlayerModel.FirstTickScenario | tempus_fugit_minecraft/player.py:270-296 | a new player walking forward for 1 s with a pass-through checker ends with vertical velocity −20, at 5 blocks along its heading and y = −20 |
| PlayerModel.HoverScenario | tempus_fugit_minecraft/player.py:284-292 | a flying player with no strafe and both flight keys held stays where it is, at vertical velocity 0 |
| PlayerModel.BoundaryScenario | tempus_fugit_minecraft/player.py:298-325 | a checker that puts the player at (25, 3, −40) in a world of half-width 10 is snapped to (10, 3, −10) |
| PlayerModel.FlightScenario | tests/test_player.py:305-321 | the current speed is 15 in flight and 5 on foot again; toggling twice ends on foot |
| PlayerModel.SneakSprintScenario | tempus_fugit_minecraft/player.py:327-352 | sneaking from 5 gives 5/3, reset gives 5, three sprints from 5 give 40 |

## Left out

- Numeric values of the trigonometry. `sin`, `cos`, `atan2`, `radians` and `degrees` are arbitrary functions here. Only facts that hold for every choice of these functions are proved. The test suite checks dx and dz only up to a floating-point tolerance. Its exact `dy == 1` and `dy == -1` at pitch 90 and -90 (tests/test_player.py:85, :94) depend on the values of `sin` and are not modelled. Its exact `dy == 0` for ground motion (tests/test_player.py:104-134) and for sideways flight (:164, :174) follows from `get_motion_vector`'s branches and is proved by `MotionVector`. Its exact `dy == 0` for forward and backward flight at pitch 0 (:144, :154) holds only because `sin(radians(0)) == 0`: `MotionVector` gives `dy == -sin(radians(pitch))` and `dy == sin(radians(pitch))` there. `get_sight_vector` has no branch, so its `dy == 0` at level pitch also holds only because `sin(radians(0)) == 0`. `SightVector` proves it only under that hypothesis, with `cos(radians(0)) == 1` for dx and dz. That no strafe gives the zero motion vector is proved by `MotionVector`; no test checks it.
- IEEE-754 rounding of `0.15 * dx`, `5 / 3` and `dt * speed`: all arithmetic is exact over `real`.
- `math.sqrt` in the initial jump speed: it is replaced by its value, 6.
- The `World` and `Block` modules are not part of this model. The world half-width comes in as a parameter. `Block` is an enumeration of the seven kinds placed in the inventory, without textures or the rest of the catalog.
- What the collision checker does: it is an arbitrary total function of the candidate and the player height.
- Landing. The collision checker returns only a position and has no effect on the player's state. Nothing in `Player` sets the vertical velocity back to 0 after a tick on foot; only the constructor does. So `Update` always leaves `TickVelocity` of the old velocity, and `Jump` fires after a tick only if that arithmetic happens to give exactly 0. A landing that resets the vertical velocity to 0 comes from code outside the class and is not modelled. Like `ascend`/`descend`, `verticalVelocity` is a public field that such code must assign.
- Aliasing of `strafe_unit_vector`: Python mutates the list in place. The model reassigns a sequence, so another holder of the same list is not modelled. The inventory is a `const`, since no method of the class changes it.
- `ascend` and `descend` have no setters in the class; the input layer assigns them directly. They are plain public fields here, and `Update` covers every combination.
- The body of `Update` computes the tick through `TickVelocity` and `TickCandidate`, not statement by statement. Those two functions follow the source's order of operations. Because Dafny reals are exact, the result is the same.
- Key handling, the window, rendering and world generation (the `Window`/`Model` code that `tests/test_minecraft.py` and `tests/test_speed.py` drive through pyglet) are outside this class. Those tests are used only as evidence for the walking-speed ceiling and floor.
- The test suite's old names (`speed_up`, `strafe`, `dy`, `block`, `WALK_SPEED_INCREMENT`, an inventory of three blocks) are not used. The model follows the current class: seven blocks and the method names of `player.py`.
