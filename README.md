# Player movement and side-scrolling camera of a 2D platformer

This project models, in Dafny, the gameplay core of a small C++ 2D
side-scroller: the per-frame player movement integrator
(`Gameplay::PlayerMovement`), the `Gameplay::Player` facade that owns it, the
camera that follows the player (`Engine::Camera`), and the constants and value
types they share (`Common`). Every `float` of the game is a Dafny `real`.

- `common.dfy`, module `Common`: the screen, world, player and physics
  constants, the `TextureID` enumeration with its underlying integers, and
  the `InputState` and `RenderCommand` value types with their default values.
- `player_movement.dfy`, module `Movement`: the five state fields as the
  value `Body`, and one `update(deltaTime, input)` call as the function
  `Step`. `Step` composes the phases of the C++ function in source order:
  `Accelerate` (left/right/neither, with gravity and friction), `CapFall`
  (terminal velocity), `TryJump`, `Integrate` (an Euler step by the velocity just computed) and
  `ClampToScreen` (four sequential clamps). The class `PlayerMovement` holds
  the same fields and const tuning parameters and updates them in place. Its
  `Update` method is proved equal to `Step`. The velocity rules and the
  Euler step sit in two helper methods, `UpdateVelocity` and `Move`, each
  proved against its phase function. `Inv` is the state the player keeps
  for its whole life: on screen, within the speed limit, at or below the
  terminal velocity, and jump-armed only while standing on the bottom edge
  and not rising. `Run` applies `Step` once per frame of a frame sequence.
- `camera.dfy`, module `Engine`: the clamp `std::max(lo, std::min(hi, v))`,
  the follow offset `clamp(playerX - 640, 0, 1280)`, and the class `Camera`
  with its three fields.
- `player.dfy`, module `Gameplay`: the class `Player`, which forwards
  `update` and `getRenderCommand` to the movement it owns, and the
  cross-component bound on the camera offset.

Where the code and its surrounding descriptions disagree, the model follows
the code:

- The player's x is clamped to `SCREEN_WIDTH - PLAYER_WIDTH` = 1230, not to
  the world width (src/Gameplay/PlayerMovement.cpp:58-61). As a result the
  camera that follows the player never scrolls past 590, although its bound
  is 1280 (`Gameplay.CameraOffsetAfterStep`).
- No clamp zeroes a velocity. On landing the player keeps its downward
  velocity (`Movement.LandingKeepsFallSpeed`).
- The bottom clamp fires only when y strictly overshoots 670
  (src/Gameplay/PlayerMovement.cpp:66). A body that lands exactly on 670 is
  not re-armed in that frame. So `canJump` implies standing on the bottom,
  but not the converse.
- With `left` and `right` both held, only the left branch runs
  (`Movement.LeftHasPriority`).
- A fresh `PlayerMovement` has `canJump == false` and starts at (0, 0), the
  top-left corner. It must fall to the bottom once before it can jump.
- The doc comment of `Player::update` (include/Gameplay/Player.hpp:14-18)
  describes a fixed 400 px/s four-way mover. The code delegates to
  `PlayerMovement` instead, and that is what is modelled.

## Model

| member | source | states |
|---|---|---|
| `Common.TextureID.Value` | include/Common/Constants.hpp:60-71 | only `TEXT_NONE` is negative (-1), only `TEX_COUNT` is 7, and the seven textures lie in 0..6 |
| `Common.TextureIdsDistinct` | include/Common/Constants.hpp:60-71 | no two enumerators share an underlying value |
| `Common.ConstantsConsistent` | include/Common/Constants.hpp:11-53 | viewport = screen = 1280; maximum camera offset = world - viewport = 1280 >= minimum 0; player bounds 1230 and 670 are positive; jump force -500 < 0 < terminal velocity 5399.8; friction, gravity, acceleration and max speed are positive; the minimum window fits in the screen |
| `Common.DefaultsAreNeutral` | include/Common/Types.hpp:11-33 | a default input has all eight flags false; a default render command is a 0x0 rectangle at the origin with `TEXT_NONE` (-1) and scroll factor 1, inside the documented [0, 1] range |
| `Engine.Clamp` | src/Engine/Camera.cpp:31 | with lo <= hi the result lies in [lo, hi], equals v inside it, lo below it and hi above it; with lo > hi it is lo, whatever v is |
| `Engine.FollowOffset` | src/Engine/Camera.cpp:26-32 | the offset lies in [0, 1280] for every playerX; it is playerX - 640 exactly when that lies in [0, 1280]; playerX <= 640 gives 0 and playerX >= 1920 gives 1280 |
| `Engine.FollowOffsetMonotone` | src/Engine/Camera.cpp:30-31 | the offset never decreases as playerX grows |
| `Engine.Camera.constructor` | include/Engine/Camera.hpp:18-20 | a fresh camera has offset 0 and bounds 0 and 1280 |
| `Engine.Camera.GetCameraOffsetX` | src/Engine/Camera.cpp:8-11 | returns the stored offset without clamping it, and reads only |
| `Engine.Camera.SetCameraOffsetX` | src/Engine/Camera.cpp:17-20 | a later get returns the value set, unclamped; only the offset field may change, so the bounds stay as they were |
| `Engine.Camera.Update` | src/Engine/Camera.cpp:26-32 | the new offset is `max(min, min(max, playerX - 640))` of the stored bounds, hence `FollowOffset(playerX)` in [0, 1280]; it does not depend on the old offset, so a repeated update with the same playerX changes nothing; the bounds never change |
| `Movement.Accelerate` | src/Gameplay/PlayerMovement.cpp:5-41 | every branch adds gravity * dt to the vertical velocity and leaves the position and the jump flag alone |
| `Movement.DirectionalInputBounds` | src/Gameplay/PlayerMovement.cpp:5-24 | holding left or right speeds the player that way by at least acceleration * dt unless the speed clamp is reached, never past -500 or 500; a speed within [-500, 500] stays within it |
| `Movement.TurnAroundFriction` | src/Gameplay/PlayerMovement.cpp:5-24 | holding left: if the velocity after subtracting acceleration * dt is still >= 0, friction * dt is subtracted too, then the result is limited below by -500 (only that side); otherwise only the acceleration applies before the same limit; the mirror rule for right when left is not held, with the extra friction when the sum is <= 0 |
| `Movement.CoastingFriction` | src/Gameplay/PlayerMovement.cpp:25-41 | with neither direction held the horizontal velocity moves toward 0 by friction * dt, stops at 0, never changes sign, and stays 0 when it was 0 |
| `Movement.CapFall` | src/Gameplay/PlayerMovement.cpp:42-43 | the vertical velocity ends at or below the terminal velocity, is untouched when already there, and nothing else changes |
| `Movement.TryJump` | src/Gameplay/PlayerMovement.cpp:45-49 | a jump with jumping armed sets the vertical velocity to -500 and disarms; otherwise nothing changes; position and horizontal velocity are never touched |
| `Movement.Integrate` | src/Gameplay/PlayerMovement.cpp:51-52 | the position advances by exactly velocity * dt on each axis; the velocities and the jump flag are untouched; a zero time step changes nothing |
| `Movement.ClampToScreen` | src/Gameplay/PlayerMovement.cpp:54-70 | the position ends in [0, 1230] x [0, 670], is unchanged when already inside, and goes to the nearest edge when outside; velocities are never changed; jumping is armed afterwards exactly when it was armed before or y overshot 670 |
| `Movement.Step` | src/Gameplay/PlayerMovement.cpp:3-71 | after one update the position lies in [0, 1230] x [0, 670] and the vertical velocity is at most the terminal velocity; the final horizontal velocity is the velocity phase's result, since no clamp touches it; the final vertical velocity is -500 after an armed jump and otherwise the old one plus gravity * dt, capped at 5399.8; a jump with jumping armed from y <= 670 ends with velocity -500 and jumping disarmed; jumping is newly armed only on the bottom edge |
| `Movement.MoveThenClamp` | src/Gameplay/PlayerMovement.cpp:51-70 | the Euler step followed by the four clamps leaves the body at its old position plus velocity * dt, each axis clamped into [0, 1230] and [0, 670] |
| `Movement.StepPosition` | src/Gameplay/PlayerMovement.cpp:3-71 | the position after one update is the old position advanced by the NEW velocity (after acceleration, terminal cap and jump) times dt, clamped into [0, 1230] x [0, 670] on each axis |
| `Movement.FreeFallFrame` | src/Gameplay/PlayerMovement.cpp:3-71 | a body at rest at (100, 100) with no input, after one 1/60 s update, stays at x = 100, falls to y = 100 + 980/3600 with vertical velocity 980/60, has no horizontal velocity and still cannot jump |
| `Movement.InitialSatisfiesInv` | include/Gameplay/PlayerMovement.hpp:18-20 | a fresh movement is at (0, 0), at rest, cannot jump, and satisfies the lifetime invariant |
| `Movement.MovePreservesGrounding` | src/Gameplay/PlayerMovement.cpp:51-70 | after the Euler step and the clamps, an armed jump means standing on the bottom edge with a non-negative vertical velocity |
| `Movement.StepPreservesInv` | src/Gameplay/PlayerMovement.cpp:3-71 | one update keeps the lifetime invariant: on screen, horizontal speed within 500, vertical velocity at most the terminal velocity, jump armed only while on the bottom and not rising |
| `Movement.RunPreservesInv` | src/Gameplay/PlayerMovement.cpp:3-71 | any sequence of updates with non-negative time steps keeps the lifetime invariant |
| `Movement.StepKeepsSpeedLimit` | src/Gameplay/PlayerMovement.cpp:5-41 | a horizontal speed within 500 before an update stays within 500 after it |
| `Movement.StepCoasts` | src/Gameplay/PlayerMovement.cpp:25-41 | across a whole update without horizontal input the player only slows by friction and never reverses |
| `Movement.LeftHasPriority` | src/Gameplay/PlayerMovement.cpp:5-15 | with left held, the update is the same whether right is held or not |
| `Movement.JumpIgnoredWhenNotArmed` | src/Gameplay/PlayerMovement.cpp:45-49 | while jumping is not armed, the jump flag has no effect on any field |
| `Movement.LandingKeepsFallSpeed` | src/Gameplay/PlayerMovement.cpp:62-70 | a landing that arms jumping leaves the player on y = 670 with its downward velocity still positive, not zeroed |
| `Movement.PlayerMovement.constructor` | include/Gameplay/PlayerMovement.hpp:11-20 | a fresh movement has the initial state and satisfies its invariant; the tuning parameters are constants equal to the `Common` values |
| `Movement.PlayerMovement.UpdateVelocity` | src/Gameplay/PlayerMovement.cpp:5-41 | the in-place velocity rules produce the velocity phase `Accelerate` and change only the two velocity fields |
| `Movement.PlayerMovement.Move` | src/Gameplay/PlayerMovement.cpp:51-52 | the in-place Euler step produces `Integrate` and changes only the position fields |
| `Movement.PlayerMovement.Update` | src/Gameplay/PlayerMovement.cpp:3-71 | the fields after the in-place update are `Step` of the fields before, so every property of `Step` holds of the object; the lifetime invariant is preserved |
| `Movement.PlayerMovement.GetRenderCommand` | src/Gameplay/PlayerMovement.cpp:73-76 | the command carries the current position, size 50x50, `TEX_PLAYER` and the default scroll factor 1, lies on screen when the invariant holds, and reads only |
| `Gameplay.Player.constructor` | include/Gameplay/Player.hpp:33-35 | a fresh player owns a fresh movement in its initial state |
| `Gameplay.Player.Update` | src/Gameplay/Player.cpp:15-18 | exactly one movement update: only the owned movement changes, as `Step` prescribes, and the invariant is kept |
| `Gameplay.Player.GetRenderCommand` | src/Gameplay/Player.cpp:27-30 | equals the movement's command: 50x50, `TEX_PLAYER`, positioned within [0, 1230] x [0, 670] for a valid player; reading changes nothing |
| `Gameplay.CameraOffsetAfterStep` | src/Gameplay/PlayerMovement.cpp:58-61 | after any update, the camera offset that follows the player is at most 590 and never reaches its 1280 bound |
| `Gameplay.CameraOffsetOfValidPlayer` | src/Engine/Camera.cpp:30-31 | for any player state satisfying the lifetime invariant, the follow offset is at most 590 |

## Left out

- IEEE single-precision rounding: every `float` is an exact `real`, so
  `TERMINAL_VELOCITY` is exactly 5399.8 and sums and products do not round.
- Negative time steps: the code has no guard or cap on `deltaTime`. Every
  update here requires `deltaTime >= 0`, the only range the caller supplies.
- The frame loop (src/Application/main.cpp), window management, SDL input
  polling and the renderer (texture cache, placeholder colours, draw calls)
  are library plumbing with no gameplay logic. `InputState` is an arbitrary
  input value instead. `Run` stands for any sequence of update calls.
- Render-command list assembly, parallax and background tiling have no code
  in these files, so they are not modelled. The scroll factor is carried as
  data only.
- `WINDOW_TITLE_PREFIX`, `TILE_SIZE` and `TIME_STEP` are declared as
  constants but not used by the modelled core.
