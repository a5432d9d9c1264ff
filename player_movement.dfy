/** The player's kinematic integrator (`Gameplay::PlayerMovement`).

    `Step` is the specification of one `update` call on the pure state
    `Body`; it is built from the call's phases in source order (velocity,
    terminal-velocity cap, jump, Euler step, screen clamps). The class
    `PlayerMovement` performs the same update in place and is proved equal
    to `Step`. Positions and velocities are in pixels and pixels per second,
    with y growing downward. */
module Movement {
  import opened Common

  /** Right-most x of the player: the screen width, not the world width. */
  const MAX_X: real := SCREEN_WIDTH as real - PLAYER_WIDTH
  /** Lowest y of the player: standing on the bottom of the screen. */
  const MAX_Y: real := SCREEN_HEIGHT as real - PLAYER_HEIGHT

  /** The five state fields of `PlayerMovement`. */
  datatype Body = Body(x: real, y: real, velocityX: real, velocityY: real, canJump: bool)

  /** The state of a freshly constructed `PlayerMovement`. */
  const INITIAL: Body := Body(0.0, 0.0, 0.0, 0.0, false)

  /** One frame handed to the integrator. */
  datatype Frame = Frame(deltaTime: real, input: InputState)

  predicate WithinSpeed(vx: real) {
    -PLAYER_MAX_SPEED <= vx <= PLAYER_MAX_SPEED
  }

  /** The larger of `v` and the leftward speed limit. */
  function LeftLimited(v: real): (r: real)
    ensures -PLAYER_MAX_SPEED <= r && v <= r
    ensures r == v || r == -PLAYER_MAX_SPEED
  {
    if v < -PLAYER_MAX_SPEED then -PLAYER_MAX_SPEED else v
  }

  /** The smaller of `v` and the rightward speed limit. */
  function RightLimited(v: real): (r: real)
    ensures r <= PLAYER_MAX_SPEED && r <= v
    ensures r == v || r == PLAYER_MAX_SPEED
  {
    if v > PLAYER_MAX_SPEED then PLAYER_MAX_SPEED else v
  }

  /** `v` limited to [0, hi], as the sequential screen clamps leave it. */
  function ScreenClamp(v: real, hi: real): (r: real)
    requires hi >= 0.0
    ensures 0.0 <= r <= hi
    ensures 0.0 <= v <= hi ==> r == v
  {
    if v < 0.0 then 0.0 else if v > hi then hi else v
  }

  /** Friction without input: the velocity goes toward zero by `budget`,
      stopping at zero, and never changes sign. */
  predicate CoastsTowardZero(before: real, after: real, budget: real) {
    (before >= 0.0 ==> 0.0 <= after <= before)
    && (before <= 0.0 ==> before <= after <= 0.0)
    && (after == 0.0 || after == before - budget || after == before + budget)
    && before - budget <= after <= before + budget
  }

  /** The velocity phase: left wins over right; each branch adds gravity;
      pushing against the current motion adds friction. Its horizontal
      properties are the lemmas below. */
  function Accelerate(b: Body, dt: real, input: InputState): (r: Body)
    requires dt >= 0.0
    ensures r.x == b.x && r.y == b.y && r.canJump == b.canJump
    ensures r.velocityY == b.velocityY + GRAVITY * dt
  {
    var velocityY := b.velocityY + GRAVITY * dt;
    if input.left then
      var v1 := b.velocityX - PLAYER_ACCELERATION * dt;
      var v2 := if v1 >= 0.0 then v1 - FRICTION * dt else v1;
      var v3 := if v2 < -PLAYER_MAX_SPEED then -PLAYER_MAX_SPEED else v2;
      b.(velocityX := v3, velocityY := velocityY)
    else if input.right then
      var v1 := b.velocityX + PLAYER_ACCELERATION * dt;
      var v2 := if v1 <= 0.0 then v1 + FRICTION * dt else v1;
      var v3 := if v2 > PLAYER_MAX_SPEED then PLAYER_MAX_SPEED else v2;
      b.(velocityX := v3, velocityY := velocityY)
    else if b.velocityX > 0.0 then
      var v := b.velocityX - FRICTION * dt;
      b.(velocityX := if v < 0.0 then 0.0 else v, velocityY := velocityY)
    else if b.velocityX < 0.0 then
      var v := b.velocityX + FRICTION * dt;
      b.(velocityX := if v > 0.0 then 0.0 else v, velocityY := velocityY)
    else
      b.(velocityY := velocityY)
  }

  /** Holding a direction accelerates that way by at least
      `PLAYER_ACCELERATION * dt` unless the speed limit is reached, and
      never pushes past the limit; the limit itself is kept. */
  lemma DirectionalInputBounds(b: Body, dt: real, input: InputState)
    requires dt >= 0.0
    ensures var r := Accelerate(b, dt, input);
      && (WithinSpeed(b.velocityX) ==> WithinSpeed(r.velocityX))
      && (input.left ==> -PLAYER_MAX_SPEED <= r.velocityX)
      && (input.left ==> r.velocityX == -PLAYER_MAX_SPEED || r.velocityX <= b.velocityX - PLAYER_ACCELERATION * dt)
      && (!input.left && input.right ==> r.velocityX <= PLAYER_MAX_SPEED)
      && (!input.left && input.right ==> r.velocityX == PLAYER_MAX_SPEED || r.velocityX >= b.velocityX + PLAYER_ACCELERATION * dt)
  {
  }

  /** The whole horizontal rule for a held direction: the acceleration
      step, then an extra friction step when that still leaves the player
      moving the other way (or at rest), then the speed clamp. */
  lemma TurnAroundFriction(b: Body, dt: real, input: InputState)
    requires dt >= 0.0
    ensures var r := Accelerate(b, dt, input);
      var toLeft := b.velocityX - PLAYER_ACCELERATION * dt;
      var toRight := b.velocityX + PLAYER_ACCELERATION * dt;
      && (input.left && toLeft >= 0.0 ==>
            r.velocityX == LeftLimited(b.velocityX - (PLAYER_ACCELERATION + FRICTION) * dt))
      && (input.left && toLeft < 0.0 ==> r.velocityX == LeftLimited(toLeft))
      && (!input.left && input.right && toRight <= 0.0 ==>
            r.velocityX == RightLimited(b.velocityX + (PLAYER_ACCELERATION + FRICTION) * dt))
      && (!input.left && input.right && toRight > 0.0 ==> r.velocityX == RightLimited(toRight))
  {
  }

  /** With neither direction held, friction slows the player toward zero
      without ever reversing the direction of motion. */
  lemma CoastingFriction(b: Body, dt: real, input: InputState)
    requires dt >= 0.0 && !input.left && !input.right
    ensures CoastsTowardZero(b.velocityX, Accelerate(b, dt, input).velocityX, FRICTION * dt)
  {
  }

  /** Caps the falling speed; rising speed is not capped. */
  function CapFall(b: Body): (r: Body)
    ensures r.velocityY <= TERMINAL_VELOCITY
    ensures b.velocityY <= TERMINAL_VELOCITY ==> r == b
    ensures r == b.(velocityY := r.velocityY)
  {
    if b.velocityY > TERMINAL_VELOCITY then b.(velocityY := TERMINAL_VELOCITY) else b
  }

  /** A jump takes effect only while jumping is armed, and disarms it. */
  function TryJump(b: Body, jump: bool): (r: Body)
    ensures jump && b.canJump ==> r.velocityY == JUMP_FORCE && !r.canJump
    ensures !(jump && b.canJump) ==> r == b
    ensures r.x == b.x && r.y == b.y && r.velocityX == b.velocityX
  {
    if jump && b.canJump then b.(velocityY := JUMP_FORCE, canJump := false) else b
  }

  /** Explicit Euler position step: the player moves by its current
      velocity times the time step. */
  function Integrate(b: Body, dt: real): (r: Body)
    ensures r.velocityX == b.velocityX && r.velocityY == b.velocityY && r.canJump == b.canJump
    ensures r.x - b.x == r.velocityX * dt && r.y - b.y == r.velocityY * dt
    ensures dt == 0.0 ==> r == b
  {
    b.(x := b.x + b.velocityX * dt, y := b.y + b.velocityY * dt)
  }

  /** The four sequential bound clamps. They move the position only; only
      the bottom clamp, on a strict overshoot, re-arms jumping. */
  function ClampToScreen(b: Body): (r: Body)
    ensures 0.0 <= r.x <= MAX_X && 0.0 <= r.y <= MAX_Y
    ensures r.velocityX == b.velocityX && r.velocityY == b.velocityY
    ensures 0.0 <= b.x <= MAX_X ==> r.x == b.x
    ensures b.x < 0.0 ==> r.x == 0.0
    ensures b.x > MAX_X ==> r.x == MAX_X
    ensures 0.0 <= b.y <= MAX_Y ==> r.y == b.y
    ensures b.y < 0.0 ==> r.y == 0.0
    ensures b.y > MAX_Y ==> r.y == MAX_Y
    ensures r.canJump <==> b.canJump || b.y > MAX_Y
    ensures r.x == ScreenClamp(b.x, MAX_X) && r.y == ScreenClamp(b.y, MAX_Y)
  {
    var x1 := if b.x < 0.0 then 0.0 else b.x;
    var x2 := if x1 > MAX_X then MAX_X else x1;
    var y1 := if b.y < 0.0 then 0.0 else b.y;
    if y1 > MAX_Y then b.(x := x2, y := MAX_Y, canJump := true) else b.(x := x2, y := y1)
  }

  /** One `update(deltaTime, input)` call. */
  function Step(b: Body, dt: real, input: InputState): (r: Body)
    requires dt >= 0.0
    ensures 0.0 <= r.x <= MAX_X && 0.0 <= r.y <= MAX_Y
    ensures r.velocityY <= TERMINAL_VELOCITY
    ensures r.velocityX == Accelerate(b, dt, input).velocityX
    ensures r.velocityY == if input.jump && b.canJump then JUMP_FORCE
                           else if b.velocityY + GRAVITY * dt > TERMINAL_VELOCITY then TERMINAL_VELOCITY
                           else b.velocityY + GRAVITY * dt
    ensures input.jump && b.canJump && b.y <= MAX_Y ==> r.velocityY == JUMP_FORCE && !r.canJump
    ensures r.canJump && !b.canJump ==> r.y == MAX_Y
  {
    ClampToScreen(Integrate(TryJump(CapFall(Accelerate(b, dt, input)), input.jump), dt))
  }

  /** `after` is where a body at `before` ends up moving with velocity
      `after`'s for `dt` seconds and then being clamped to the screen. */
  predicate AdvancedAndClamped(before: Body, after: Body, dt: real) {
    && after.x == ScreenClamp(before.x + after.velocityX * dt, MAX_X)
    && after.y == ScreenClamp(before.y + after.velocityY * dt, MAX_Y)
  }

  /** The movement half of an update: the Euler step by the body's own
      velocity, then the clamps. */
  lemma MoveThenClamp(j: Body, dt: real)
    ensures AdvancedAndClamped(j, ClampToScreen(Integrate(j, dt)), dt)
  {
    var moved := Integrate(j, dt);
    assert moved.x == j.x + moved.velocityX * dt && moved.y == j.y + moved.velocityY * dt;
  }

  /** Where one update leaves the player: the old position advanced by the
      NEW velocity times the time step (the velocity is updated first), then
      clamped to the screen. */
  lemma StepPosition(b: Body, dt: real, input: InputState)
    requires dt >= 0.0
    ensures AdvancedAndClamped(b, Step(b, dt, input), dt)
  {
    var jumped := TryJump(CapFall(Accelerate(b, dt, input)), input.jump);
    assert jumped.x == b.x && jumped.y == b.y;
    MoveThenClamp(jumped, dt);
    assert AdvancedAndClamped(jumped, Step(b, dt, input), dt);
  }

  /** A player at rest at (100, 100) with no input falls for one 60 Hz
      frame: y grows by GRAVITY / 60^2, x stays, and it cannot jump yet. */
  lemma FreeFallFrame()
    ensures var r := Step(Body(100.0, 100.0, 0.0, 0.0, false), TIME_STEP, DEFAULT_INPUT);
      && r.x == 100.0
      && r.y == 100.0 + 980.0 / 3600.0
      && r.velocityX == 0.0 && r.velocityY == 980.0 / 60.0
      && !r.canJump
  {
    var b := Body(100.0, 100.0, 0.0, 0.0, false);
    var a := Accelerate(b, TIME_STEP, DEFAULT_INPUT);
    assert a == b.(velocityY := 980.0 / 60.0);
    assert CapFall(a) == a;
    assert TryJump(a, false) == a;
    assert Integrate(a, TIME_STEP) == a.(y := 100.0 + 980.0 / 3600.0);
  }

  /** A frame sequence run one `update` call at a time. */
  function Run(b: Body, frames: seq<Frame>): Body
    requires forall i :: 0 <= i < |frames| ==> frames[i].deltaTime >= 0.0
    decreases |frames|
  {
    if frames == [] then b else Run(Step(b, frames[0].deltaTime, frames[0].input), frames[1..])
  }

  /** What holds of the player at every frame of its life: on screen, within
      the speed limits, and jump-armed only while standing on the bottom
      and not rising. */
  predicate Inv(b: Body) {
    0.0 <= b.x <= MAX_X && 0.0 <= b.y <= MAX_Y
    && WithinSpeed(b.velocityX) && b.velocityY <= TERMINAL_VELOCITY
    && (b.canJump ==> b.y == MAX_Y && b.velocityY >= 0.0)
  }

  /** A fresh player is at rest in the top-left corner and cannot jump. */
  lemma InitialSatisfiesInv()
    ensures Inv(INITIAL)
    ensures INITIAL.x == INITIAL.y == INITIAL.velocityX == INITIAL.velocityY == 0.0
    ensures !INITIAL.canJump
  {
  }

  /** The move-and-clamp half of a step keeps jumping armed only on the
      bottom and never while rising. */
  lemma MovePreservesGrounding(j: Body, dt: real)
    requires dt >= 0.0 && j.y <= MAX_Y
    requires j.canJump ==> j.y == MAX_Y && j.velocityY >= 0.0
    ensures var r := ClampToScreen(Integrate(j, dt));
      r.canJump ==> r.y == MAX_Y && r.velocityY >= 0.0
  {
  }

  /** One update keeps the lifetime invariant. */
  lemma {:induction false} StepPreservesInv(b: Body, dt: real, input: InputState)
    requires dt >= 0.0 && Inv(b)
    ensures Inv(Step(b, dt, input))
  {
    var j := TryJump(CapFall(Accelerate(b, dt, input)), input.jump);
    assert j.y == b.y;
    MovePreservesGrounding(j, dt);
    StepKeepsSpeedLimit(b, dt, input);
  }

  /** So does every sequence of updates. */
  lemma {:induction false} RunPreservesInv(b: Body, frames: seq<Frame>)
    requires forall i :: 0 <= i < |frames| ==> frames[i].deltaTime >= 0.0
    requires Inv(b)
    ensures Inv(Run(b, frames))
    decreases |frames|
  {
    if frames != [] {
      StepPreservesInv(b, frames[0].deltaTime, frames[0].input);
      RunPreservesInv(Step(b, frames[0].deltaTime, frames[0].input), frames[1..]);
    }
  }

  /** No update pushes the horizontal speed past the limit. */
  lemma StepKeepsSpeedLimit(b: Body, dt: real, input: InputState)
    requires dt >= 0.0 && WithinSpeed(b.velocityX)
    ensures WithinSpeed(Step(b, dt, input).velocityX)
  {
  }

  /** Without horizontal input a whole update only slows the player. */
  lemma StepCoasts(b: Body, dt: real, input: InputState)
    requires dt >= 0.0 && !input.left && !input.right
    ensures CoastsTowardZero(b.velocityX, Step(b, dt, input).velocityX, FRICTION * dt)
  {
  }

  /** With both directions held only the left branch runs. */
  lemma LeftHasPriority(b: Body, dt: real, input: InputState)
    requires dt >= 0.0 && input.left
    ensures Step(b, dt, input) == Step(b, dt, input.(right := false))
  {
  }

  /** While jumping is not armed, the jump flag has no effect at all. */
  lemma JumpIgnoredWhenNotArmed(b: Body, dt: real, input: InputState)
    requires dt >= 0.0 && !b.canJump
    ensures Step(b, dt, input) == Step(b, dt, input.(jump := false))
  {
  }

  /** Landing on the bottom keeps the falling speed: nothing zeroes it. */
  lemma LandingKeepsFallSpeed(b: Body, dt: real, input: InputState)
    requires dt >= 0.0 && b.y <= MAX_Y && !b.canJump
    requires Step(b, dt, input).canJump
    ensures Step(b, dt, input).velocityY > 0.0
    ensures Step(b, dt, input).y == MAX_Y
  {
  }

  class PlayerMovement {
    const acceleration: real := PLAYER_ACCELERATION
    const friction: real := FRICTION
    const gravity: real := GRAVITY
    const terminalVelocity: real := TERMINAL_VELOCITY
    const jumpForce: real := JUMP_FORCE
    const maxSpeed: real := PLAYER_MAX_SPEED

    var x: real
    var y: real
    var velocityX: real
    var velocityY: real
    var canJump: bool

    function State(): Body
      reads this
    {
      Body(x, y, velocityX, velocityY, canJump)
    }

    ghost predicate Valid()
      reads this
    {
      Inv(State())
    }

    constructor ()
      ensures State() == INITIAL && Valid()
      ensures acceleration == PLAYER_ACCELERATION && friction == FRICTION && gravity == GRAVITY
      ensures terminalVelocity == TERMINAL_VELOCITY && jumpForce == JUMP_FORCE && maxSpeed == PLAYER_MAX_SPEED
    {
      x, y := 0.0, 0.0;
      velocityX, velocityY := 0.0, 0.0;
      canJump := false;
      InitialSatisfiesInv();
    }

    /** The velocity rules of one update: horizontal input (left before
        right), friction and gravity. */
    method UpdateVelocity(deltaTime: real, input: InputState)
      requires deltaTime >= 0.0
      modifies this`velocityX, this`velocityY
      ensures State() == Accelerate(old(State()), deltaTime, input)
    {
      // The tuning parameters are the `Common` constants.
      assert acceleration == PLAYER_ACCELERATION && friction == FRICTION;
      assert gravity == GRAVITY && maxSpeed == PLAYER_MAX_SPEED;
      if input.left {
        velocityX := velocityX + -(acceleration * deltaTime);
        velocityY := velocityY + gravity * deltaTime;
        if velocityX >= 0.0 {
          velocityX := velocityX + -(friction * deltaTime);
        }
        if velocityX < -maxSpeed {
          velocityX := -maxSpeed;
        }
      } else if input.right {
        velocityX := velocityX + acceleration * deltaTime;
        velocityY := velocityY + gravity * deltaTime;
        if velocityX <= 0.0 {
          velocityX := velocityX + friction * deltaTime;
        }
        if velocityX > maxSpeed {
          velocityX := maxSpeed;
        }
      } else {
        velocityY := velocityY + gravity * deltaTime;
        if velocityX > 0.0 {
          velocityX := velocityX - friction * deltaTime;
          if velocityX < 0.0 {
            velocityX := 0.0;
          }
        } else if velocityX < 0.0 {
          velocityX := velocityX + friction * deltaTime;
          if velocityX > 0.0 {
            velocityX := 0.0;
          }
        }
      }
    }

    /** The explicit Euler position step of one update. */
    method Move(deltaTime: real)
      modifies this`x, this`y
      ensures State() == Integrate(old(State()), deltaTime)
    {
      x := x + velocityX * deltaTime;
      y := y + velocityY * deltaTime;
    }

    /** One frame: the velocity rules, the terminal-velocity cap, the jump,
        the Euler step and the screen clamps, in that order. The ghost
        asserts name the state after each phase of `Step`. */
    method Update(deltaTime: real, input: InputState)
      requires deltaTime >= 0.0
      modifies this
      ensures State() == Step(old(State()), deltaTime, input)
      ensures old(Valid()) ==> Valid()
    {
      ghost var before := State();
      ghost var after := Step(before, deltaTime, input);
      if Inv(before) {
        StepPreservesInv(before, deltaTime, input);
      }
      assert Inv(before) ==> Inv(after);
      ghost var accelerated := Accelerate(before, deltaTime, input);
      UpdateVelocity(deltaTime, input);
      assert State() == accelerated;
      if velocityY > terminalVelocity {
        velocityY := terminalVelocity;
      }
      assert State() == CapFall(accelerated);

      if input.jump && canJump {
        velocityY := jumpForce;
        canJump := false;
      }

      ghost var jumped := TryJump(CapFall(accelerated), input.jump);
      assert State() == jumped;

      Move(deltaTime);
      ghost var moved := State();

      if x < 0.0 {
        x := 0.0;
      }
      if x > SCREEN_WIDTH as real - PLAYER_WIDTH {
        x := SCREEN_WIDTH as real - PLAYER_WIDTH;
      }
      if y < 0.0 {
        y := 0.0;
      }
      if y > SCREEN_HEIGHT as real - PLAYER_HEIGHT {
        y := SCREEN_HEIGHT as real - PLAYER_HEIGHT;
        canJump := true;
      }
      assert State() == ClampToScreen(moved);
      assert moved == Integrate(jumped, deltaTime);
      assert State() == after;
    }

    /** The player's draw request: its position, its size, its texture and
        the default (full) scroll factor. */
    function GetRenderCommand(): (r: RenderCommand)
      reads this
      ensures r.x == x && r.y == y
      ensures r.width == PLAYER_WIDTH && r.height == PLAYER_HEIGHT
      ensures r.textureID == TexPlayer
      ensures r.scrollFactor == DEFAULT_RENDER_COMMAND.scrollFactor && ScrollFactorInRange(r)
      ensures Valid() ==> 0.0 <= r.x <= MAX_X && 0.0 <= r.y <= MAX_Y
    {
      RenderCommand(x, y, PLAYER_WIDTH, PLAYER_HEIGHT, TexPlayer, DEFAULT_RENDER_COMMAND.scrollFactor)
    }
  }
}
