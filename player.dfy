/** The player (`Gameplay::Player`): a facade that owns one
    `PlayerMovement` and forwards both of its operations to it. */
module Gameplay {
  import opened Common
  import opened Movement
  import Engine

  class Player {
    const width: real := PLAYER_WIDTH
    const height: real := PLAYER_HEIGHT
    /** The owned movement state; the player never swaps it for another. */
    const movement: PlayerMovement

    ghost predicate Valid()
      reads this, movement
    {
      movement.Valid()
    }

    constructor ()
      ensures fresh(movement)
      ensures movement.State() == INITIAL && Valid()
    {
      movement := new PlayerMovement();
    }

    /** Exactly one movement update and nothing else. */
    method Update(deltaTime: real, input: InputState)
      requires deltaTime >= 0.0
      modifies movement
      ensures movement.State() == Step(old(movement.State()), deltaTime, input)
      ensures old(Valid()) ==> Valid()
    {
      movement.Update(deltaTime, input);
    }

    /** The movement's render command: a 50x50 player sprite at the
        movement's position, which for a valid player lies on screen. */
    function GetRenderCommand(): (r: RenderCommand)
      reads this, movement
      ensures r == movement.GetRenderCommand()
      ensures r.x == movement.x && r.y == movement.y
      ensures r.width == 50.0 && r.height == 50.0 && r.textureID == TexPlayer
      ensures Valid() ==> 0.0 <= r.x <= 1230.0 && 0.0 <= r.y <= 670.0
    {
      movement.GetRenderCommand()
    }
  }

  /** Because an update leaves the player at x <= 1230, the camera that
      follows it never scrolls further than 590, short of its 1280 bound. */
  lemma CameraOffsetAfterStep(b: Body, dt: real, input: InputState)
    requires dt >= 0.0
    ensures 0.0 <= Engine.FollowOffset(Step(b, dt, input).x) <= 590.0
    ensures Engine.FollowOffset(Step(b, dt, input).x) < MAXIMUM_CAMERA_OFFSET_X
  {
  }

  /** The same bound for every state the player can be in during its life. */
  lemma CameraOffsetOfValidPlayer(b: Body)
    requires Inv(b)
    ensures Engine.FollowOffset(b.x) <= 590.0
  {
  }
}
