/** Compile-time configuration and the plain value types that engine and
    gameplay exchange each frame (the `Common` namespace of the game).
    Every `float` of the game is a `real` here. */
module Common {

  // --- Window settings ---

  /** Width of the game screen in pixels. */
  const SCREEN_WIDTH: int := 1280
  /** Height of the game screen in pixels. */
  const SCREEN_HEIGHT: int := 720
  /** Smallest window the game allows. */
  const MINIMUM_SCREEN_WIDTH: int := 854
  const MINIMUM_SCREEN_HEIGHT: int := 480
  /** Prefix of the window title; the FPS counter is appended to it. */
  const WINDOW_TITLE_PREFIX: string := "2D Roguelike-Metroidvania v0.0.1 | FPS: "

  // --- Camera settings ---

  /** The camera viewport is exactly one screen wide. */
  const VIEWPORT_WIDTH: int := SCREEN_WIDTH
  /** Width of the side-scrolling world. */
  const WORLD_WIDTH: int := 2560
  const MINIMUM_CAMERA_OFFSET_X: real := 0.0
  const MAXIMUM_CAMERA_OFFSET_X: real := (WORLD_WIDTH - VIEWPORT_WIDTH) as real

  // --- Player settings ---

  const PLAYER_WIDTH: real := 50.0
  const PLAYER_HEIGHT: real := 50.0

  // --- Physics and gameplay ---

  const TARGET_FPS: real := 60.0
  /** Informational only: the movement update takes a measured time step. */
  const TIME_STEP: real := 1.0 / TARGET_FPS
  const GRAVITY: real := 980.0
  /** Largest downward (positive y) velocity. */
  const TERMINAL_VELOCITY: real := 5399.8
  const PLAYER_ACCELERATION: real := 5000.0
  /** Horizontal deceleration; higher is less slippery. */
  const FRICTION: real := 10000.0
  /** Vertical velocity set by a jump; negative y is upward. */
  const JUMP_FORCE: real := -500.0
  const PLAYER_MAX_SPEED: real := 500.0

  // --- Tiles ---

  const TILE_SIZE: int := 32

  /** Texture identifiers. `TexCount` is the number of real textures and
      `TextNone` marks a command without a texture. */
  datatype TextureID =
    | TexPlayer
    | TexWall
    | TexFloor
    | TexEnemy
    | TexBackgroundFar
    | TexBackgroundMid
    | TexBackgroundNear
    | TexCount
    | TextNone
  {
    /** The enumerator's underlying `int`. */
    function Value(): (v: int)
      ensures TextNone? <==> v < 0
      ensures TexCount? <==> v == 7
      ensures !TextNone? && !TexCount? <==> 0 <= v < 7
    {
      match this
      case TexPlayer => 0
      case TexWall => 1
      case TexFloor => 2
      case TexEnemy => 3
      case TexBackgroundFar => 4
      case TexBackgroundMid => 5
      case TexBackgroundNear => 6
      case TexCount => 7
      case TextNone => -1
    }
  }

  /** One frame's snapshot of the player's intents. The flags are
      independent: nothing forbids `left` and `right` together. */
  datatype InputState = InputState(
    up: bool,
    down: bool,
    left: bool,
    right: bool,
    jump: bool,
    attack: bool,
    toggleFullScreen: bool,
    quit: bool)

  /** A default-initialised `InputState`. */
  const DEFAULT_INPUT: InputState :=
    InputState(false, false, false, false, false, false, false, false)

  /** A request to draw one texture. `scrollFactor` is the parallax factor:
      0 keeps the command fixed on screen, 1 scrolls it with the camera. */
  datatype RenderCommand = RenderCommand(
    x: real,
    y: real,
    width: real,
    height: real,
    textureID: TextureID,
    scrollFactor: real)

  /** A default-initialised `RenderCommand`. */
  const DEFAULT_RENDER_COMMAND: RenderCommand :=
    RenderCommand(0.0, 0.0, 0.0, 0.0, TextNone, 1.0)

  /** The documented range of the parallax factor. */
  predicate ScrollFactorInRange(c: RenderCommand) {
    0.0 <= c.scrollFactor <= 1.0
  }

  /** The relations the rest of the game relies on between the constants. */
  lemma ConstantsConsistent()
    ensures VIEWPORT_WIDTH == SCREEN_WIDTH == 1280
    ensures MAXIMUM_CAMERA_OFFSET_X == (WORLD_WIDTH - VIEWPORT_WIDTH) as real == 1280.0
    ensures MINIMUM_CAMERA_OFFSET_X == 0.0 <= MAXIMUM_CAMERA_OFFSET_X
    ensures SCREEN_WIDTH as real - PLAYER_WIDTH == 1230.0 > 0.0
    ensures SCREEN_HEIGHT as real - PLAYER_HEIGHT == 670.0 > 0.0
    ensures JUMP_FORCE == -500.0 < 0.0 < TERMINAL_VELOCITY == 5399.8
    ensures JUMP_FORCE <= TERMINAL_VELOCITY
    ensures FRICTION > 0.0 && GRAVITY > 0.0 && PLAYER_ACCELERATION > 0.0 && PLAYER_MAX_SPEED > 0.0
    ensures MINIMUM_SCREEN_WIDTH <= SCREEN_WIDTH && MINIMUM_SCREEN_HEIGHT <= SCREEN_HEIGHT
  {
  }

  /** No two enumerators share an underlying value. */
  lemma TextureIdsDistinct(a: TextureID, b: TextureID)
    ensures a.Value() == b.Value() ==> a == b
  {
  }

  /** The default values of the two value types: no intent pressed, an
      empty untextured rectangle that scrolls fully with the camera. */
  lemma DefaultsAreNeutral()
    ensures !DEFAULT_INPUT.up && !DEFAULT_INPUT.down && !DEFAULT_INPUT.left && !DEFAULT_INPUT.right
    ensures !DEFAULT_INPUT.jump && !DEFAULT_INPUT.attack && !DEFAULT_INPUT.toggleFullScreen && !DEFAULT_INPUT.quit
    ensures DEFAULT_RENDER_COMMAND.x == DEFAULT_RENDER_COMMAND.y == 0.0
    ensures DEFAULT_RENDER_COMMAND.width == DEFAULT_RENDER_COMMAND.height == 0.0
    ensures DEFAULT_RENDER_COMMAND.textureID == TextNone && DEFAULT_RENDER_COMMAND.textureID.Value() == -1
    ensures DEFAULT_RENDER_COMMAND.scrollFactor == 1.0 && ScrollFactorInRange(DEFAULT_RENDER_COMMAND)
  {
  }
}
