/** The side-scrolling camera (`Engine::Camera`): one stored horizontal
    offset that follows the player and is clamped to the world. */
module Engine {
  import opened Common

  function Min(a: real, b: real): real { if b < a then b else a }
  function Max(a: real, b: real): real { if a < b then b else a }

  /** `std::max(lo, std::min(hi, v))`. When `lo > hi` this yields `lo`. */
  function Clamp(v: real, lo: real, hi: real): (r: real)
    ensures lo <= hi ==> lo <= r <= hi
    ensures lo <= v <= hi ==> r == v
    ensures v <= lo ==> r == lo
    ensures lo <= hi <= v ==> r == hi
    ensures hi < lo ==> r == lo
  {
    Max(lo, Min(hi, v))
  }

  /** The offset that keeps the player centred in the viewport, clamped to
      [MINIMUM_CAMERA_OFFSET_X, MAXIMUM_CAMERA_OFFSET_X] = [0, 1280]. */
  function FollowOffset(playerX: real): (r: real)
    ensures MINIMUM_CAMERA_OFFSET_X <= r <= MAXIMUM_CAMERA_OFFSET_X
    ensures 0.0 <= playerX - 640.0 <= 1280.0 ==> r == playerX - 640.0
    ensures playerX <= 640.0 ==> r == 0.0
    ensures playerX >= 1920.0 ==> r == 1280.0
  {
    Clamp(playerX - VIEWPORT_WIDTH as real / 2.0, MINIMUM_CAMERA_OFFSET_X, MAXIMUM_CAMERA_OFFSET_X)
  }

  /** A player further right never yields a smaller offset. */
  lemma FollowOffsetMonotone(p: real, q: real)
    requires p <= q
    ensures FollowOffset(p) <= FollowOffset(q)
  {
  }

  class Camera {
    var cameraOffsetX: real
    var minCameraOffsetX: real
    var maxCameraOffsetX: real

    /** The bounds keep their initial values; no method assigns them. */
    ghost predicate Valid()
      reads this
    {
      minCameraOffsetX == MINIMUM_CAMERA_OFFSET_X && maxCameraOffsetX == MAXIMUM_CAMERA_OFFSET_X
    }

    constructor ()
      ensures Valid()
      ensures cameraOffsetX == 0.0
      ensures minCameraOffsetX == 0.0 && maxCameraOffsetX == 1280.0
    {
      cameraOffsetX := 0.0;
      minCameraOffsetX := MINIMUM_CAMERA_OFFSET_X;
      maxCameraOffsetX := MAXIMUM_CAMERA_OFFSET_X;
    }

    /** The stored offset, as stored: reading never clamps. */
    function GetCameraOffsetX(): (v: real)
      reads this
      ensures v == cameraOffsetX
    {
      cameraOffsetX
    }

    /** Stores any value, unclamped; the range holds only after `Update`. */
    method SetCameraOffsetX(value: real)
      modifies this`cameraOffsetX
      ensures GetCameraOffsetX() == value
      ensures Valid() <==> old(Valid())
    {
      cameraOffsetX := value;
    }

    /** Follows the player: the new offset depends on `playerX` alone, so
        repeating an update with the same `playerX` changes nothing. */
    method Update(playerX: real)
      modifies this`cameraOffsetX
      ensures cameraOffsetX == Clamp(playerX - VIEWPORT_WIDTH as real / 2.0, minCameraOffsetX, maxCameraOffsetX)
      ensures Valid() ==> cameraOffsetX == FollowOffset(playerX)
      ensures Valid() ==> 0.0 <= GetCameraOffsetX() <= 1280.0
      ensures Valid() && old(cameraOffsetX) == FollowOffset(playerX) ==> unchanged(this)
      ensures Valid() <==> old(Valid())
    {
      var targetOffset := playerX - VIEWPORT_WIDTH as real / 2.0;
      cameraOffsetX := Max(minCameraOffsetX, Min(maxCameraOffsetX, targetOffset));
    }
  }
}
