/** The keyboard rules of the game window: arrow keys or WASD set the player's
    velocity; releasing a horizontal key stops horizontal motion. */
module Controls {
  import opened Numeric

  const PlayerMovementSpeed: real := 4.5
  const PlayerJumpSpeed: real := 15.0

  /** The keys the game reacts to; every other key is `Other`. */
  datatype Key = Up | W | Left | A | Right | D | Other

  datatype Velocity = Velocity(changeX: real, changeY: real)

  predicate IsJumpKey(k: Key) { k == Up || k == W }
  predicate IsLeftKey(k: Key) { k == Left || k == A }
  predicate IsRightKey(k: Key) { k == Right || k == D }

  /** `on_key_press`: a jump key launches the player only when the physics
      engine reports that it can jump; a horizontal key sets full speed in its
      direction. */
  function Press(key: Key, canJump: bool, v: Velocity): (r: Velocity)
    ensures IsLeftKey(key) ==> r.changeX < 0.0 && Abs(r.changeX) == PlayerMovementSpeed
    ensures IsRightKey(key) ==> r.changeX > 0.0 && Abs(r.changeX) == PlayerMovementSpeed
    ensures !IsLeftKey(key) && !IsRightKey(key) ==> r.changeX == v.changeX
    ensures IsJumpKey(key) && canJump ==> r.changeY == PlayerJumpSpeed
    ensures r.changeY != v.changeY ==> IsJumpKey(key) && canJump
  {
    if IsJumpKey(key) then
      if canJump then v.(changeY := PlayerJumpSpeed) else v
    else if IsLeftKey(key) then v.(changeX := -PlayerMovementSpeed)
    else if IsRightKey(key) then v.(changeX := PlayerMovementSpeed)
    else v
  }

  /** `on_key_release`: releasing either horizontal key stops horizontal
      motion; nothing else changes. */
  function Release(key: Key, v: Velocity): (r: Velocity)
    ensures r.changeY == v.changeY
    ensures IsLeftKey(key) || IsRightKey(key) ==> r.changeX == 0.0
    ensures !IsLeftKey(key) && !IsRightKey(key) ==> r == v
  {
    if IsLeftKey(key) || IsRightKey(key) then v.(changeX := 0.0) else v
  }

  /** Pressing and releasing a horizontal key leaves the player standing
      still horizontally, whatever the velocity before. */
  lemma PressThenReleaseStops(key: Key, canJump: bool, v: Velocity)
    requires IsLeftKey(key) || IsRightKey(key)
    ensures Release(key, Press(key, canJump, v)) == Velocity(0.0, v.changeY)
  {
  }
}
