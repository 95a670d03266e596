# Geo-Explore platformer: the game-window rules

This project models the game logic of the `MyGame` window of a small
side-scrolling platformer built on the `arcade` engine. It covers:

- `setup(level)`, which restarts a level;
- the key handlers `on_key_press` and `on_key_release`, which set the
  player's velocity;
- `update`, the once-per-frame game logic.

`update` runs these steps in order:

1. the arrow loop: arrows kill enemies and leave the screen;
2. coin pickup;
3. the fall-off respawn;
4. the hazard respawn;
5. the level advance, which calls `setup`;
6. the enemy patrol loop, with its repeated enemy-contact test;
7. the four-way margin scroll of the camera;
8. truncation of both camera offsets with Python's `int()`.

The window is the class `Window.MyGame`. Its fields are the ones `update`
reads and writes. Each step of `update` is a method that changes only its
own fields. Each method is proved to leave the window in the state that a
function of module `Rules` computes from the old state. Those functions are
the specification, and the lemmas in `Properties` prove what they guarantee
over a whole frame.

Modules:

- `Numeric`: whole-pixel reals, and `int()` on a real, which rounds toward
  zero.
- `Sprites`: sprites and sprite lists. A list is a sequence of sprite ids.
  The same sprite may be listed twice, and every entry with a given id
  denotes the same object. Removing a sprite drops every entry with its id.
- `Camera`: the margin band, the four scroll checks and truncation.
- `Controls`: the key rules.
- `Rules`: the state snapshot `GameState`, the engine's answers for a frame
  (`Frame`), and one function per step of `update`.
- `Properties`: lemmas about a frame.
- `Window`: the class.

Coordinates are exact reals. The rules only compare and add them, so no
floating-point rounding is modelled.

## What the engine supplies

Whatever `arcade` decides arrives as input, in a `Frame` or a `LevelMap`:

- the player's centre and velocity after `PhysicsEnginePlatformer.update`;
- for each arrow id, the ids of the enemies it overlaps. The hit list is
  then every entry of the enemy list with such an id, so the hexagon, listed
  twice, appears twice and is worth ten points. That is the engine's plain
  collision path, which tests each entry of the list. With a spatial hash the
  engine would report the hexagon once, for five points, while both its
  entries still leave; the model assumes the plain path;
- the ids of the coins the player overlaps;
- whether the player overlaps the "Don't Touch" layer, as a function of
  the player's centre;
- whether the player overlaps an enemy, as a function of the player's
  centre. The rules move the player between these tests, and turning an
  enemy does not move it, so the centre is all they depend on;
- the ids of the enemies that overlap a wall;
- the next level's map: its width in tiles, its coin and enemy layers, and
  the new hexagon sprite.

`can_jump` is an argument of `OnKeyPress`.

The engine's `Sprite.update` of arrows and enemies is modelled as "centre
plus velocity". Only horizontal motion is modelled for enemies.

A sprite's `left`, `right`, `bottom` and `top` are the edges of its hit box.
The engine trims that box to the image's opaque pixels and turns it with the
sprite's angle, so the edges need not lie symmetrically around the centre.
Every sprite therefore carries a `Reach`: its four distances from centre to
edge. The player's reach is fixed for the window, because every player
sprite uses the same image and scaling and is never turned. The hexagon's
reach comes with the level map. Each arrow has its own reach, which covers
the angle it was fired at.

## Behaviour the model keeps as the code has it

- **Hazards do not kill.** Touching a hazard does not increment `death`.
  It only respawns the player, stops it and resets the camera
  (main.py:361-372). `Properties.StepHazard` proves that the death count is
  unchanged.
- **Level advance resets the counters.** Reaching the end of the map calls
  `setup`, which zeroes `score` and `death` (main.py:136-138).
  `Properties.StepLevelAdvance` proves it.
- **The enemy-contact test repeats.** It sits inside the per-enemy loop,
  so it runs once per enemy entry (main.py:402-406).
  `Properties.ContactOutcome` gives the result:
  - no death when the player is clear;
  - one death when the player touches an enemy;
  - one death per entry when the start position itself touches an enemy.
- **The hexagon enemy is listed twice.** `setup` appends the same hexagon
  sprite to the enemy list twice (main.py:206-214). The engine therefore
  moves it twice a frame, and the patrol loop turns it twice, which undoes
  the turn. `Properties.TwiceListedNeverTurns` proves that it never
  reverses.
- **The arrow loop skips arrows.** The loop walks the arrow list by
  position while it removes arrows from that same list. After an arrow
  leaves, the next one takes its place and is passed over for the frame
  (`Properties.ArrowAfterRemovedOneIsSkipped`). In the program as it
  stands, the arrow list is always empty. `on_mouse_press` appends new
  arrows to `bullet_list`, which the window never creates (main.py:302),
  and nothing else adds to `arrow_list`. The model covers any arrow list.
- **The off-screen test mixes axes.** It compares the arrow's vertical
  edge `bottom` with the window width, as the code does (main.py:329).
- **Truncation can leave the band.** After truncation a player that fits
  the band can lie up to one pixel outside it
  (`Camera.BandWithinOnePixel`, `Camera.TruncationCanLeaveBand`).

## Model

| member | source | states |
|---|---|---|
| Numeric.TruncToZero | main.py:434-438 | `int()` on an offset: for a non-negative offset the result is the largest whole number not above it; for a negative one, the smallest not below it. A whole offset is unchanged. |
| Camera.Scroll | main.py:411-432 | Scroll left puts the left margin on the player's left edge. Scroll right grows the offset by exactly the positive overshoot, and likewise for up. Scroll down puts the bottom margin on the player's bottom edge. Inside the band nothing moves, and nothing moves unless a check fired. A box that fits ends inside the band, and a check fires exactly when the box was outside it. |
| Camera.Truncate | main.py:434-438 | Each offset rounds toward zero by less than one pixel: a non-negative offset goes down to the whole pixel at or below it, a negative one up to the whole pixel at or above it. Both results are whole pixels, and whole offsets are left unchanged. |
| Camera.BandWithinOnePixel | main.py:411-438 | After scrolling and truncation, a box that fits the band is within one pixel of it on every side. |
| Camera.TruncationCanLeaveBand | main.py:434-438 | Some fitting box is inside the band after scrolling but outside it after truncation. |
| Controls.Press | main.py:252-262 | A left key sets full speed leftwards and a right key full speed rightwards. A jump key sets the jump speed only when the player can jump. Nothing else changes the velocity. |
| Controls.Release | main.py:304-310 | Releasing a horizontal key stops horizontal motion. Other keys change nothing, and vertical speed is kept. |
| Controls.PressThenReleaseStops | main.py:304-310 | Pressing and releasing a horizontal key leaves the player still horizontally, with vertical speed as before. |
| Sprites.Kept | main.py:337-339 | An id is left after removing sprites exactly when it was listed and not removed, and the list does not grow. |
| Sprites.KeptCounts | main.py:337-339 | A sprite that is not removed keeps every one of its entries, however often it is listed; a removed one keeps none. |
| Sprites.Hit | main.py:333-334 | An id is in the hit list exactly when it is listed and the engine reports it as overlapping, and the hit list is no longer than the list. |
| Sprites.HitCounts | main.py:333-334 | The hit list holds an overlapping sprite as often as the list does, and no other sprite. |
| Sprites.SplitCount | main.py:337-343 | Every entry is either kept or hit. |
| Sprites.KeptTwice | main.py:326-327 | Removing one set of sprites and then another is removing their union. |
| Sprites.KeptAgree | main.py:326-327 | Only ids that occur in the list affect what is kept. |
| Sprites.KeptNone | main.py:337-339 | Removing nothing keeps the list. |
| Sprites.KeptAllHits | main.py:337-339 | Removing every sprite of the hit list removes exactly the hit entries. |
| Sprites.HitAfterKept | main.py:337-343 | Once the hit sprites are removed, none of them can be hit again, and removing them again changes nothing. |
| Sprites.RemoveHits | main.py:326-328 | The loop over a hit list leaves the list without the hit sprites and adds the reward once per hit entry. |
| Sprites.MoveAllMoves | main.py:389 | `enemy_list.update()` moves each sprite by its speed once per entry of the list, and changes nothing else about any sprite. |
| Rules.Patrol | main.py:392-401 | An enemy either keeps its speed or has it negated, and keeps its magnitude. It is negated exactly when it hits a wall or is past a boundary. |
| Rules.PatrolTwice | main.py:392-401 | A second visit to the same enemy in one frame turns it back. |
| Properties.ArrowPassConserves | main.py:322-330 | The arrow loop removes enemies for five points an entry, keeping score plus five per listed enemy constant. The score never falls, and the loop only ever removes arrows and enemies. |
| Properties.ArrowStepConserves | main.py:323-330 | The same balance holds for one arrow's visit. |
| Properties.ArrowStepRemoves | main.py:323-330 | After one arrow's visit no enemy it hit is left, every other enemy keeps all its entries, and the arrow leaves the list exactly when it hit something or is off screen; otherwise the arrow list is unchanged. |
| Properties.ArrowAfterRemovedOneIsSkipped | main.py:322-330 | Of two arrows that are both off screen, only the first leaves the list this frame. |
| Properties.CoinsCountOnce | main.py:332-343 | Score plus remaining coins is constant. No coin that was touched is left, and a second pickup with the same hits changes nothing. |
| Properties.ContactOutcome | main.py:402-406 | The repeated contact test adds no death when the player is clear, one when the player touches an enemy, and one per entry when the start position touches too. Any death puts the player at the start. |
| Properties.PatrolParity | main.py:392-401 | The patrol loop turns a sprite once if it is listed an odd number of times and leaves it otherwise. Every sprite stays. |
| Properties.PatrolKeepsSpeed | main.py:392-401 | Every enemy keeps its speed magnitude through the patrol loop. |
| Properties.TwiceListedNeverTurns | main.py:206-214 | A sprite listed twice moves two steps a frame and never turns. |
| Properties.SetupListsHexagonTwice | main.py:204-214 | After `setup`, the hexagon is listed exactly twice, and every listed enemy has a sprite. |
| Properties.LoopsKeepPlayer | main.py:322-343 | The arrow and coin loops leave the player, the camera, the deaths, the level and the enemies' sprites alone. |
| Properties.StepOffsetsIntegral | main.py:345-438 | Offsets that start as whole pixels are whole pixels after a frame. |
| Properties.StepNearBand | main.py:408-438 | A player whose hit box fits the margin band ends every frame within one pixel of the band on every side. |
| Properties.RespawnScroll | main.py:411-438 | A camera at the origin with the player at the start ends the frame at the respawn view. |
| Rules.NextState | main.py:312-438 | One frame keeps the player's hit box. It raises the level by at most one, and by exactly one when the player reaches the map's end before the enemy loop. |
| Properties.StepCameraStill | main.py:411-434 | With no respawn, no level end and no enemy contact, a player inside the margin band leaves the camera where it was. |
| Properties.StepFallOff | main.py:349-358 | When the start position touches no hazard or enemy and lies before the map's end, falling below -100 puts the player at the start with its velocity kept. It adds exactly one death and restarts the camera from the origin. |
| Properties.StepHazard | main.py:361-372 | When the start position touches no enemy and lies before the map's end, touching a hazard stops the player at the start and restarts the camera from the origin. The death count is unchanged. |
| Properties.StepLevelAdvance | main.py:375-385 | When the start position touches no enemy, reaching the map's end raises the level by one. `setup` zeroes score and deaths, stands the player still at the start, loads the next map's edge and lists, and restarts the camera from the origin. |
| Properties.StepScoreAccounting | main.py:322-343 | Without a level change, score plus one per coin plus five per enemy entry is constant, and the score never falls. |
| Properties.StepDeathAccounting | main.py:349-406 | Without a level change, deaths grow by one for a fall, none for a hazard, and the repeated contact count. |
| Properties.LevelCheckKeepsWellFormed | main.py:375-385 | Every listed enemy has a sprite when the enemy loop starts. |
| Properties.StepKeepsWellFormed | main.py:312-406 | Every listed enemy still has a sprite after a frame. |
| Window.MyGame.constructor | main.py:447-450 | The window starts at level 1 and runs `setup`. It then satisfies the class invariant: whole-pixel offsets, and a sprite for every listed enemy. |
| Window.MyGame.Setup | main.py:128-214 | The new state is `Rules.Setup` of the old one. |
| Window.MyGame.HomeCamera | main.py:131-133 | Both offsets become zero, and nothing else changes. |
| Window.MyGame.Respawn | main.py:152-153 | The player is at the start, and nothing else changes. |
| Window.MyGame.NewPlayer | main.py:149-153 | The player stands still at the start. |
| Window.MyGame.LoadMap | main.py:171-214 | The map edge, coins and enemy lists come from the new map. The arrow list is empty, and the hexagon is added. |
| Window.MyGame.AddHexagon | main.py:206-214 | The hexagon sprite is added, and listed twice more. |
| Window.MyGame.OnKeyPress | main.py:252-262 | The velocity becomes `Controls.Press` of the old one. |
| Window.MyGame.OnKeyRelease | main.py:304-310 | The velocity becomes `Controls.Release` of the old one. |
| Window.MyGame.PhysicsStep | main.py:317 | The player takes the engine's centre and velocity. |
| Window.MyGame.FlyArrows | main.py:319 | Every arrow moves by its velocity. |
| Window.MyGame.UpdateArrows | main.py:322-330 | The arrow list, enemy list and score become those of the arrow loop's specification. |
| Window.MyGame.VisitArrow | main.py:323-330 | One arrow's visit does what the loop body's specification says. |
| Window.MyGame.CollectCoins | main.py:332-343 | The coins and score become those of the coin step's specification. |
| Window.MyGame.CheckFall | main.py:349-358 | The fall-off rule is applied, and the result reports whether it fired. |
| Window.MyGame.CheckHazard | main.py:361-372 | The hazard rule is applied, and the result reports whether it fired. |
| Window.MyGame.CheckLevelEnd | main.py:375-385 | The level rule is applied, and the result reports whether it fired. |
| Window.MyGame.MoveEnemies | main.py:389 | Every enemy entry moves its sprite once. |
| Window.MyGame.PatrolEnemies | main.py:392-406 | The sprites are turned as the patrol specification says, and the player and deaths follow the repeated contact test. |
| Window.MyGame.TurnEnemy | main.py:393-401 | Only the visited enemy changes, as `Rules.Patrol` says. |
| Window.MyGame.CheckContact | main.py:403-406 | One contact test is applied. |
| Window.MyGame.ScrollView | main.py:408-438 | The camera becomes the scroll of the old camera for the player's box, truncated when anything moved the camera this frame. |
| Window.MyGame.ScrollHorizontally | main.py:410-420 | Scroll left then right, and report whether either check fired. |
| Window.MyGame.ScrollVertically | main.py:422-432 | Scroll up then down, and report whether either check fired. |
| Window.MyGame.Update | main.py:312-438 | Keeps the class invariant, and the new state is `Rules.NextState` of the old state and the frame. |

## Left out

- Rendering: `on_draw`, the score and death text, `set_viewport`, and the title and instruction views. These are engine drawing calls.
- Map and asset loading: `read_tmx`, `process_layer`, textures and sounds. These are foreign calls. Their results arrive as a `LevelMap`. Every `Frame` carries the next level's map, so the error `read_tmx` raises inside `update` when `map_level_N.tmx` does not exist for the next level (main.py:171-174, 380) is not modelled.
- The wall, foreground, background, player and hazard lists built by `setup`, and the background colour. The rules reach them only through the engine's collision answers.
- The physics engine's integration, gravity and `can_jump`. They are engine code, so their results are inputs.
- Collision geometry (`check_for_collision_with_list`). It is engine code. Its answers are inputs as id sets and contact functions.
- Firing arrows (`on_mouse_press`). It uses floating-point trigonometry and appends to a `bullet_list` the window never creates.
- Audio: every `play_sound` call. The sound handle stored in `death` is overwritten by the death counter in `setup`, so main.py:358 and 372 pass an integer to `play_sound`. The model assumes that call returns and the frame goes on; an error it might raise there is not modelled.
- The `game_over` flag and the `GAME_OVER` state. Nothing ever sets them, so the enemy step always runs.
- Enemies' vertical motion. No rule reads it.
- Changes of a sprite's hit box after it is created. The model fixes each sprite's reach. The engine would turn an arrow's hit box further only through `change_angle`, which the game never sets.
- `remove_from_sprite_lists` on a sprite listed twice is modelled as dropping every entry with its id. That is what the engine's removal loop does for a sprite registered with the same list twice.
