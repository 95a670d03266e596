/** The per-frame game rules of `MyGame.update` and the level reset of
    `MyGame.setup`, as functions on a snapshot of the game's fields. Whatever
    the engine decides (physics, collision tests, map loading) arrives in a
    `Frame`. */
module Rules {
  import opened Numeric
  import opened Sprites
  import opened Camera

  const PlayerStartX: real := 64.0
  const PlayerStartY: real := 64.0
  /** Below this centre height the player has fallen off the map. */
  const FallLimit: real := -100.0
  const SpritePixelSize: nat := 256
  const TileScaling: nat := 1
  const GridPixelSize: nat := SpritePixelSize * TileScaling
  const CoinReward: int := 1
  const EnemyReward: int := 5
  /** The hexagon enemy that `setup` adds to every level. */
  const PatrolSpeed: real := 2.0
  const PatrolBoundaryLeft: real := (SpritePixelSize * 3) as real
  const PatrolBoundaryRight: real := (SpritePixelSize * 8) as real

  /** What the map loader yields for a level: its width in tiles, the coin and
      enemy layers, and the new hexagon sprite's id and hit box. */
  datatype LevelMap = LevelMap(
    widthTiles: nat,
    coins: seq<nat>,
    enemies: seq<nat>,
    enemySprites: map<nat, Enemy>,
    patrolId: nat,
    patrolReach: Reach)
  {
    /** Every listed enemy exists, and the hexagon is a new sprite. */
    predicate WellFormed() {
      (forall id :: id in enemies ==> id in enemySprites) && patrolId !in enemySprites
    }
  }

  /** The fields of `MyGame` that the rules read or write. */
  datatype GameState = GameState(
    centerX: real,
    centerY: real,
    changeX: real,
    changeY: real,
    reach: Reach,
    viewLeft: real,
    viewBottom: real,
    score: int,
    death: int,
    level: int,
    endOfMap: real,
    coins: seq<nat>,
    enemies: seq<nat>,
    enemySprites: map<nat, Enemy>,
    arrows: seq<Arrow>)
  {
    function PlayerBox(): Box {
      Box(centerX - reach.left, centerX + reach.right, centerY - reach.bottom, centerY + reach.top)
    }

    function View(): Viewport { Viewport(viewLeft, viewBottom) }

    /** Every listed enemy has a sprite. */
    predicate WellFormed() {
      forall id :: id in enemies ==> id in enemySprites
    }
  }

  /** The engine's answers for one frame. `x`, `y`, `changeX`, `changeY` are
      the player's centre and velocity after the physics engine ran. The
      contact tests for hazards and enemies take the player's centre, because
      the rules move the player between tests. */
  datatype Frame = Frame(
    x: real,
    y: real,
    changeX: real,
    changeY: real,
    arrowHits: nat -> set<nat>,
    coinHits: set<nat>,
    touchesHazard: (real, real) -> bool,
    nextMap: LevelMap,
    enemyWallHits: set<nat>,
    touchesEnemy: (real, real) -> bool)

  function PatrolEnemy(m: LevelMap): Enemy {
    Enemy(0.0, m.patrolReach, PatrolSpeed, Some(PatrolBoundaryLeft), Some(PatrolBoundaryRight))
  }

  /** The window as `MyGame.__init__` leaves it: camera at the origin, no
      score, no deaths, level 1, no map loaded yet. */
  function Initial(reach: Reach): GameState {
    GameState(0.0, 0.0, 0.0, 0.0, reach, 0.0, 0.0, 0, 0, 1, 0.0, [], [], map[], [])
  }

  /** `setup`: camera, score and death count to zero, a new player standing at
      the start, and the lists of the new map, plus the hexagon enemy listed
      twice. `setup` does not touch the level number. */
  function Setup(s: GameState, m: LevelMap): GameState {
    s.(viewLeft := 0.0, viewBottom := 0.0, score := 0, death := 0,
       centerX := PlayerStartX, centerY := PlayerStartY, changeX := 0.0, changeY := 0.0,
       coins := m.coins,
       enemies := m.enemies + [m.patrolId, m.patrolId],
       enemySprites := m.enemySprites[m.patrolId := PatrolEnemy(m)],
       arrows := [],
       endOfMap := MapEdge(m))
  }

  /** The right edge of a map in pixels. */
  function MapEdge(m: LevelMap): real {
    (m.widthTiles * GridPixelSize) as real
  }

  /** The physics engine's move, as reported by the frame. */
  function Physics(s: GameState, f: Frame): GameState {
    s.(centerX := f.x, centerY := f.y, changeX := f.changeX, changeY := f.changeY)
  }

  /** The culling test of the arrow loop. It compares the vertical edge
      `bottom` with the window width as well. */
  predicate OffScreen(a: Arrow) {
    a.Bottom() > ScreenWidth || a.Top() < 0.0 || a.Right() < 0.0 || a.Left() > ScreenWidth
  }

  datatype Volley = Volley(arrows: seq<Arrow>, enemies: seq<nat>, score: int)

  /** The arrow loop from position `i` on. The loop walks the arrow list by
      position while arrows are removed from it, so after a removal the next
      arrow slides into the removed one's place and is passed over. */
  function ArrowPass(v: Volley, hits: nat -> set<nat>, i: nat): Volley
    decreases |v.arrows| - i
  {
    if i >= |v.arrows| then v
    else ArrowPass(ArrowStep(v, hits, i), hits, i + 1)
  }

  /** One pass of the arrow loop's body, on the arrow at position `i`: it
      leaves the list if it hit an enemy or is off screen, and every enemy it
      hit leaves the enemy list for five points an entry. */
  function ArrowStep(v: Volley, hits: nat -> set<nat>, i: nat): Volley
    requires i < |v.arrows|
  {
    var a := v.arrows[i];
    var hitList := Hit(v.enemies, hits(a.id));
    var enemies := Kept(v.enemies, hits(a.id));
    var score := v.score + EnemyReward * |hitList|;
    var arrows := if |hitList| > 0 || OffScreen(a) then v.arrows[..i] + v.arrows[i + 1..] else v.arrows;
    Volley(arrows, enemies, score)
  }

  /** The arrow loop on the game's lists and score. */
  function ArrowLoop(s: GameState, hits: nat -> set<nat>): GameState {
    var v := ArrowPass(Volley(s.arrows, s.enemies, s.score), hits, 0);
    s.(arrows := v.arrows, enemies := v.enemies, score := v.score)
  }

  /** The engine moves every arrow, then the arrow loop runs. */
  function ArrowPhase(s: GameState, f: Frame): GameState {
    ArrowLoop(s.(arrows := MoveArrows(s.arrows)), f.arrowHits)
  }

  function CoinPhase(s: GameState, f: Frame): GameState {
    s.(coins := Kept(s.coins, f.coinHits), score := s.score + CoinReward * |Hit(s.coins, f.coinHits)|)
  }

  predicate Falls(s: GameState) {
    s.centerY < FallLimit
  }

  /** Falling off the map: back to the start, one more death, camera home.
      The velocity is kept. */
  function FallOff(s: GameState): GameState {
    if Falls(s) then
      s.(centerX := PlayerStartX, centerY := PlayerStartY, death := s.death + 1,
         viewLeft := 0.0, viewBottom := 0.0)
    else s
  }

  predicate TouchesHazard(s: GameState, f: Frame) {
    f.touchesHazard(s.centerX, s.centerY)
  }

  /** Touching the "Don't Touch" layer: stop, back to the start, camera home.
      The death count is not incremented. */
  function HazardPhase(s: GameState, f: Frame): GameState {
    if TouchesHazard(s, f) then
      s.(changeX := 0.0, changeY := 0.0, centerX := PlayerStartX, centerY := PlayerStartY,
         viewLeft := 0.0, viewBottom := 0.0)
    else s
  }

  predicate ReachesEnd(s: GameState) {
    s.centerX >= s.endOfMap
  }

  function LevelPhase(s: GameState, f: Frame): GameState {
    if ReachesEnd(s) then Setup(s.(level := s.level + 1), f.nextMap).(viewLeft := 0.0, viewBottom := 0.0)
    else s
  }

  /** One of the three reasons for an enemy to turn round: a wall, or being
      past its left or right patrol boundary. */
  predicate Reverses(e: Enemy, hitsWall: bool) {
    hitsWall ||
    (e.boundaryLeft.Some? && e.Left() < e.boundaryLeft.value) ||
    (e.boundaryRight.Some? && e.Right() > e.boundaryRight.value)
  }

  /** One visit of the enemy loop to an enemy: negate its speed at most once. */
  function Patrol(e: Enemy, hitsWall: bool): (r: Enemy)
    ensures r == e || r == e.(changeX := -e.changeX)
    ensures Abs(r.changeX) == Abs(e.changeX)
    ensures Reverses(e, hitsWall) ==> r.changeX == -e.changeX
    ensures r != e ==> Reverses(e, hitsWall)
  {
    if hitsWall then e.(changeX := e.changeX * -1.0)
    else if e.boundaryLeft.Some? && e.Left() < e.boundaryLeft.value then e.(changeX := e.changeX * -1.0)
    else if e.boundaryRight.Some? && e.Right() > e.boundaryRight.value then e.(changeX := e.changeX * -1.0)
    else e
  }

  /** Turning does not move an enemy, so a second visit in the same frame
      turns it back. */
  lemma PatrolTwice(e: Enemy, hitsWall: bool)
    ensures Patrol(Patrol(e, hitsWall), hitsWall) == e
  {
    var r := Patrol(e, hitsWall);
    assert r.Left() == e.Left() && r.Right() == e.Right();
    assert Reverses(r, hitsWall) == Reverses(e, hitsWall);
  }

  function Turn(sprites: map<nat, Enemy>, id: nat, wallHits: set<nat>): map<nat, Enemy> {
    if id in sprites then sprites[id := Patrol(sprites[id], id in wallHits)] else sprites
  }

  /** The reversal part of the enemy loop, entry by entry in list order. */
  function PatrolAll(list: seq<nat>, sprites: map<nat, Enemy>, wallHits: set<nat>): map<nat, Enemy> {
    if list == [] then sprites
    else Turn(PatrolAll(list[..|list| - 1], sprites, wallHits), list[|list| - 1], wallHits)
  }

  /** Where the player stands and how often it has died. */
  datatype Spot = Spot(x: real, y: real, death: int)

  /** The enemy-contact test that the enemy loop repeats once per entry. */
  function ContactChecks(p: Spot, n: nat, touches: (real, real) -> bool): Spot {
    if n == 0 then p
    else
      var q := ContactChecks(p, n - 1, touches);
      if touches(q.x, q.y) then Spot(PlayerStartX, PlayerStartY, q.death + 1) else q
  }

  /** The enemy loop: the turns, and the contact test once per entry. */
  function PatrolPhase(s: GameState, f: Frame): GameState {
    var spot := ContactChecks(Spot(s.centerX, s.centerY, s.death), |s.enemies|, f.touchesEnemy);
    s.(enemySprites := PatrolAll(s.enemies, s.enemySprites, f.enemyWallHits),
       centerX := spot.x, centerY := spot.y, death := spot.death)
  }

  /** The engine moves every enemy entry, then the enemy loop runs. */
  function EnemyPhase(s: GameState, f: Frame): GameState {
    PatrolPhase(s.(enemySprites := MoveAll(s.enemies, s.enemySprites)), f)
  }

  /** The four margin checks, then truncation to whole pixels when they or an
      earlier respawn or level change (`moved`) touched the camera. */
  function ScrollPhase(s: GameState, moved: bool): GameState {
    var sc := Scroll(s.View(), s.PlayerBox());
    var view := if moved || sc.changed then Truncate(sc.view) else sc.view;
    s.(viewLeft := view.left, viewBottom := view.bottom)
  }

  /** The state just before the level-end test. */
  function BeforeLevelCheck(s: GameState, f: Frame): GameState {
    HazardPhase(FallOff(CoinPhase(ArrowPhase(Physics(s, f), f), f)), f)
  }

  /** One call of `MyGame.update`. The player's hit box is never changed, and
      a frame advances at most one level. */
  function NextState(s: GameState, f: Frame): (r: GameState)
    ensures r.reach == s.reach
    ensures r.level == s.level || r.level == s.level + 1
    ensures r.level == s.level + 1 <==> ReachesEnd(BeforeLevelCheck(s, f))
  {
    var s1 := CoinPhase(ArrowPhase(Physics(s, f), f), f);
    var s2 := FallOff(s1);
    var s3 := HazardPhase(s2, f);
    var s4 := LevelPhase(s3, f);
    var s5 := EnemyPhase(s4, f);
    ScrollPhase(s5, Falls(s1) || TouchesHazard(s2, f) || ReachesEnd(s3))
  }
}
