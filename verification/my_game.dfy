/** The game window `MyGame`: the fields that `setup`, the key handlers and
    `update` assign, and those methods, each proved to do what the matching
    function of `Rules` or `Controls` describes. */
module Window {
  import opened Numeric
  import opened Sprites
  import opened Camera
  import opened Controls
  import opened Rules
  import Properties

  class MyGame {
    /** The player's hit box around its centre; every player sprite uses the
        same image and scaling and is never turned. */
    const reach: Reach

    var centerX: real
    var centerY: real
    var changeX: real
    var changeY: real
    var viewLeft: real
    var viewBottom: real
    var score: int
    var death: int
    var level: int
    var endOfMap: real
    var coins: seq<nat>
    var enemies: seq<nat>
    var enemySprites: map<nat, Enemy>
    var arrows: seq<Arrow>

    function State(): GameState
      reads this
    {
      GameState(centerX, centerY, changeX, changeY, reach, viewLeft, viewBottom,
        score, death, level, endOfMap, coins, enemies, enemySprites, arrows)
    }

    /** Camera offsets are whole pixels between frames, and every listed
        enemy has a sprite. */
    ghost predicate Valid()
      reads this
    {
      Integral(viewLeft) && Integral(viewBottom) && State().WellFormed()
    }

    /** `MyGame()`, which starts at level 1 with no score, no deaths and the
        camera at the origin, followed by `setup` of level 1, as `main` does. */
    constructor (reach: Reach, first: LevelMap)
      requires first.WellFormed()
      ensures Valid()
      ensures State() == Rules.Setup(Initial(reach), first)
    {
      this.reach := reach;
      viewBottom, viewLeft := 0.0, 0.0;
      score, death := 0, 0;
      endOfMap := 0.0;
      level := 1;
      new;
      Setup(first);
      Properties.SetupListsHexagonTwice(Initial(reach), first);
    }

    /** `setup(level)`: reset the camera, the score and the death count,
        place a new player at the start and take the lists of the new map,
        appending the hexagon enemy twice. */
    method Setup(m: LevelMap)
      modifies this
      ensures State() == Rules.Setup(old(State()), m)
    {
      HomeCamera();
      score, death := 0, 0;
      NewPlayer();
      LoadMap(m);
    }

    /** Camera offsets back to the origin. */
    method HomeCamera()
      modifies this`viewLeft, this`viewBottom
      ensures State() == old(State()).(viewLeft := 0.0, viewBottom := 0.0)
    {
      viewBottom, viewLeft := 0.0, 0.0;
    }

    /** The player back at the start position, keeping its velocity. */
    method Respawn()
      modifies this`centerX, this`centerY
      ensures State() == old(State()).(centerX := PlayerStartX, centerY := PlayerStartY)
    {
      centerX, centerY := PlayerStartX, PlayerStartY;
    }

    /** A new player sprite, standing still at the start. */
    method NewPlayer()
      modifies this`centerX, this`centerY, this`changeX, this`changeY
      ensures State() == old(State()).(centerX := PlayerStartX, centerY := PlayerStartY, changeX := 0.0, changeY := 0.0)
    {
      changeX, changeY := 0.0, 0.0;
      Respawn();
    }

    /** The map's edge and layers, an empty arrow list, and the hexagon enemy
        appended to the enemy list twice. */
    method LoadMap(m: LevelMap)
      modifies this`endOfMap, this`coins, this`enemies, this`enemySprites, this`arrows
      ensures State() == old(State()).(endOfMap := MapEdge(m), coins := m.coins, arrows := [],
        enemies := m.enemies + [m.patrolId, m.patrolId],
        enemySprites := m.enemySprites[m.patrolId := PatrolEnemy(m)])
    {
      endOfMap := MapEdge(m);
      coins, arrows := m.coins, [];
      enemies, enemySprites := m.enemies, m.enemySprites;
      AddHexagon(m);
    }

    /** The hexagon sprite, appended to the enemy list twice. */
    method AddHexagon(m: LevelMap)
      modifies this`enemies, this`enemySprites
      ensures State() == old(State()).(enemies := old(enemies) + [m.patrolId, m.patrolId],
        enemySprites := old(enemySprites)[m.patrolId := PatrolEnemy(m)])
    {
      var hexagon := PatrolEnemy(m);
      enemySprites := enemySprites[m.patrolId := hexagon];
      enemies := enemies + [m.patrolId];
      enemies := enemies + [m.patrolId];
    }

    /** `on_key_press`. */
    method OnKeyPress(key: Key, canJump: bool)
      modifies this`changeX, this`changeY
      ensures Velocity(changeX, changeY) == Press(key, canJump, old(Velocity(changeX, changeY)))
    {
      if IsJumpKey(key) {
        if canJump {
          changeY := PlayerJumpSpeed;
        }
      } else if IsLeftKey(key) {
        changeX := -PlayerMovementSpeed;
      } else if IsRightKey(key) {
        changeX := PlayerMovementSpeed;
      }
    }

    /** `on_key_release`. */
    method OnKeyRelease(key: Key)
      modifies this`changeX
      ensures Velocity(changeX, changeY) == Release(key, old(Velocity(changeX, changeY)))
    {
      if IsLeftKey(key) {
        changeX := 0.0;
      } else if IsRightKey(key) {
        changeX := 0.0;
      }
    }

    /** The physics engine's move of the player. */
    method PhysicsStep(f: Frame)
      modifies this`centerX, this`centerY, this`changeX, this`changeY
      ensures State() == Physics(old(State()), f)
    {
      centerX, centerY, changeX, changeY := f.x, f.y, f.changeX, f.changeY;
    }

    /** The engine's move of every arrow. */
    method FlyArrows()
      modifies this`arrows
      ensures State() == old(State()).(arrows := MoveArrows(old(arrows)))
    {
      arrows := MoveArrows(arrows);
    }

    /** The arrow loop of `update`: each arrow that hits enemies is removed,
        every enemy it hits is removed for five points, and an arrow off the
        screen is removed. */
    method UpdateArrows(hits: nat -> set<nat>)
      modifies this`arrows, this`enemies, this`score
      ensures State() == ArrowLoop(old(State()), hits)
    {
      ghost var start := Volley(arrows, enemies, score);
      var i := 0;
      while i < |arrows|
        invariant ArrowPass(Volley(arrows, enemies, score), hits, i) == ArrowPass(start, hits, 0)
        decreases |arrows| - i
      {
        VisitArrow(i, hits);
        i := i + 1;
      }
    }

    /** The body of the arrow loop for the arrow at position `i`. */
    method VisitArrow(i: nat, hits: nat -> set<nat>)
      requires i < |arrows|
      modifies this`arrows, this`enemies, this`score
      ensures Volley(arrows, enemies, score) == ArrowStep(old(Volley(arrows, enemies, score)), hits, i)
    {
      var arrow := arrows[i];
      var hitList := Hit(enemies, hits(arrow.id));
      var removed := false;
      if |hitList| > 0 {
        arrows := arrows[..i] + arrows[i + 1..];
        removed := true;
      }
      enemies, score := RemoveHits(enemies, hits(arrow.id), EnemyReward, score);
      if !removed && OffScreen(arrow) {
        arrows := arrows[..i] + arrows[i + 1..];
      }
    }

    /** The coin loop of `update`: one point per coin touched, and the coin
        leaves its list. */
    method CollectCoins(f: Frame)
      modifies this`coins, this`score
      ensures State() == CoinPhase(old(State()), f)
    {
      coins, score := RemoveHits(coins, f.coinHits, CoinReward, score);
    }

    /** Below the fall limit: back to the start, one more death, camera home. */
    method CheckFall() returns (fell: bool)
      modifies this`centerX, this`centerY, this`death, this`viewLeft, this`viewBottom
      ensures fell == Falls(old(State()))
      ensures State() == FallOff(old(State()))
    {
      fell := false;
      if centerY < FallLimit {
        Respawn();
        death := death + 1;
        HomeCamera();
        fell := true;
      }
    }

    /** Touching a hazard: stop, back to the start, camera home. */
    method CheckHazard(f: Frame) returns (touched: bool)
      modifies this`centerX, this`centerY, this`changeX, this`changeY, this`viewLeft, this`viewBottom
      ensures touched == TouchesHazard(old(State()), f)
      ensures State() == HazardPhase(old(State()), f)
    {
      touched := false;
      if f.touchesHazard(centerX, centerY) {
        changeX, changeY := 0.0, 0.0;
        Respawn();
        HomeCamera();
        touched := true;
      }
    }

    /** At the map's right edge: next level, `setup`, camera home. */
    method CheckLevelEnd(f: Frame) returns (advanced: bool)
      modifies this
      ensures advanced == ReachesEnd(old(State()))
      ensures State() == LevelPhase(old(State()), f)
    {
      advanced := false;
      if centerX >= endOfMap {
        level := level + 1;
        Setup(f.nextMap);
        HomeCamera();
        advanced := true;
      }
    }

    /** The engine's move of every enemy entry. */
    method MoveEnemies()
      modifies this`enemySprites
      ensures State() == old(State()).(enemySprites := MoveAll(old(enemies), old(enemySprites)))
    {
      enemySprites := MoveAll(enemies, enemySprites);
    }

    /** The enemy loop of `update`: turn each listed enemy at most once, and
        after each one test the player against all enemies. */
    method PatrolEnemies(f: Frame)
      requires State().WellFormed()
      modifies this`enemySprites, this`centerX, this`centerY, this`death
      ensures State() == PatrolPhase(old(State()), f)
    {
      ghost var sprites := enemySprites;
      ghost var spot := Spot(centerX, centerY, death);
      for i := 0 to |enemies|
        invariant enemySprites == PatrolAll(enemies[..i], sprites, f.enemyWallHits)
        invariant Spot(centerX, centerY, death) == ContactChecks(spot, i, f.touchesEnemy)
      {
        var id := enemies[i];
        assert enemies[..i + 1] == enemies[..i] + [id];
        Properties.PatrolParity(enemies[..i], sprites, f.enemyWallHits, id);
        TurnEnemy(id, id in f.enemyWallHits);
        CheckContact(f.touchesEnemy);
      }
      assert enemies[..|enemies|] == enemies;
    }

    /** Turn the enemy `id` round if it hit a wall or passed a boundary. */
    method TurnEnemy(id: nat, hitsWall: bool)
      requires id in enemySprites
      modifies this`enemySprites
      ensures enemySprites == old(enemySprites)[id := Patrol(old(enemySprites)[id], hitsWall)]
    {
      var e := enemySprites[id];
      if hitsWall {
        enemySprites := enemySprites[id := e.(changeX := e.changeX * -1.0)];
      } else if e.boundaryLeft.Some? && e.Left() < e.boundaryLeft.value {
        enemySprites := enemySprites[id := e.(changeX := e.changeX * -1.0)];
      } else if e.boundaryRight.Some? && e.Right() > e.boundaryRight.value {
        enemySprites := enemySprites[id := e.(changeX := e.changeX * -1.0)];
      }
    }

    /** The enemy-contact test: back to the start and one more death. */
    method CheckContact(touches: (real, real) -> bool)
      modifies this`centerX, this`centerY, this`death
      ensures Spot(centerX, centerY, death) == ContactChecks(old(Spot(centerX, centerY, death)), 1, touches)
    {
      if touches(centerX, centerY) {
        Respawn();
        death := death + 1;
      }
    }

    /** Scroll left, right, up and down, then truncate both offsets when the
        camera moved in this frame. */
    method ScrollView(moved: bool)
      modifies this`viewLeft, this`viewBottom
      ensures State() == ScrollPhase(old(State()), moved)
    {
      ghost var s := State();
      var changedX := ScrollHorizontally();
      var changedY := ScrollVertically();
      ghost var sc := Scroll(s.View(), s.PlayerBox());
      assert sc.view == Viewport(viewLeft, viewBottom) && sc.changed == (changedX || changedY);
      if moved || changedX || changedY {
        viewBottom := TruncToZero(viewBottom) as real;
        viewLeft := TruncToZero(viewLeft) as real;
      }
    }

    /** Scroll left, then right. */
    method ScrollHorizontally() returns (changed: bool)
      modifies this`viewLeft
      ensures Pan(viewLeft, changed) == ScrollLeftRight(old(viewLeft), State().PlayerBox())
    {
      changed := false;
      var leftBoundary := viewLeft + LeftMargin;
      if centerX - reach.left < leftBoundary {
        viewLeft := viewLeft - (leftBoundary - (centerX - reach.left));
        changed := true;
      }
      var rightBoundary := viewLeft + ScreenWidth - RightMargin;
      if centerX + reach.right > rightBoundary {
        viewLeft := viewLeft + (centerX + reach.right - rightBoundary);
        changed := true;
      }
    }

    /** Scroll up, then down. */
    method ScrollVertically() returns (changed: bool)
      modifies this`viewBottom
      ensures Pan(viewBottom, changed) == ScrollUpDown(old(viewBottom), State().PlayerBox())
    {
      changed := false;
      var topBoundary := viewBottom + ScreenHeight - TopMargin;
      if centerY + reach.top > topBoundary {
        viewBottom := viewBottom + (centerY + reach.top - topBoundary);
        changed := true;
      }
      var bottomBoundary := viewBottom + BottomMargin;
      if centerY - reach.bottom < bottomBoundary {
        viewBottom := viewBottom - (bottomBoundary - (centerY - reach.bottom));
        changed := true;
      }
    }

    /** `update`: one frame of game logic. */
    method Update(f: Frame)
      requires Valid() && f.nextMap.WellFormed()
      modifies this
      ensures Valid()
      ensures State() == NextState(old(State()), f)
    {
      ghost var s0 := State();
      PhysicsStep(f);
      FlyArrows();
      UpdateArrows(f.arrowHits);
      CollectCoins(f);
      var fell := CheckFall();
      var touched := CheckHazard(f);
      var advanced := CheckLevelEnd(f);
      var changedViewport := fell || touched || advanced;
      ghost var s4 := State();
      Properties.LevelCheckKeepsWellFormed(s0, f);
      MoveEnemies();
      forall id | id in enemies ensures id in enemySprites {
        MoveAllMoves(enemies, s4.enemySprites, id);
      }
      PatrolEnemies(f);
      ScrollView(changedViewport);
      Properties.StepOffsetsIntegral(s0, f);
      Properties.StepKeepsWellFormed(s0, f);
    }
  }
}
