/** What one call of `MyGame.update` guarantees: camera scrolling, respawns,
    level advance, score and death accounting, and enemy patrols. */
module Properties {
  import opened Numeric
  import opened Sprites
  import opened Camera
  import opened Rules

  // ---------------------------------------------------------------------
  // Arrows

  /** The arrow loop trades enemies for score at five points an entry, only
      ever removes arrows and enemies, and never lowers the score. */
  lemma {:induction false} ArrowPassConserves(v: Volley, hits: nat -> set<nat>, i: nat)
    ensures var r := ArrowPass(v, hits, i);
      r.score + EnemyReward * |r.enemies| == v.score + EnemyReward * |v.enemies| &&
      r.score >= v.score &&
      (forall id :: id in r.enemies ==> id in v.enemies) &&
      (forall a :: a in r.arrows ==> a in v.arrows)
    decreases |v.arrows| - i
  {
    if i < |v.arrows| {
      ArrowStepConserves(v, hits, i);
      ArrowPassConserves(ArrowStep(v, hits, i), hits, i + 1);
    }
  }

  /** One pass of the arrow loop's body keeps the same balance. */
  lemma ArrowStepConserves(v: Volley, hits: nat -> set<nat>, i: nat)
    requires i < |v.arrows|
    ensures var r := ArrowStep(v, hits, i);
      r.score + EnemyReward * |r.enemies| == v.score + EnemyReward * |v.enemies| &&
      r.score >= v.score &&
      (forall id :: id in r.enemies ==> id in v.enemies) &&
      (forall a :: a in r.arrows ==> a in v.arrows)
  {
    var a := v.arrows[i];
    var r := ArrowStep(v, hits, i);
    SplitCount(v.enemies, hits(a.id));
    forall b | b in r.arrows ensures b in v.arrows {
      if r.arrows != v.arrows {
        assert b in v.arrows[..i] || b in v.arrows[i + 1..];
      }
    }
  }

  /** One pass of the arrow loop's body removes what it should: no enemy the
      arrow hit is left, every other enemy keeps all its entries, and the arrow
      itself leaves exactly when it hit something or is off screen. */
  lemma ArrowStepRemoves(v: Volley, hits: nat -> set<nat>, i: nat)
    requires i < |v.arrows|
    ensures var a := v.arrows[i]; var r := ArrowStep(v, hits, i);
      (forall id :: id in hits(a.id) ==> id !in r.enemies) &&
      (forall id :: multiset(r.enemies)[id] == if id in hits(a.id) then 0 else multiset(v.enemies)[id]) &&
      ((|Hit(v.enemies, hits(a.id))| > 0 || OffScreen(a)) ==> r.arrows == v.arrows[..i] + v.arrows[i + 1..]) &&
      (!(|Hit(v.enemies, hits(a.id))| > 0 || OffScreen(a)) ==> r.arrows == v.arrows)
  {
    KeptCounts(v.enemies, hits(v.arrows[i].id));
  }

  /** When an arrow leaves the list, the arrow after it is not examined in the
      same frame: of two arrows that are both off screen, only the first is
      culled. */
  lemma ArrowAfterRemovedOneIsSkipped(a: Arrow, b: Arrow, enemies: seq<nat>, score: int, hits: nat -> set<nat>)
    requires OffScreen(a) && OffScreen(b)
    ensures ArrowPass(Volley([a, b], enemies, score), hits, 0).arrows == [b]
  {
    var hitList := Hit(enemies, hits(a.id));
    var next := Volley([b], Kept(enemies, hits(a.id)), score + EnemyReward * |hitList|);
    assert [a, b][..0] + [a, b][1..] == [b];
    assert ArrowPass(Volley([a, b], enemies, score), hits, 0) == ArrowPass(next, hits, 1);
  }

  // ---------------------------------------------------------------------
  // Coins

  /** Picking up coins adds one point per coin removed, and a removed coin
      cannot be picked up again: a second pickup with the same hits changes
      nothing. */
  lemma CoinsCountOnce(s: GameState, f: Frame)
    ensures var r := CoinPhase(s, f);
      r.score + |r.coins| == s.score + |s.coins| &&
      (forall c :: c in r.coins ==> c !in f.coinHits) &&
      CoinPhase(r, f) == r
  {
    SplitCount(s.coins, f.coinHits);
    HitAfterKept(s.coins, f.coinHits);
  }

  // ---------------------------------------------------------------------
  // Enemies

  /** The number of deaths the repeated enemy-contact test adds: none when the
      player is clear, one for the first contact, and one for every further
      entry when the start position itself touches an enemy. */
  function ContactDeaths(x: real, y: real, n: nat, touches: (real, real) -> bool): nat {
    if n == 0 || !touches(x, y) then 0
    else if touches(PlayerStartX, PlayerStartY) then n
    else 1
  }

  lemma {:induction false} ContactOutcome(p: Spot, n: nat, touches: (real, real) -> bool)
    ensures var q := ContactChecks(p, n, touches);
      var d := ContactDeaths(p.x, p.y, n, touches);
      q.death == p.death + d &&
      (d == 0 ==> q == p) &&
      (d > 0 ==> q.x == PlayerStartX && q.y == PlayerStartY)
  {
    if n > 0 {
      ContactOutcome(p, n - 1, touches);
    }
  }

  /** Visiting a sprite once per entry turns it as often as it is listed, so
      what is left is one turn for an odd count and none for an even one. */
  lemma {:induction false} PatrolParity(list: seq<nat>, sprites: map<nat, Enemy>, wallHits: set<nat>, k: nat)
    requires k in sprites
    ensures var r := PatrolAll(list, sprites, wallHits);
      r.Keys == sprites.Keys &&
      r[k] == if multiset(list)[k] % 2 == 1 then Patrol(sprites[k], k in wallHits) else sprites[k]
  {
    if list != [] {
      var init := list[..|list| - 1];
      var id := list[|list| - 1];
      assert list == init + [id];
      assert multiset(list) == multiset(init) + multiset{id};
      PatrolParity(init, sprites, wallHits, k);
      if id != k && id in sprites {
        PatrolParity(init, sprites, wallHits, id);
      }
      if id == k {
        PatrolTwice(sprites[k], k in wallHits);
      }
    }
  }

  /** Every enemy keeps its speed magnitude through the enemy loop. */
  lemma PatrolKeepsSpeed(list: seq<nat>, sprites: map<nat, Enemy>, wallHits: set<nat>, k: nat)
    requires k in sprites
    ensures k in PatrolAll(list, sprites, wallHits)
    ensures Abs(PatrolAll(list, sprites, wallHits)[k].changeX) == Abs(sprites[k].changeX)
  {
    PatrolParity(list, sprites, wallHits, k);
  }

  /** A sprite listed twice moves two steps a frame and never turns: the
      second visit undoes the first. */
  lemma TwiceListedNeverTurns(list: seq<nat>, sprites: map<nat, Enemy>, wallHits: set<nat>, k: nat)
    requires k in sprites && multiset(list)[k] == 2
    ensures var r := PatrolAll(list, MoveAll(list, sprites), wallHits);
      k in r && r[k] == sprites[k].(centerX := sprites[k].centerX + 2.0 * sprites[k].changeX)
  {
    MoveAllMoves(list, sprites, k);
    PatrolParity(list, MoveAll(list, sprites), wallHits, k);
  }

  /** `setup` lists the new hexagon enemy twice. */
  lemma SetupListsHexagonTwice(s: GameState, m: LevelMap)
    requires m.WellFormed()
    ensures var r := Setup(s, m);
      m.patrolId in r.enemySprites && multiset(r.enemies)[m.patrolId] == 2 && r.WellFormed()
  {
    assert m.patrolId !in m.enemies;
    assert multiset(m.enemies)[m.patrolId] == 0;
    assert multiset(m.enemies + [m.patrolId, m.patrolId]) == multiset(m.enemies) + multiset{m.patrolId, m.patrolId};
  }

  // ---------------------------------------------------------------------
  // Whole frames

  /** The box of a player standing at the start position. */
  function StartBox(s: GameState): Box {
    Box(PlayerStartX - s.reach.left, PlayerStartX + s.reach.right, PlayerStartY - s.reach.bottom, PlayerStartY + s.reach.top)
  }

  /** Where the camera ends up in a frame that put it at the origin and left
      the player at the start: scrolled from the origin, then truncated. */
  function RespawnView(s: GameState): Viewport {
    Truncate(Scroll(Viewport(0.0, 0.0), StartBox(s)).view)
  }

  /** A camera at the origin with the player at the start scrolls to the
      respawn view. */
  lemma RespawnScroll(s: GameState, t: GameState)
    requires t.View() == Viewport(0.0, 0.0) && t.centerX == PlayerStartX && t.centerY == PlayerStartY
    requires t.reach == s.reach
    ensures ScrollPhase(t, true).View() == RespawnView(s)
  {
    assert t.PlayerBox() == StartBox(s);
  }

  /** The arrow and coin loops leave the player, the camera, the death count,
      the level and the map edge alone. */
  lemma LoopsKeepPlayer(s: GameState, f: Frame)
    ensures var r := CoinPhase(ArrowPhase(Physics(s, f), f), f);
      r.centerX == f.x && r.centerY == f.y && r.changeX == f.changeX && r.changeY == f.changeY &&
      r.reach == s.reach &&
      r.View() == s.View() && r.death == s.death && r.level == s.level && r.endOfMap == s.endOfMap &&
      r.enemySprites == s.enemySprites
  {
  }

  /** Offsets that start as whole pixels stay whole pixels: every branch that
      moves the camera also sets the flag that truncates it. */
  lemma StepOffsetsIntegral(s: GameState, f: Frame)
    requires Integral(s.viewLeft) && Integral(s.viewBottom)
    ensures Integral(NextState(s, f).viewLeft) && Integral(NextState(s, f).viewBottom)
  {
    var s1 := CoinPhase(ArrowPhase(Physics(s, f), f), f);
    var s5 := EnemyPhase(LevelPhase(HazardPhase(FallOff(s1), f), f), f);
    LoopsKeepPlayer(s, f);
    var sc := Scroll(s5.View(), s5.PlayerBox());
    if !sc.changed {
      assert sc.view == s5.View();
    }
  }

  /** A player whose hit box fits the margin band ends every frame within one
      pixel of the band on every side: the scroll puts it inside, and the
      truncation that may follow moves the camera by less than a pixel. */
  lemma StepNearBand(s: GameState, f: Frame)
    requires Fits(s.PlayerBox())
    ensures var r := NextState(s, f);
      var b := r.PlayerBox();
      r.viewLeft + LeftMargin - 1.0 < b.left && b.right < r.viewLeft + ScreenWidth - RightMargin + 1.0 &&
      r.viewBottom + BottomMargin - 1.0 < b.bottom && b.top < r.viewBottom + ScreenHeight - TopMargin + 1.0
  {
    var s1 := CoinPhase(ArrowPhase(Physics(s, f), f), f);
    LoopsKeepPlayer(s, f);
    var s5 := EnemyPhase(LevelPhase(HazardPhase(FallOff(s1), f), f), f);
    assert s5.reach == s.reach;
    assert Fits(s5.PlayerBox());
    BandWithinOnePixel(s5.View(), s5.PlayerBox());
  }

  /** With no respawn, no level end and no enemy contact, a player whose box
      is inside the margin band leaves the camera where it was. */
  lemma StepCameraStill(s: GameState, f: Frame)
    requires f.y >= FallLimit && !f.touchesHazard(f.x, f.y) && f.x < s.endOfMap
    requires !f.touchesEnemy(f.x, f.y)
    requires InBand(s.View(), Physics(s, f).PlayerBox())
    ensures NextState(s, f).View() == s.View()
  {
    var s1 := CoinPhase(ArrowPhase(Physics(s, f), f), f);
    LoopsKeepPlayer(s, f);
    ContactOutcome(Spot(s1.centerX, s1.centerY, s1.death), |s1.enemies|, f.touchesEnemy);
  }

  /** Falling below the map: the player is back at the start, exactly one
      more death is counted, the velocity is kept and the camera restarts from
      the origin. */
  lemma StepFallOff(s: GameState, f: Frame)
    requires f.y < FallLimit
    requires !f.touchesHazard(PlayerStartX, PlayerStartY) && PlayerStartX < s.endOfMap
    requires !f.touchesEnemy(PlayerStartX, PlayerStartY)
    ensures var r := NextState(s, f);
      r.centerX == PlayerStartX && r.centerY == PlayerStartY &&
      r.death == s.death + 1 && r.level == s.level &&
      r.changeX == f.changeX && r.changeY == f.changeY &&
      r.View() == RespawnView(s)
  {
    var s1 := CoinPhase(ArrowPhase(Physics(s, f), f), f);
    LoopsKeepPlayer(s, f);
    var s2 := FallOff(s1);
    ContactOutcome(Spot(s2.centerX, s2.centerY, s2.death), |s2.enemies|, f.touchesEnemy);
    RespawnScroll(s, EnemyPhase(LevelPhase(HazardPhase(s2, f), f), f));
  }

  /** Touching a hazard: the player stops and is back at the start, the
      camera restarts from the origin, and the death count stays as it was. */
  lemma StepHazard(s: GameState, f: Frame)
    requires f.y >= FallLimit && f.touchesHazard(f.x, f.y) && PlayerStartX < s.endOfMap
    requires !f.touchesEnemy(PlayerStartX, PlayerStartY)
    ensures var r := NextState(s, f);
      r.centerX == PlayerStartX && r.centerY == PlayerStartY &&
      r.changeX == 0.0 && r.changeY == 0.0 &&
      r.death == s.death && r.level == s.level &&
      r.View() == RespawnView(s)
  {
    var s1 := CoinPhase(ArrowPhase(Physics(s, f), f), f);
    LoopsKeepPlayer(s, f);
    var s3 := HazardPhase(FallOff(s1), f);
    ContactOutcome(Spot(s3.centerX, s3.centerY, s3.death), |s3.enemies|, f.touchesEnemy);
    RespawnScroll(s, EnemyPhase(LevelPhase(s3, f), f));
  }

  /** Reaching the right edge of the map: the next level is loaded, and
      `setup` zeroes the score and the death count, puts the player at the
      start and the camera at the origin before the scroll. */
  lemma StepLevelAdvance(s: GameState, f: Frame)
    requires f.y >= FallLimit && !f.touchesHazard(f.x, f.y) && f.x >= s.endOfMap
    requires !f.touchesEnemy(PlayerStartX, PlayerStartY)
    ensures var r := NextState(s, f);
      var m := f.nextMap;
      r.level == s.level + 1 && r.score == 0 && r.death == 0 &&
      r.centerX == PlayerStartX && r.centerY == PlayerStartY &&
      r.changeX == 0.0 && r.changeY == 0.0 &&
      r.endOfMap == MapEdge(m) &&
      r.coins == m.coins && r.arrows == [] && r.enemies == m.enemies + [m.patrolId, m.patrolId] &&
      r.View() == RespawnView(s)
  {
    var s1 := CoinPhase(ArrowPhase(Physics(s, f), f), f);
    LoopsKeepPlayer(s, f);
    var s4 := LevelPhase(HazardPhase(FallOff(s1), f), f);
    ContactOutcome(Spot(s4.centerX, s4.centerY, s4.death), |s4.enemies|, f.touchesEnemy);
    RespawnScroll(s, EnemyPhase(s4, f));
  }

  /** Without a level change the score only grows, and it grows by exactly
      one per coin and five per enemy entry taken off their lists. */
  lemma StepScoreAccounting(s: GameState, f: Frame)
    requires !ReachesEnd(BeforeLevelCheck(s, f))
    ensures var r := NextState(s, f);
      r.score + CoinReward * |r.coins| + EnemyReward * |r.enemies| ==
        s.score + CoinReward * |s.coins| + EnemyReward * |s.enemies| &&
      r.score >= s.score && r.level == s.level
  {
    ArrowPassConserves(Volley(MoveArrows(s.arrows), s.enemies, s.score), f.arrowHits, 0);
    CoinsCountOnce(ArrowPhase(Physics(s, f), f), f);
  }

  /** Without a level change the death count grows by one for a fall, by
      nothing for a hazard, and by the repeated enemy-contact count. */
  lemma StepDeathAccounting(s: GameState, f: Frame)
    requires !ReachesEnd(BeforeLevelCheck(s, f))
    ensures var b := BeforeLevelCheck(s, f);
      NextState(s, f).death ==
        s.death + (if f.y < FallLimit then 1 else 0) + ContactDeaths(b.centerX, b.centerY, |b.enemies|, f.touchesEnemy)
  {
    var b := BeforeLevelCheck(s, f);
    LoopsKeepPlayer(s, f);
    ContactOutcome(Spot(b.centerX, b.centerY, b.death), |b.enemies|, f.touchesEnemy);
  }

  /** Every listed enemy still has a sprite when the enemy loop starts. */
  lemma LevelCheckKeepsWellFormed(s: GameState, f: Frame)
    requires s.WellFormed() && f.nextMap.WellFormed()
    ensures LevelPhase(BeforeLevelCheck(s, f), f).WellFormed()
  {
    ArrowPassConserves(Volley(MoveArrows(s.arrows), s.enemies, s.score), f.arrowHits, 0);
    var s3 := BeforeLevelCheck(s, f);
    if ReachesEnd(s3) {
      SetupListsHexagonTwice(s3.(level := s3.level + 1), f.nextMap);
    }
  }

  /** Every listed enemy keeps a sprite through a frame. */
  lemma StepKeepsWellFormed(s: GameState, f: Frame)
    requires s.WellFormed() && f.nextMap.WellFormed()
    ensures NextState(s, f).WellFormed()
  {
    var s4 := LevelPhase(BeforeLevelCheck(s, f), f);
    LevelCheckKeepsWellFormed(s, f);
    var moved4 := MoveAll(s4.enemies, s4.enemySprites);
    forall id | id in s4.enemies
      ensures id in PatrolAll(s4.enemies, moved4, f.enemyWallHits)
    {
      MoveAllMoves(s4.enemies, s4.enemySprites, id);
      PatrolParity(s4.enemies, moved4, f.enemyWallHits, id);
    }
  }
}
