/**
 * What the tick and the session transitions promise: the invariant every
 * event keeps, the monotone high score, the game-over rule, frozen enemy
 * speeds, the spawn rule, and a few concrete rounds.
 */
module SessionFacts {
  import opened Geometry
  import opened Entities
  import opened Steps
  import opened Session

  // -------------------------------------------------------- the invariant

  lemma InitialConsistent()
    ensures Consistent(Initial())
  {
    assert (375.0 / 5.0).Floor == 75;
  }

  /** Bullets keep their shape in flight. */
  lemma AdvanceKeepsBulletShape(bs: seq<Bullet>)
    requires forall b | b in bs :: IsBulletShape(b)
    ensures forall b | b in AdvanceBullets(bs) :: IsBulletShape(b)
  {
    forall b | b in AdvanceBullets(bs)
      ensures IsBulletShape(b)
    {
      AdvanceBulletsOrigin(bs, b);
      var k :| 0 <= k < |bs| && b == Fly(bs[k]);
      assert bs[k] in bs;
    }
  }

  /** The enemy sweep keeps the shape of bullets and enemies and creates only fresh explosions. */
  lemma EnemyStageShapes(w: World, score0: int)
    requires forall b | b in w.bullets :: IsBulletShape(b)
    requires forall e | e in w.enemies :: IsArchetype(e) && e.speed > 0.0
    ensures var v := EnemyStage(w, score0);
      && (forall b | b in v.bullets :: IsBulletShape(b))
      && (forall e | e in v.enemies :: IsArchetype(e) && e.speed > 0.0)
      && v.score >= w.score
  {
    var r := ResolveEnemies(w.enemies, w.player, w.bullets);
    forall e | e in r.enemies
      ensures IsArchetype(e) && e.speed > 0.0
    {
      ResolveEnemiesOrigin(w.enemies, w.player, w.bullets, e);
    }
  }

  /** A tick of a consistent round in play leaves a consistent world. */
  lemma TickKeepsConsistent(w: World, now: int, d: Dice)
    requires Consistent(w) && w.phase == Playing && ValidDice(d)
    ensures Consistent(Tick(w, now, d))
  {
    var score0 := w.score;
    var w1 := MoveStage(w);
    SteerStaysOnTrack(w.player, w.keys);
    var w2 := BulletStage(w1);
    AdvanceKeepsBulletShape(w1.bullets);
    var w3 := EnemyStage(w2, score0);
    EnemyStageShapes(w2, score0);
    var r := ResolveEnemies(w2.enemies, w2.player, w2.bullets);
    assert w3.explosions == w.explosions + r.explosions;
    assert forall x | x in w3.explosions :: Live(x);
    var w4 := ExplosionStage(w3);
    DecayMakesSpent(w3.explosions);
    var w5 := SpawnStage(w4, now, score0, d);
    var v := SpeedStage(w5, score0);
    assert v == Tick(w, now, d);
  }

  lemma FrameKeepsConsistent(w: World, now: int, d: Dice)
    requires Consistent(w) && ValidDice(d)
    ensures Consistent(Frame(w, now, d))
  {
    if w.phase == Playing {
      TickKeepsConsistent(w, now, d);
    }
  }

  /** Every event keeps the invariant. */
  lemma ApplyKeepsConsistent(w: World, ev: Event)
    requires Consistent(w) && ValidEvent(ev)
    ensures Consistent(Apply(w, ev))
  {
    match ev
    case StartClicked(now) =>
      assert (375.0 / 5.0).Floor == 75;
    case MenuClicked =>
    case KeyDown(code) =>
    case KeyUp(code) =>
    case AnimationFrame(now, d) =>
      FrameKeepsConsistent(w, now, d);
  }

  /** So does any sequence of events, starting from the page's first state. */
  lemma {:induction false} RunKeepsConsistent(w: World, evs: seq<Event>)
    requires Consistent(w)
    requires forall ev | ev in evs :: ValidEvent(ev)
    ensures Consistent(Run(w, evs))
    decreases |evs|
  {
    if evs != [] {
      ApplyKeepsConsistent(w, evs[0]);
      assert forall ev | ev in evs[1..] :: ev in evs;
      RunKeepsConsistent(Apply(w, evs[0]), evs[1..]);
    }
  }

  // ----------------------------------------------------------- high score

  lemma ApplyKeepsHighScore(w: World, ev: Event)
    requires ValidEvent(ev)
    ensures Apply(w, ev).highScore >= w.highScore
  {
  }

  /** The high score never goes down, whatever happens. */
  lemma {:induction false} HighScoreNeverDecreases(w: World, evs: seq<Event>)
    requires forall ev | ev in evs :: ValidEvent(ev)
    ensures Run(w, evs).highScore >= w.highScore
    decreases |evs|
  {
    if evs != [] {
      ApplyKeepsHighScore(w, evs[0]);
      assert forall ev | ev in evs[1..] :: ev in evs;
      HighScoreNeverDecreases(Apply(w, evs[0]), evs[1..]);
    }
  }

  // ----------------------------------------------------------------- tick

  /** The sweep a tick performs, named for the lemmas below. */
  function SweepOf(w: World): Sweep {
    ResolveEnemies(w.enemies, Steer(w.player, w.keys), AdvanceBullets(w.bullets))
  }

  /**
   * Score grows by the points of the enemies shot, lives drop by one per
   * enemy that reaches the ship, and the round ends exactly when that drives
   * the lives to zero or below; the high score then takes in the score the
   * tick began with.
   */
  lemma TickCounters(w: World, now: int, d: Dice)
    requires Consistent(w) && w.phase == Playing && ValidDice(d)
    ensures var v := Tick(w, now, d); var r := SweepOf(w);
      && v.score == w.score + r.points >= w.score
      && v.lives == w.lives - r.hits
      && (v.phase == GameOver <==> v.lives <= 0)
      && (v.phase != GameOver ==> v.phase == Playing && v.highScore == w.highScore)
      && (v.phase == GameOver ==> v.highScore == MaxInt(w.highScore, w.score))
  {
    AdvanceKeepsBulletShape(w.bullets);
    EnemyStageShapes(BulletStage(MoveStage(w)), w.score);
  }

  /** The counters of a tick follow from its sweep alone, whatever the state. */
  lemma TickFolds(w: World, now: int, d: Dice)
    requires ValidDice(d)
    ensures var v := Tick(w, now, d); var r := SweepOf(w);
      && v.score == w.score + r.points
      && v.lives == w.lives - r.hits
      && v.phase == (if EndsGame(w.lives, r.hits) then GameOver else w.phase)
      && v.highScore == (if EndsGame(w.lives, r.hits) then MaxInt(w.highScore, w.score) else w.highScore)
  {
  }

  /**
   * Enemy speeds are frozen at spawn: every enemy after a tick is an enemy
   * from before it moved down by its own speed, or the one enemy spawned in
   * this tick with the multiplier the previous tick left.
   */
  lemma TickFreezesEnemySpeed(w: World, now: int, d: Dice)
    requires ValidDice(d)
    ensures var v := Tick(w, now, d);
      forall k :: 0 <= k < |v.enemies| ==>
        (exists j :: 0 <= j < |w.enemies| && v.enemies[k] == Fall(w.enemies[j])) ||
        (k == |v.enemies| - 1 && v.enemies[k] == NewEnemy(d, w.gameSpeed))
  {
    var v := Tick(w, now, d);
    var r := SweepOf(w);
    forall k | 0 <= k < |v.enemies|
      ensures (exists j :: 0 <= j < |w.enemies| && v.enemies[k] == Fall(w.enemies[j])) ||
              (k == |v.enemies| - 1 && v.enemies[k] == NewEnemy(d, w.gameSpeed))
    {
      if k < |r.enemies| {
        assert v.enemies[k] == r.enemies[k];
        ResolveEnemiesOrigin(w.enemies, Steer(w.player, w.keys), AdvanceBullets(w.bullets), v.enemies[k]);
      }
    }
  }

  /**
   * A spawn happens exactly when more than the delay for the tick-start
   * score has passed; it appends one enemy and moves the spawn time to now.
   */
  lemma TickSpawnRule(w: World, now: int, d: Dice)
    requires ValidDice(d)
    ensures var v := Tick(w, now, d); var r := SweepOf(w);
      if now - w.lastSpawn > SpawnDelay(w.score)
      then v.enemies == r.enemies + [NewEnemy(d, w.gameSpeed)] && v.lastSpawn == now
      else v.enemies == r.enemies && v.lastSpawn == w.lastSpawn
  {
  }

  /**
   * No dead enemy survives a tick: every enemy after it is on screen, and clear
   * of the ship whenever the ship is not above the playfield. The one spawned
   * this tick is above the top edge.
   */
  lemma TickEnemiesLive(w: World, now: int, d: Dice)
    requires ValidDice(d)
    ensures var v := Tick(w, now, d);
      forall e | e in v.enemies :: e.y <= CanvasHeight && (w.player.y >= 0.0 ==> !Overlaps(v.player.Bounds(), e.Bounds()))
  {
    var v := Tick(w, now, d);
    var r := SweepOf(w);
    ResolveEnemiesKeepsLive(w.enemies, Steer(w.player, w.keys), AdvanceBullets(w.bullets));
    TickSpawnRule(w, now, d);
    TickRest(w, now, d);
    forall e | e in v.enemies
      ensures e.y <= CanvasHeight && (w.player.y >= 0.0 ==> !Overlaps(v.player.Bounds(), e.Bounds()))
    {
      if e !in r.enemies {
        assert e == NewEnemy(d, w.gameSpeed);
      }
    }
  }

  /** Everything else a tick does: the ship, the bullets, the explosions, the multiplier. */
  lemma TickRest(w: World, now: int, d: Dice)
    requires ValidDice(d)
    ensures var v := Tick(w, now, d); var r := SweepOf(w);
      && v.player == Steer(w.player, w.keys)
      && v.bullets == r.bullets
      && v.explosions == DecayExplosions(w.explosions + r.explosions)
      && v.gameSpeed == Difficulty(w.score)
      && v.keys == w.keys
  {
  }

  /** Outside play, the frame loop does nothing. */
  lemma FrameIdleOutsidePlay(w: World, now: int, d: Dice)
    requires ValidDice(d) && w.phase != Playing
    ensures Frame(w, now, d) == w
  {
  }

  /** With no points the gap between spawns exceeds 2000 ms; from 750 points on it exceeds 500 ms. */
  lemma SpawnCadence(lastSpawn: int, now: int, score: int)
    ensures score == 0 ==> (SpawnDue(lastSpawn, now, score) <==> now - lastSpawn > 2000)
    ensures score >= 750 ==> (SpawnDue(lastSpawn, now, score) <==> now - lastSpawn > 500)
  {
  }

  // ---------------------------------------------------------- transitions

  /** startGame always yields a fresh round in play. */
  lemma StartIsFreshRound(w: World, now: int)
    ensures var v := Start(w, now);
      && v.phase == Playing && v.score == 0 && v.lives == 3
      && v.player.x == 375.0 && v.player.y == 520.0
      && v.enemies == [] && v.bullets == [] && v.explosions == []
      && v.gameSpeed == 1.0 && v.lastSpawn == now
      && v.highScore == w.highScore
  {
  }

  /** resetGame goes to the menu with no explosions and leaves the counters. */
  lemma ResetToMenu(w: World)
    ensures var v := Reset(w);
      v.phase == Menu && v.explosions == [] &&
      v.score == w.score && v.lives == w.lives && v.highScore == w.highScore
  {
  }

  /** Space adds exactly one bullet, at the ship, and only in play. */
  lemma SpaceFiresOnlyInPlay(w: World)
    ensures var v := PressKey(w, "Space");
      && "Space" in v.keys
      && (w.phase == Playing ==> v.bullets == w.bullets + [NewBullet(w.player)])
      && (w.phase != Playing ==> v.bullets == w.bullets)
  {
  }

  /**
   * Any key down is held from then on; only Space in play fires, and nothing
   * but the held keys and the bullets ever changes.
   */
  lemma PressKeyFrame(w: World, code: string)
    ensures var v := PressKey(w, code);
      && v.keys == w.keys + {code}
      && v.(keys := w.keys, bullets := w.bullets) == w
      && (code != "Space" || w.phase != Playing ==> v.bullets == w.bullets)
  {
  }

  // ------------------------------------------------------- concrete rounds

  /** A round in play with nothing on screen and no keys held. */
  function Quiet(lives: int, score: int, highScore: int, now: int): World {
    World(Playing, score, highScore, lives, StartPlayer, [], [], [], now, 1.0, {})
  }

  /** The example enemies of the rounds below meet the fates those rounds ask for. */
  lemma ExampleFates()
    ensures FateOf(Enemy(100.0, 595.0, 40.0, 30.0, 10.0, 10), StartPlayer, []) == OffScreen
    ensures FateOf(Enemy(375.0, 518.0, 40.0, 30.0, 2.0, 10), StartPlayer, []) == HitsPlayer
    ensures FateOf(Enemy(380.0, 483.0, 40.0, 30.0, 2.0, 10), StartPlayer, [Fly(NewBullet(StartPlayer))]) == Shot(0)
  {
  }

  /** An enemy that falls past the bottom edge is removed and changes nothing else. */
  lemma OffScreenScenario(now: int, d: Dice, e: Enemy)
    requires ValidDice(d) && e.y + e.speed > CanvasHeight
    ensures var v := Tick(Quiet(3, 0, 0, now).(enemies := [e]), now, d);
      && v.enemies == [] && v.score == 0 && v.lives == 3 && v.explosions == [] && v.phase == Playing
  {
    var w := Quiet(3, 0, 0, now).(enemies := [e]);
    assert FateOf(e, StartPlayer, []) == OffScreen;
    QuietSweep(w, [], e);
    TickFolds(w, now, d);
    TickRest(w, now, d);
    TickSpawnRule(w, now, d);
  }

  /** An enemy that reaches the ship costs one life and makes one explosion of radius 40; bullets are untouched. */
  lemma PlayerHitScenario(now: int, d: Dice, e: Enemy, b: Bullet)
    requires ValidDice(d) && Fly(b).y >= 0.0 && FateOf(e, StartPlayer, [Fly(b)]) == HitsPlayer
    ensures var v := Tick(Quiet(3, 0, 0, now).(enemies := [e], bullets := [b]), now, d);
      && v.enemies == [] && v.bullets == [Fly(b)] && v.score == 0 && v.lives == 2 && v.phase == Playing
      && |v.explosions| == 1 && v.explosions[0].radius == 40.0
  {
    var w := Quiet(3, 0, 0, now).(enemies := [e], bullets := [b]);
    assert AdvanceBullets([b]) == FlyOrDrop(b) + AdvanceBullets([]);
    QuietSweep(w, [Fly(b)], e);
    TickFolds(w, now, d);
    TickRest(w, now, d);
    TickSpawnRule(w, now, d);
    FadeOne(SweepOf(w).explosions[0]);
  }

  /** A shot enemy is worth its points and makes one explosion of radius 30; the bullet is used up. */
  lemma BulletHitScenario(now: int, d: Dice, e: Enemy)
    requires ValidDice(d) && FateOf(e, StartPlayer, [Fly(NewBullet(StartPlayer))]) == Shot(0)
    ensures var v := Tick(Quiet(3, 0, 0, now).(enemies := [e], bullets := [NewBullet(StartPlayer)]), now, d);
      && v.enemies == [] && v.bullets == [] && v.score == e.points && v.lives == 3 && v.phase == Playing
      && |v.explosions| == 1 && v.explosions[0].radius == 30.0 && v.explosions[0].life == 19
  {
    var b := NewBullet(StartPlayer);
    var w := Quiet(3, 0, 0, now).(enemies := [e], bullets := [b]);
    assert AdvanceBullets([b]) == FlyOrDrop(b) + AdvanceBullets([]);
    QuietSweep(w, [Fly(b)], e);
    TickFolds(w, now, d);
    TickRest(w, now, d);
    TickSpawnRule(w, now, d);
    FadeOne(SweepOf(w).explosions[0]);
  }

  /** Lives are not clamped: two enemies reaching the ship in the tick that takes the last life leave -1. */
  lemma LivesCanGoNegative(now: int, d: Dice, e: Enemy)
    requires ValidDice(d) && FateOf(e, StartPlayer, []) == HitsPlayer
    ensures var v := Tick(Quiet(1, 0, 0, now).(enemies := [e, e]), now, d);
      v.lives == -1 && v.phase == GameOver
  {
    var w := Quiet(1, 0, 0, now).(enemies := [e, e]);
    TwoCrashes(e, StartPlayer, []);
    assert Steer(StartPlayer, {}) == StartPlayer;
    assert AdvanceBullets([]) == [];
    TickFolds(w, now, d);
  }

  /**
   * The high score takes the score from the start of the tick, so points won
   * in the tick that ends the round are not in it.
   */
  lemma HighScoreMissesFinalTick(now: int, d: Dice, crash: Enemy, shot: Enemy)
    requires ValidDice(d) && shot.points > 0
    requires FateOf(shot, StartPlayer, [Fly(NewBullet(StartPlayer))]) == Shot(0)
    requires FateOf(crash, StartPlayer, []) == HitsPlayer
    ensures var w := Quiet(1, 0, 0, now).(enemies := [crash, shot], bullets := [NewBullet(StartPlayer)]);
      var v := Tick(w, now, d);
      v.phase == GameOver && v.score == shot.points && v.highScore == 0 && v.score > v.highScore
  {
    var b := NewBullet(StartPlayer);
    var w := Quiet(1, 0, 0, now).(enemies := [crash, shot], bullets := [b]);
    assert AdvanceBullets([b]) == FlyOrDrop(b) + AdvanceBullets([]) == [Fly(b)];
    assert Steer(StartPlayer, {}) == StartPlayer;
    ShotThenCrash(crash, shot, StartPlayer, Fly(b));
    assert SweepOf(w) == ResolveEnemies([crash, shot], StartPlayer, [Fly(b)]);
    TickFolds(w, now, d);
  }

  /** The sweep of a shot enemy above one that then reaches the ship: the points and one hit. */
  lemma ShotThenCrash(crash: Enemy, shot: Enemy, p: Player, b: Bullet)
    requires FateOf(shot, p, [b]) == Shot(0) && FateOf(crash, p, []) == HitsPlayer
    ensures var r := ResolveEnemies([crash, shot], p, [b]); r.hits == 1 && r.points == shot.points
  {
    SettleOutcome(shot, p, [b]);
    ResolveOne(shot, p, [b]);
    var later := ResolveEnemies([shot], p, [b]);
    assert later.bullets == [] && later.hits == 0 && later.points == shot.points;
    SettleOutcome(crash, p, []);
    ResolveEnemiesAt([crash, shot], 0, p, [b]);
    assert [crash, shot][1..] == [shot];
    assert [crash, shot][0..] == [crash, shot];
  }

  /** The sweep of a quiet round with one enemy and the given bullets after their advance. */
  lemma QuietSweep(w: World, flown: seq<Bullet>, e: Enemy)
    requires w.player == StartPlayer && w.keys == {} && AdvanceBullets(w.bullets) == flown && w.enemies == [e]
    ensures SweepOf(w) == Settle(e, StartPlayer, flown)
    ensures var r := SweepOf(w); match FateOf(e, StartPlayer, flown)
      case OffScreen => r == Sweep([], flown, [], 0, 0)
      case HitsPlayer => r.enemies == [] && r.bullets == flown && r.points == 0 && r.hits == 1 &&
        |r.explosions| == 1 && r.explosions[0].radius == 40.0 && r.explosions[0].life == 20
      case Shot(j) => j < |flown| && r.enemies == [] && r.bullets == RemoveAt(flown, j) &&
        r.points == e.points && r.hits == 0 &&
        |r.explosions| == 1 && r.explosions[0].radius == 30.0 && r.explosions[0].life == 20
      case Advances => r == Sweep([Fall(e)], flown, [], 0, 0)
  {
    assert Steer(StartPlayer, {}) == StartPlayer;
    SettleOutcome(e, StartPlayer, flown);
    ResolveOne(e, StartPlayer, flown);
  }

  /** A fresh explosion alone ages to one with a life left. */
  lemma FadeOne(x: Explosion)
    requires x.life == 20
    ensures DecayExplosions([] + [x]) == [x.(life := 19)]
  {
    assert [] + [x] == [x];
    assert DecayExplosions([x]) == FadeOrDrop(x) + DecayExplosions([]);
  }

  /** The sweep of two enemies that both reach the ship: two hits, no points, bullets untouched. */
  lemma TwoCrashes(e: Enemy, p: Player, bs: seq<Bullet>)
    requires FateOf(e, p, bs) == HitsPlayer
    ensures var r := ResolveEnemies([e, e], p, bs); r.hits == 2 && r.points == 0
  {
    SettleOutcome(e, p, bs);
    ResolveOne(e, p, bs);
    var later := ResolveEnemies([e], p, bs);
    assert later.bullets == bs;
    ResolveEnemiesAt([e, e], 0, p, bs);
    assert [e, e][1..] == [e];
    assert [e, e][0..] == [e, e];
  }
}
