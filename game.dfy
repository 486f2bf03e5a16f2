/**
 * The game component's mutable state: the refs (player, enemies, bullets,
 * explosions, last spawn time, speed multiplier, held keys) and the React
 * state (phase, score, high score, lives), updated in place by the tick and
 * the handlers. Each method is proved to do what the function of the same
 * stage in Session says.
 */
module Arcade {
  import opened Options
  import opened Geometry
  import opened Entities
  import opened Steps
  import opened Session
  import opened Splices

  class Game {
    var phase: Phase
    var score: int
    var highScore: int
    var lives: int
    var player: Player
    var enemies: seq<Enemy>
    var bullets: seq<Bullet>
    var explosions: seq<Explosion>
    var lastSpawn: int
    var gameSpeed: real
    var keys: set<string>

    /** The state as one value. */
    function View(): World
      reads this
    {
      World(phase, score, highScore, lives, player, enemies, bullets, explosions, lastSpawn, gameSpeed, keys)
    }

    constructor ()
      ensures View() == Initial()
    {
      phase, score, highScore, lives := Menu, 0, 0, 3;
      player := StartPlayer;
      enemies, bullets, explosions := [], [], [];
      lastSpawn, gameSpeed := 0, 1.0;
      keys := {};
    }

    // ------------------------------------------------------ constructors

    /** createExplosion: appends a full-life explosion. */
    method CreateExplosion(x: real, y: real, radius: real)
      modifies this
      ensures View() == old(View()).(explosions := old(explosions) + [NewExplosion(x, y, radius)])
    {
      explosions := explosions + [NewExplosion(x, y, radius)];
    }

    /** shootBullet: appends a bullet centred on the ship (the shot sound is not modelled). */
    method ShootBullet()
      modifies this
      ensures View() == old(View()).(bullets := old(bullets) + [NewBullet(old(player))])
    {
      bullets := bullets + [NewBullet(player)];
    }

    /** spawnEnemy: appends an enemy of the rolled template at the current multiplier. */
    method SpawnEnemy(d: Dice)
      requires ValidDice(d)
      modifies this
      ensures View() == old(View()).(enemies := old(enemies) + [NewEnemy(d, old(gameSpeed))])
    {
      enemies := enemies + [NewEnemy(d, gameSpeed)];
    }

    // --------------------------------------------------------- the tick

    /** Stage 1: the two guarded moves. */
    method MovePlayer()
      modifies this
      ensures View() == MoveStage(old(View()))
    {
      if "ArrowLeft" in keys && player.x > 0.0 {
        player := player.(x := player.x - player.speed);
      }
      if "ArrowRight" in keys && player.x < CanvasWidth - player.width {
        player := player.(x := player.x + player.speed);
      }
    }

    /** One pass of the bullet loop at index i: the bullet rises, and is spliced out if above the top. */
    method FlyBulletAt(i: nat)
      requires i < |bullets|
      modifies this
      ensures View() == old(View()).(bullets := old(bullets)[..i] + FlyOrDrop(old(bullets)[i]) + old(bullets)[i + 1..])
    {
      ghost var p, q := bullets[..i], bullets[i + 1..];
      Split(bullets, i);
      var b := bullets[i];
      b := b.(y := b.y - b.speed);
      UpdateMiddle(p, bullets[i], b, q);
      bullets := bullets[i := b];
      if b.y < 0.0 {
        RemoveMiddle(p, b, q);
        bullets := bullets[..i] + bullets[i + 1..];
      }
    }

    /** Stage 2: the bullet loop, from the last bullet down. */
    method UpdateBullets()
      modifies this
      ensures View() == BulletStage(old(View()))
    {
      ghost var b0 := bullets;
      var i := |bullets|;
      while i > 0
        invariant 0 <= i <= |b0|
        invariant bullets == b0[..i] + AdvanceBullets(b0[i..])
        invariant View() == old(View()).(bullets := bullets)
      {
        ghost var rest := AdvanceBullets(b0[i..]);
        i := i - 1;
        AdvanceBulletsAt(b0, i);
        assert bullets == b0[..i] + [b0[i]] + rest;
        Parts(b0[..i], b0[i], rest);
        FlyBulletAt(i);
      }
      assert b0[0..] == b0;
    }

    /** The inner bullet loop: the highest-index bullet that overlaps the enemy, if any. */
    method LastHitBullet(e: Enemy) returns (j: Option<nat>)
      ensures j.None? <==> forall k :: 0 <= k < |bullets| ==> !Overlaps(bullets[k].Bounds(), e.Bounds())
      ensures j.Some? ==>
        && j.value < |bullets|
        && Overlaps(bullets[j.value].Bounds(), e.Bounds())
        && (forall k :: j.value < k < |bullets| ==> !Overlaps(bullets[k].Bounds(), e.Bounds()))
      ensures j == LastOverlap(bullets, e)
    {
      var k := |bullets|;
      while k > 0
        invariant 0 <= k <= |bullets|
        invariant forall m :: k <= m < |bullets| ==> !Overlaps(bullets[m].Bounds(), e.Bounds())
      {
        k := k - 1;
        if Overlaps(bullets[k].Bounds(), e.Bounds()) {
          return Some(k);
        }
      }
      return None;
    }

    /**
     * One pass of the enemy loop at index i: the enemy falls, then leaves the
     * screen, hits the ship, is shot, or stays. score0 is the score the tick
     * began with; the game-over branch reads it for the high score.
     */
    method SettleEnemyAt(i: nat, score0: int)
      requires i < |enemies|
      modifies this
      ensures var o := Settle(old(enemies)[i], old(player), old(bullets));
        View() == ApplySweep(old(View()), o, score0).(enemies := old(enemies)[..i] + o.enemies + old(enemies)[i + 1..])
    {
      var enemy := enemies[i];
      enemy := enemy.(y := enemy.y + enemy.speed);
      enemies := enemies[i := enemy];
      if enemy.y > CanvasHeight {
        enemies := enemies[..i] + enemies[i + 1..];
      } else if Overlaps(player.Bounds(), enemy.Bounds()) {
        CreateExplosion(CentreX(enemy), CentreY(enemy), 40.0);
        enemies := enemies[..i] + enemies[i + 1..];
        lives := lives - 1;
        if lives <= 0 {
          phase := GameOver;
          highScore := MaxInt(highScore, score0);
        }
      } else {
        var j := LastHitBullet(enemy);
        if j.Some? {
          CreateExplosion(CentreX(enemy), CentreY(enemy), 30.0);
          score := score + enemy.points;
          bullets := bullets[..j.value] + bullets[j.value + 1..];
          enemies := enemies[..i] + enemies[i + 1..];
        }
      }
    }

    /** Stage 3: the enemy loop, from the last enemy down to the first. */
    method UpdateEnemies(score0: int)
      modifies this
      ensures View() == EnemyStage(old(View()), score0)
    {
      ghost var w0 := View();
      var i := |enemies|;
      assert w0.enemies[i..] == [];
      while i > 0
        invariant 0 <= i <= |w0.enemies|
        invariant var r := ResolveEnemies(w0.enemies[i..], w0.player, w0.bullets);
          View() == ApplySweep(w0, r, score0).(enemies := w0.enemies[..i] + r.enemies)
      {
        ghost var before := View();
        i := i - 1;
        SettleEnemyAt(i, score0);
        EnemyLoopStep(w0, i, score0, before, View());
      }
      assert w0.enemies[0..] == w0.enemies;
    }

    /** One pass of the explosion loop at index i: one life less, spliced out when none is left. */
    method FadeExplosionAt(i: nat)
      requires i < |explosions|
      modifies this
      ensures View() == old(View()).(explosions := old(explosions)[..i] + FadeOrDrop(old(explosions)[i]) + old(explosions)[i + 1..])
    {
      ghost var p, q := explosions[..i], explosions[i + 1..];
      Split(explosions, i);
      var x := explosions[i];
      x := x.(life := x.life - 1);
      UpdateMiddle(p, explosions[i], x, q);
      explosions := explosions[i := x];
      if x.life <= 0 {
        RemoveMiddle(p, x, q);
        explosions := explosions[..i] + explosions[i + 1..];
      }
    }

    /** Stage 4: the explosion loop, from the last explosion down. */
    method UpdateExplosions()
      modifies this
      ensures View() == ExplosionStage(old(View()))
    {
      ghost var x0 := explosions;
      var i := |explosions|;
      while i > 0
        invariant 0 <= i <= |x0|
        invariant explosions == x0[..i] + DecayExplosions(x0[i..])
        invariant View() == old(View()).(explosions := explosions)
      {
        ghost var rest := DecayExplosions(x0[i..]);
        i := i - 1;
        DecayExplosionsAt(x0, i);
        assert explosions == x0[..i] + [x0[i]] + rest;
        Parts(x0[..i], x0[i], rest);
        FadeExplosionAt(i);
      }
      assert x0[0..] == x0;
    }

    /** updateGame; now is Date.now() and d the Math.random() values spawnEnemy would draw. */
    method UpdateGame(now: int, d: Dice)
      requires ValidDice(d)
      modifies this
      ensures View() == Tick(old(View()), now, d)
    {
      var score0 := score;
      MovePlayer();
      UpdateBullets();
      UpdateEnemies(score0);
      UpdateExplosions();
      var spawnDelay := if 2000 - score0 * 2 >= 500 then 2000 - score0 * 2 else 500;
      if now - lastSpawn > spawnDelay {
        SpawnEnemy(d);
        lastSpawn := now;
      }
      gameSpeed := 1.0 + score0 as real * 0.001;
    }

    /** gameLoop: update only while playing (drawing is not modelled). */
    method GameLoop(now: int, d: Dice)
      requires ValidDice(d)
      modifies this
      ensures View() == Frame(old(View()), now, d)
    {
      if phase == Playing {
        UpdateGame(now, d);
      }
    }

    // -------------------------------------------------------- handlers

    /** startGame (starting the music is not modelled). */
    method StartGame(now: int)
      modifies this
      ensures View() == Start(old(View()), now)
    {
      phase := Playing;
      score := 0;
      lives := 3;
      player := player.(x := 375.0);
      player := player.(y := 520.0);
      enemies := [];
      bullets := [];
      explosions := [];
      gameSpeed := 1.0;
      lastSpawn := now;
    }

    /** resetGame (stopping the music and cancelling the frame are not modelled). */
    method ResetGame()
      modifies this
      ensures View() == Reset(old(View()))
    {
      phase := Menu;
      explosions := [];
    }

    /** handleKeyDown. */
    method HandleKeyDown(code: string)
      modifies this
      ensures View() == PressKey(old(View()), code)
    {
      keys := keys + {code};
      if code == "Space" && phase == Playing {
        ShootBullet();
      }
    }

    /** handleKeyUp. */
    method HandleKeyUp(code: string)
      modifies this
      ensures View() == ReleaseKey(old(View()), code)
    {
      keys := keys - {code};
    }
  }

  /**
   * The enemy loop's step: the state after the sweep of the enemies above i,
   * followed by the settling of enemy i in place, is the state after the
   * sweep of the enemies from i on.
   */
  lemma EnemyLoopStep(w0: World, i: nat, score0: int, before: World, after: World)
    requires i < |w0.enemies|
    requires var later := ResolveEnemies(w0.enemies[i + 1..], w0.player, w0.bullets);
      before == ApplySweep(w0, later, score0).(enemies := w0.enemies[..i + 1] + later.enemies)
    requires var o := Settle(before.enemies[i], before.player, before.bullets);
      after == ApplySweep(before, o, score0).(enemies := before.enemies[..i] + o.enemies + before.enemies[i + 1..])
    ensures var r := ResolveEnemies(w0.enemies[i..], w0.player, w0.bullets);
      after == ApplySweep(w0, r, score0).(enemies := w0.enemies[..i] + r.enemies)
  {
    var later := ResolveEnemies(w0.enemies[i + 1..], w0.player, w0.bullets);
    var mid := ApplySweep(w0, later, score0);
    PrefixThen(w0.enemies, i, later.enemies);
    var o := Settle(w0.enemies[i], w0.player, later.bullets);
    ApplySweepIgnoresEnemies(mid, before.enemies, o, score0);
    ApplySweepThen(w0, later, o, score0);
    ResolveEnemiesAt(w0.enemies, i, w0.player, w0.bullets);
    Regroup(w0.enemies[..i], o.enemies, later.enemies);
  }
}
