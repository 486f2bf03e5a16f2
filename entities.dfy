/**
 * The plain records of the game (player, enemy, bullet, explosion), the three
 * enemy archetypes, and the three constructors spawnEnemy, shootBullet and
 * createExplosion build new entries with.
 */
module Entities {
  import opened Geometry

  const CanvasWidth: real := 800.0
  const CanvasHeight: real := 600.0

  /** The player's ship; only x ever changes during a game. */
  datatype Player = Player(x: real, y: real, width: real, height: real, speed: real)
  {
    function Bounds(): Box { Box(x, y, width, height) }
  }

  /** A descending enemy; speed is fixed when it is spawned. */
  datatype Enemy = Enemy(x: real, y: real, width: real, height: real, speed: real, points: int)
  {
    function Bounds(): Box { Box(x, y, width, height) }
  }

  /** A rising projectile. */
  datatype Bullet = Bullet(x: real, y: real, width: real, height: real, speed: real)
  {
    function Bounds(): Box { Box(x, y, width, height) }
  }

  /** A cosmetic explosion; life counts the ticks it has left. */
  datatype Explosion = Explosion(x: real, y: real, radius: real, life: int, maxLife: int)

  /** The initial ship: 50x30 at (375, 520), moving 5 units per tick. */
  const StartPlayer: Player := Player(375.0, 520.0, 50.0, 30.0, 5.0)

  /**
   * One enemy template: size, the speed range [minSpeed, minSpeed + speedRange)
   * its random speed is drawn from, and point value.
   */
  datatype Archetype = Archetype(width: real, height: real, minSpeed: real, speedRange: real, points: int)

  const Archetypes: seq<Archetype> := [
    Archetype(40.0, 30.0, 1.0, 2.0, 10),
    Archetype(60.0, 40.0, 0.5, 1.5, 20),
    Archetype(30.0, 25.0, 2.0, 3.0, 15)
  ]

  /** Size and value of an enemy are those of one of the three templates. */
  predicate IsArchetype(e: Enemy) {
    (e.width == 40.0 && e.height == 30.0 && e.points == 10) ||
    (e.width == 60.0 && e.height == 40.0 && e.points == 20) ||
    (e.width == 30.0 && e.height == 25.0 && e.points == 15)
  }

  /** A bullet as shootBullet makes it: 4x15, rising 10 units per tick. */
  predicate IsBulletShape(b: Bullet) {
    b.width == 4.0 && b.height == 15.0 && b.speed == 10.0
  }

  /** A value of JavaScript's Math.random(). */
  predicate IsRoll(r: real) { 0.0 <= r < 1.0 }

  /**
   * The random numbers one call of spawnEnemy consumes: the speed jitter of
   * the chosen template, the roll that chooses the template, and the roll
   * that places the enemy horizontally.
   */
  datatype Dice = Dice(jitter: real, typeRoll: real, xRoll: real)

  predicate ValidDice(d: Dice) {
    IsRoll(d.jitter) && IsRoll(d.typeRoll) && IsRoll(d.xRoll)
  }

  /** Math.floor(roll * 3): every template is chosen by a third of the rolls. */
  function ArchetypeIndex(roll: real): (k: nat)
    requires IsRoll(roll)
    ensures k < |Archetypes|
    ensures k as real / 3.0 <= roll < (k as real + 1.0) / 3.0
  {
    (roll * 3.0).Floor
  }

  /**
   * spawnEnemy: an enemy of the rolled template, just above the top edge,
   * somewhere along the width, its speed scaled by the current multiplier.
   */
  function NewEnemy(d: Dice, gameSpeed: real): (e: Enemy)
    requires ValidDice(d)
    ensures IsArchetype(e)
    ensures e.y == -e.height
    ensures 0.0 <= e.x < CanvasWidth - e.width
    ensures var a := Archetypes[ArchetypeIndex(d.typeRoll)];
      e.width == a.width && e.height == a.height && e.points == a.points &&
      e.speed == (a.minSpeed + d.jitter * a.speedRange) * gameSpeed
    ensures gameSpeed >= 1.0 ==> e.speed >= 0.5
  {
    var a := Archetypes[ArchetypeIndex(d.typeRoll)];
    var base := a.minSpeed + d.jitter * a.speedRange;
    assert base >= 0.5;
    assert gameSpeed >= 1.0 ==> base * gameSpeed >= base by {
      if gameSpeed >= 1.0 {
        assert base * gameSpeed - base == base * (gameSpeed - 1.0);
      }
    }
    Enemy(d.xRoll * (CanvasWidth - a.width), -a.height, a.width, a.height,
          base * gameSpeed, a.points)
  }

  /** shootBullet: a bullet whose centre line is the player's, at the player's top. */
  function NewBullet(p: Player): (b: Bullet)
    ensures IsBulletShape(b)
    ensures b.x + b.width / 2.0 == p.x + p.width / 2.0
    ensures b.y == p.y
  {
    Bullet(p.x + p.width / 2.0 - 2.0, p.y, 4.0, 15.0, 10.0)
  }

  /** createExplosion: a new explosion starts with all 20 ticks of its life. */
  function NewExplosion(x: real, y: real, radius: real): Explosion
  {
    Explosion(x, y, radius, 20, 20)
  }

  /** The centre of an enemy, where its explosion is placed. */
  function CentreX(e: Enemy): real { e.x + e.width / 2.0 }
  function CentreY(e: Enemy): real { e.y + e.height / 2.0 }
}
