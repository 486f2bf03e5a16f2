/**
 * The pieces of one tick of updateGame, each as a function of the values the
 * tick reads: player movement, bullet advance, the reverse-order enemy sweep,
 * explosion decay, the spawn delay and the difficulty multiplier.
 */
module Steps {
  import opened Options
  import opened Geometry
  import opened Entities

  // ---------------------------------------------------------------- player

  /**
   * Arrow keys held this tick. Left is applied first; right then tests the
   * position left has produced, so holding both keys can cancel out.
   */
  function Steer(p: Player, keys: set<string>): (q: Player)
    ensures q.(x := p.x) == p
  {
    var afterLeft := if "ArrowLeft" in keys && p.x > 0.0 then p.(x := p.x - p.speed) else p;
    if "ArrowRight" in keys && afterLeft.x < CanvasWidth - afterLeft.width
    then afterLeft.(x := afterLeft.x + afterLeft.speed)
    else afterLeft
  }

  /** x is a whole number of steps of 5 units from the left wall. */
  predicate OnGrid(x: real) {
    (x / 5.0).Floor as real * 5.0 == x
  }

  /**
   * The ship as the game keeps it: its start size and speed, y fixed at 520,
   * x on the 5-unit grid between the two walls.
   */
  predicate OnTrack(p: Player) {
    p.width == 50.0 && p.height == 30.0 && p.speed == 5.0 && p.y == 520.0 &&
    0.0 <= p.x <= CanvasWidth - p.width && OnGrid(p.x)
  }

  /** A 5-unit step from a grid point lands on a grid point. */
  lemma OnGridStep(x: real, d: int)
    requires OnGrid(x)
    ensures OnGrid(x + 5.0 * d as real)
  {
    var n := (x / 5.0).Floor;
    assert x == n as real * 5.0;
    var y := x + 5.0 * d as real;
    assert y == (n + d) as real * 5.0;
    assert y / 5.0 == (n + d) as real;
    assert (y / 5.0).Floor == n + d;
  }

  /** A grid point right of the left wall is at least one step away from it. */
  lemma OnGridPositive(x: real)
    requires OnGrid(x) && x > 0.0
    ensures x >= 5.0
  {
    var n := (x / 5.0).Floor;
    assert x == n as real * 5.0;
    assert n > 0;
  }

  /** A grid point left of 750 is at least one step away from it. */
  lemma OnGridBelowRightWall(x: real)
    requires OnGrid(x) && x < 750.0
    ensures x <= 745.0
  {
    var n := (x / 5.0).Floor;
    assert x == n as real * 5.0;
    assert n < 150;
  }

  /**
   * The wall guards are tests on the old position, not clamps, yet they keep
   * the ship inside the playfield because it moves on a 5-unit grid.
   */
  lemma SteerStaysOnTrack(p: Player, keys: set<string>)
    requires OnTrack(p)
    ensures OnTrack(Steer(p, keys))
  {
    var afterLeft := if "ArrowLeft" in keys && p.x > 0.0 then p.(x := p.x - p.speed) else p;
    if "ArrowLeft" in keys && p.x > 0.0 {
      OnGridPositive(p.x);
      OnGridStep(p.x, -1);
    }
    assert OnTrack(afterLeft);
    if "ArrowRight" in keys && afterLeft.x < CanvasWidth - afterLeft.width {
      OnGridBelowRightWall(afterLeft.x);
      OnGridStep(afterLeft.x, 1);
    }
  }

  /** Left without right moves by exactly the speed, and only away from the wall, whatever else is held. */
  lemma SteerLeft(p: Player, keys: set<string>)
    requires "ArrowLeft" in keys && "ArrowRight" !in keys
    ensures Steer(p, keys).x == if p.x > 0.0 then p.x - p.speed else p.x
  {
  }

  /** Right without left moves by exactly the speed, and only away from the wall, whatever else is held. */
  lemma SteerRight(p: Player, keys: set<string>)
    requires "ArrowRight" in keys && "ArrowLeft" !in keys
    ensures Steer(p, keys).x == if p.x < CanvasWidth - p.width then p.x + p.speed else p.x
  {
  }

  /** Holding an arrow against its wall leaves the ship where it is, whatever else is held. */
  lemma SteerAgainstWalls(p: Player, keys: set<string>)
    ensures p.x == 0.0 && "ArrowLeft" in keys && "ArrowRight" !in keys ==> Steer(p, keys) == p
    ensures p.x == CanvasWidth - p.width && "ArrowRight" in keys && "ArrowLeft" !in keys ==> Steer(p, keys) == p
  {
  }

  /** With neither arrow held, whatever else is held, the ship does not move. */
  lemma SteerNoArrows(p: Player, keys: set<string>)
    requires "ArrowLeft" !in keys && "ArrowRight" !in keys
    ensures Steer(p, keys) == p
  {
  }

  /**
   * Both arrows held: away from the left wall the two moves cancel out, even
   * against the right wall; at the left wall only right applies.
   */
  lemma SteerBothArrows(p: Player, keys: set<string>)
    requires OnTrack(p) && "ArrowLeft" in keys && "ArrowRight" in keys
    ensures p.x > 0.0 ==> Steer(p, keys) == p
    ensures p.x == 0.0 ==> Steer(p, keys).x == p.speed
  {
  }

  // --------------------------------------------------------------- bullets

  /** One tick of a bullet's flight. */
  function Fly(b: Bullet): Bullet { b.(y := b.y - b.speed) }

  /** A bullet after one tick: flown, or gone if its top edge left the playfield. */
  function FlyOrDrop(b: Bullet): seq<Bullet> {
    if Fly(b).y < 0.0 then [] else [Fly(b)]
  }

  /**
   * The bullet loop: every bullet rises by its speed, and those whose top
   * edge is then above the playfield (y < 0) are dropped.
   */
  function AdvanceBullets(bs: seq<Bullet>): (r: seq<Bullet>)
    ensures |r| <= |bs|
  {
    if bs == [] then [] else FlyOrDrop(bs[0]) + AdvanceBullets(bs[1..])
  }

  /** The advance works bullet by bullet, so survivors keep their order. */
  lemma {:induction false} AdvanceBulletsAppend(a: seq<Bullet>, b: seq<Bullet>)
    ensures AdvanceBullets(a + b) == AdvanceBullets(a) + AdvanceBullets(b)
  {
    if a == [] {
      assert a + b == b;
    } else {
      assert (a + b)[0] == a[0];
      assert (a + b)[1..] == a[1..] + b;
      AdvanceBulletsAppend(a[1..], b);
      assert AdvanceBullets(a + b) == FlyOrDrop(a[0]) + AdvanceBullets(a[1..] + b);
    }
  }

  /** Unfolding the advance at index i of a sequence, as the in-place loop meets it. */
  lemma AdvanceBulletsAt(s: seq<Bullet>, i: nat)
    requires i < |s|
    ensures AdvanceBullets(s[i..]) == FlyOrDrop(s[i]) + AdvanceBullets(s[i + 1..])
  {
    assert s[i..][1..] == s[i + 1..];
  }

  /** A bullet survives the advance exactly when its new top edge is not above the playfield. */
  lemma {:induction false} AdvanceBulletsKeeps(bs: seq<Bullet>, k: nat)
    requires k < |bs|
    ensures Fly(bs[k]) in AdvanceBullets(bs) <==> Fly(bs[k]).y >= 0.0
  {
    AdvanceBulletsOnScreen(bs);
    assert AdvanceBullets(bs) == FlyOrDrop(bs[0]) + AdvanceBullets(bs[1..]);
    if k > 0 {
      AdvanceBulletsKeeps(bs[1..], k - 1);
      assert bs[1..][k - 1] == bs[k];
    }
  }

  /** No survivor's top edge is above the playfield. */
  lemma {:induction false} AdvanceBulletsOnScreen(bs: seq<Bullet>)
    ensures forall b | b in AdvanceBullets(bs) :: b.y >= 0.0
  {
    if bs != [] {
      AdvanceBulletsOnScreen(bs[1..]);
    }
  }

  /** Every survivor is some bullet of the input flown one tick. */
  lemma {:induction false} AdvanceBulletsOrigin(bs: seq<Bullet>, b: Bullet)
    requires b in AdvanceBullets(bs)
    ensures exists k :: 0 <= k < |bs| && b == Fly(bs[k])
  {
    if b != Fly(bs[0]) || Fly(bs[0]).y < 0.0 {
      AdvanceBulletsOrigin(bs[1..], b);
      var k :| 0 <= k < |bs[1..]| && b == Fly(bs[1..][k]);
      assert b == Fly(bs[k + 1]);
    } else {
      assert b == Fly(bs[0]);
    }
  }

  // --------------------------------------------------------------- enemies

  /** One tick of an enemy's descent. */
  function Fall(e: Enemy): Enemy { e.(y := e.y + e.speed) }

  /**
   * The bullet scan: the highest index whose bullet overlaps the enemy, or
   * None when no bullet does.
   */
  function LastOverlap(bs: seq<Bullet>, e: Enemy): (r: Option<nat>)
    ensures r.None? <==> forall k :: 0 <= k < |bs| ==> !Overlaps(bs[k].Bounds(), e.Bounds())
    ensures r.Some? ==>
      && r.value < |bs|
      && Overlaps(bs[r.value].Bounds(), e.Bounds())
      && (forall k :: r.value < k < |bs| ==> !Overlaps(bs[k].Bounds(), e.Bounds()))
  {
    if bs == [] then None
    else if Overlaps(bs[|bs| - 1].Bounds(), e.Bounds()) then Some(|bs| - 1)
    else LastOverlap(bs[..|bs| - 1], e)
  }

  /** The one thing that happens to an enemy in a tick. */
  datatype Fate = OffScreen | HitsPlayer | Shot(bullet: nat) | Advances

  /**
   * Off the bottom edge first, then the player, then the bullets from the
   * highest index; an enemy none of these catch just advances.
   */
  function FateOf(e: Enemy, p: Player, bs: seq<Bullet>): (f: Fate)
    ensures f.OffScreen? <==> Fall(e).y > CanvasHeight
    ensures f.HitsPlayer? <==> Fall(e).y <= CanvasHeight && Overlaps(p.Bounds(), Fall(e).Bounds())
    ensures f.Shot? ==>
      && Fall(e).y <= CanvasHeight
      && !Overlaps(p.Bounds(), Fall(e).Bounds())
      && f.bullet < |bs|
      && Overlaps(bs[f.bullet].Bounds(), Fall(e).Bounds())
      && (forall k :: f.bullet < k < |bs| ==> !Overlaps(bs[k].Bounds(), Fall(e).Bounds()))
    ensures f.Advances? <==>
      && Fall(e).y <= CanvasHeight
      && !Overlaps(p.Bounds(), Fall(e).Bounds())
      && (forall k :: 0 <= k < |bs| ==> !Overlaps(bs[k].Bounds(), Fall(e).Bounds()))
  {
    var e' := Fall(e);
    if e'.y > CanvasHeight then OffScreen
    else if Overlaps(p.Bounds(), e'.Bounds()) then HitsPlayer
    else match LastOverlap(bs, e')
      case Some(j) => Shot(j)
      case None => Advances
  }

  /**
   * What the enemy sweep has produced: the enemies kept, the bullets left,
   * the explosions created, the points won and the player hits taken.
   */
  datatype Sweep = Sweep(enemies: seq<Enemy>, bullets: seq<Bullet>, explosions: seq<Explosion>, points: int, hits: nat)

  /** The effect of one enemy's fate, given the bullets still in flight. */
  function Settle(e: Enemy, p: Player, bs: seq<Bullet>): (r: Sweep)
  {
    var e' := Fall(e);
    match FateOf(e, p, bs)
    case OffScreen => Sweep([], bs, [], 0, 0)
    case HitsPlayer => Sweep([], bs, [NewExplosion(CentreX(e'), CentreY(e'), 40.0)], 0, 1)
    case Shot(j) => Sweep([], bs[..j] + bs[j + 1..], [NewExplosion(CentreX(e'), CentreY(e'), 30.0)], e.points, 0)
    case Advances => Sweep([e'], bs, [], 0, 0)
  }

  /** Removing index j from a sequence. */
  function RemoveAt<T>(s: seq<T>, j: nat): (r: seq<T>)
    requires j < |s|
    ensures |r| == |s| - 1
  {
    s[..j] + s[j + 1..]
  }

  /** The enemy and player cases leave the bullets alone, the shot case removes only the hitting bullet. */
  lemma SettleOutcome(e: Enemy, p: Player, bs: seq<Bullet>)
    ensures var r := Settle(e, p, bs);
      match FateOf(e, p, bs)
      case OffScreen => r == Sweep([], bs, [], 0, 0)
      case HitsPlayer => r.enemies == [] && r.bullets == bs && r.points == 0 && r.hits == 1 &&
        |r.explosions| == 1 && r.explosions[0].radius == 40.0 &&
        r.explosions[0].x == CentreX(Fall(e)) && r.explosions[0].y == CentreY(Fall(e))
      case Shot(j) => j < |bs| && r.enemies == [] && r.bullets == RemoveAt(bs, j) &&
        r.points == e.points && r.hits == 0 &&
        |r.explosions| == 1 && r.explosions[0].radius == 30.0 &&
        r.explosions[0].x == CentreX(Fall(e)) && r.explosions[0].y == CentreY(Fall(e))
      case Advances => r == Sweep([Fall(e)], bs, [], 0, 0)
  {
  }

  /** A freshly created explosion. */
  predicate Fresh(x: Explosion) {
    x.life == 20 && x.maxLife == 20 && (x.radius == 30.0 || x.radius == 40.0)
  }

  /**
   * The enemy loop. It runs from the last enemy to the first, so es[0] is
   * settled last, against the bullets the later enemies have left.
   */
  function ResolveEnemies(es: seq<Enemy>, p: Player, bs: seq<Bullet>): (r: Sweep)
    ensures |r.bullets| <= |bs|
    ensures |r.enemies| + r.hits + (|bs| - |r.bullets|) <= |es|
    ensures |r.explosions| == r.hits + (|bs| - |r.bullets|)
    ensures forall x | x in r.explosions :: Fresh(x)
    ensures forall b | b in r.bullets :: b in bs
    ensures (forall e | e in es :: e.points >= 0) ==> r.points >= 0
    decreases |es|
  {
    if es == [] then Sweep([], bs, [], 0, 0)
    else
      var later := ResolveEnemies(es[1..], p, bs);
      Then(later, Settle(es[0], p, later.bullets))
  }

  /** The sweep so far followed by the settling of one more (earlier-indexed) enemy. */
  function Then(later: Sweep, o: Sweep): Sweep {
    Sweep(o.enemies + later.enemies, o.bullets, later.explosions + o.explosions,
          later.points + o.points, later.hits + o.hits)
  }

  /** Unfolding the sweep at index i of a sequence, as the in-place loop meets it. */
  lemma ResolveEnemiesAt(es: seq<Enemy>, i: nat, p: Player, bs: seq<Bullet>)
    requires i < |es|
    ensures var later := ResolveEnemies(es[i + 1..], p, bs);
      ResolveEnemies(es[i..], p, bs) == Then(later, Settle(es[i], p, later.bullets))
  {
    assert es[i..][1..] == es[i + 1..];
  }

  /** The sweep of a single enemy is that enemy's own settling. */
  lemma ResolveOne(e: Enemy, p: Player, bs: seq<Bullet>)
    ensures ResolveEnemies([e], p, bs) == Settle(e, p, bs)
  {
    assert [e][1..] == [];
    var o := Settle(e, p, bs);
    assert Then(Sweep([], bs, [], 0, 0), o) == Sweep(o.enemies + [], o.bullets, [] + o.explosions, 0 + o.points, 0 + o.hits);
    assert o.enemies + [] == o.enemies && [] + o.explosions == o.explosions;
  }

  /** Every enemy the sweep keeps is an input enemy moved down by its own speed. */
  lemma {:induction false} ResolveEnemiesOrigin(es: seq<Enemy>, p: Player, bs: seq<Bullet>, e: Enemy)
    requires e in ResolveEnemies(es, p, bs).enemies
    ensures exists k :: 0 <= k < |es| && e == Fall(es[k])
    decreases |es|
  {
    var later := ResolveEnemies(es[1..], p, bs);
    var o := Settle(es[0], p, later.bullets);
    if e in o.enemies {
      assert e == Fall(es[0]);
    } else {
      ResolveEnemiesOrigin(es[1..], p, bs, e);
      var k :| 0 <= k < |es[1..]| && e == Fall(es[1..][k]);
      assert e == Fall(es[k + 1]);
    }
  }

  /** The sweep keeps no dead enemy: every survivor is on screen and clear of the ship. */
  lemma {:induction false} ResolveEnemiesKeepsLive(es: seq<Enemy>, p: Player, bs: seq<Bullet>)
    ensures forall e | e in ResolveEnemies(es, p, bs).enemies ::
      e.y <= CanvasHeight && !Overlaps(p.Bounds(), e.Bounds())
    decreases |es|
  {
    if es != [] {
      var later := ResolveEnemies(es[1..], p, bs);
      ResolveEnemiesKeepsLive(es[1..], p, bs);
      SettleOutcome(es[0], p, later.bullets);
    }
  }

  // ------------------------------------------------------------ explosions

  /** One tick of an explosion's life. */
  function Fade(x: Explosion): Explosion { x.(life := x.life - 1) }

  /** An explosion after one tick: faded, or gone if its life ran out. */
  function FadeOrDrop(x: Explosion): seq<Explosion> {
    if Fade(x).life <= 0 then [] else [Fade(x)]
  }

  /** The explosion loop: every life drops by one and spent explosions (life <= 0) go. */
  function DecayExplosions(xs: seq<Explosion>): (r: seq<Explosion>)
    ensures |r| <= |xs|
    ensures forall x | x in r :: x.life > 0
  {
    if xs == [] then [] else FadeOrDrop(xs[0]) + DecayExplosions(xs[1..])
  }

  /** Decay, too, works entry by entry and keeps the order of the survivors. */
  lemma {:induction false} DecayExplosionsAppend(a: seq<Explosion>, b: seq<Explosion>)
    ensures DecayExplosions(a + b) == DecayExplosions(a) + DecayExplosions(b)
  {
    if a == [] {
      assert a + b == b;
    } else {
      assert (a + b)[0] == a[0];
      assert (a + b)[1..] == a[1..] + b;
      DecayExplosionsAppend(a[1..], b);
      assert DecayExplosions(a + b) == FadeOrDrop(a[0]) + DecayExplosions(a[1..] + b);
    }
  }

  /** Unfolding the decay at index i of a sequence, as the in-place loop meets it. */
  lemma DecayExplosionsAt(s: seq<Explosion>, i: nat)
    requires i < |s|
    ensures DecayExplosions(s[i..]) == FadeOrDrop(s[i]) + DecayExplosions(s[i + 1..])
  {
    assert s[i..][1..] == s[i + 1..];
  }

  /** An explosion survives the decay exactly when its decremented life is positive. */
  lemma {:induction false} DecayExplosionsKeeps(xs: seq<Explosion>, k: nat)
    requires k < |xs|
    ensures Fade(xs[k]) in DecayExplosions(xs) <==> Fade(xs[k]).life > 0
  {
    if k > 0 {
      DecayExplosionsKeeps(xs[1..], k - 1);
      assert xs[1..][k - 1] == xs[k];
    }
  }

  /** An explosion whose life is in (0, 20] and was not yet decayed. */
  predicate Live(x: Explosion) {
    x.maxLife == 20 && 0 < x.life <= x.maxLife && (x.radius == 30.0 || x.radius == 40.0)
  }

  /** An explosion as it stands between ticks: decayed at least once. */
  predicate Spent(x: Explosion) {
    x.maxLife == 20 && 0 < x.life < x.maxLife && (x.radius == 30.0 || x.radius == 40.0)
  }

  /** After a decay every survivor has 0 < life < maxLife. */
  lemma {:induction false} DecayMakesSpent(xs: seq<Explosion>)
    requires forall x | x in xs :: Live(x)
    ensures forall x | x in DecayExplosions(xs) :: Spent(x)
  {
    if xs != [] {
      DecayMakesSpent(xs[1..]);
      assert xs[0] in xs;
      assert DecayExplosions(xs) == FadeOrDrop(xs[0]) + DecayExplosions(xs[1..]);
    }
  }

  /** Apply the decay n times. */
  function DecayTimes(xs: seq<Explosion>, n: nat): seq<Explosion>
    decreases n
  {
    if n == 0 then xs else DecayTimes(DecayExplosions(xs), n - 1)
  }

  /**
   * An explosion with life L is still there, with life L - n, after n < L
   * decays, and is gone after the L-th.
   */
  lemma {:induction false} DecayLifetime(x: Explosion, n: nat)
    requires 0 < n <= x.life
    ensures n < x.life ==> DecayTimes([x], n) == [x.(life := x.life - n)]
    ensures n == x.life ==> DecayTimes([x], n) == []
    decreases n
  {
    assert [x][1..] == [];
    assert DecayExplosions([x]) == FadeOrDrop(x);
    if x.life > 1 && n > 1 {
      DecayLifetime(Fade(x), n - 1);
    }
  }

  /** So a new explosion survives 19 decays and is removed by the 20th. */
  lemma ExplosionLastsTwentyTicks(x: real, y: real, radius: real, n: nat)
    requires 0 < n <= 20
    ensures n < 20 ==> DecayTimes([NewExplosion(x, y, radius)], n) == [NewExplosion(x, y, radius).(life := 20 - n)]
    ensures n == 20 ==> DecayTimes([NewExplosion(x, y, radius)], n) == []
  {
    DecayLifetime(NewExplosion(x, y, radius), n);
  }

  // ------------------------------------------------------ spawning, speed

  /** The spawn delay in milliseconds: 2 ms less per point, never below 500. */
  function SpawnDelay(score: int): (d: int)
    ensures d >= 500
    ensures score >= 0 ==> d <= 2000
    ensures score >= 750 ==> d == 500
    ensures score <= 750 ==> d == 2000 - 2 * score
  {
    if 2000 - score * 2 >= 500 then 2000 - score * 2 else 500
  }

  /** The difficulty multiplier; it never drops below 1 and grows with the score. */
  function Difficulty(score: int): (m: real)
    ensures score >= 0 ==> m >= 1.0
    ensures (m - 1.0) * 1000.0 == score as real
  {
    1.0 + score as real * 0.001
  }
}
