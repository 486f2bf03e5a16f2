/**
 * The whole game state as one value, the tick (updateGame) as the
 * composition of its six stages, and the session transitions around it:
 * startGame, resetGame, the key handlers and the frame loop.
 */
module Session {
  import opened Geometry
  import opened Entities
  import opened Steps

  datatype Phase = Menu | Playing | GameOver

  /** Everything the simulation reads or writes. */
  datatype World = World(
    phase: Phase,
    score: int,
    highScore: int,
    lives: int,
    player: Player,
    enemies: seq<Enemy>,
    bullets: seq<Bullet>,
    explosions: seq<Explosion>,
    lastSpawn: int,
    gameSpeed: real,
    keys: set<string>)

  /** The state when the page is first shown. */
  function Initial(): World {
    World(Menu, 0, 0, 3, StartPlayer, [], [], [], 0, 1.0, {})
  }

  function MaxInt(a: int, b: int): int { if a <= b then b else a }

  // ------------------------------------------------------------ the stages

  /** Stage 1: the arrow keys move the ship. */
  function MoveStage(w: World): World {
    w.(player := Steer(w.player, w.keys))
  }

  /** Stage 2: bullets rise and those above the top are dropped. */
  function BulletStage(w: World): World {
    w.(bullets := AdvanceBullets(w.bullets))
  }

  /**
   * Whether the hits of a sweep end the game: some decrement of the lives
   * reached zero or below. Lives only go down within a sweep, so this is the
   * same as the final count being at most zero after at least one hit.
   */
  predicate EndsGame(lives: int, hits: nat) {
    hits > 0 && lives - hits <= 0
  }

  /**
   * Folding a sweep's result into the world. score0 is the score when the
   * tick began: the high score is updated with it, not with points won in
   * this tick.
   */
  function ApplySweep(w: World, r: Sweep, score0: int): World {
    var over := EndsGame(w.lives, r.hits);
    w.(enemies := r.enemies,
       bullets := r.bullets,
       explosions := w.explosions + r.explosions,
       score := w.score + r.points,
       lives := w.lives - r.hits,
       phase := if over then GameOver else w.phase,
       highScore := if over then MaxInt(w.highScore, score0) else w.highScore)
  }

  /**
   * Folding the sweep of the later enemies and then one more enemy's result
   * is folding their combined sweep (only the enemy list is put back by the
   * caller).
   */
  lemma ApplySweepThen(w: World, later: Sweep, o: Sweep, score0: int)
    ensures ApplySweep(ApplySweep(w, later, score0), o, score0)
         == ApplySweep(w, Then(later, o), score0).(enemies := o.enemies)
  {
  }

  /** Folding a sweep overwrites the enemy list, so the list it starts from does not matter. */
  lemma ApplySweepIgnoresEnemies(w: World, es: seq<Enemy>, r: Sweep, score0: int)
    ensures ApplySweep(w.(enemies := es), r, score0) == ApplySweep(w, r, score0)
  {
  }

  /** Stage 3: every enemy falls and meets its fate. */
  function EnemyStage(w: World, score0: int): World {
    ApplySweep(w, ResolveEnemies(w.enemies, w.player, w.bullets), score0)
  }

  /** Stage 4: explosions age. */
  function ExplosionStage(w: World): World {
    w.(explosions := DecayExplosions(w.explosions))
  }

  /** Whether stage 5 spawns: strictly more than the delay has passed. */
  predicate SpawnDue(lastSpawn: int, now: int, score0: int) {
    now - lastSpawn > SpawnDelay(score0)
  }

  /** Stage 5: one new enemy when the delay has passed, with the multiplier of the previous tick. */
  function SpawnStage(w: World, now: int, score0: int, d: Dice): World
    requires ValidDice(d)
  {
    if SpawnDue(w.lastSpawn, now, score0)
    then w.(enemies := w.enemies + [NewEnemy(d, w.gameSpeed)], lastSpawn := now)
    else w
  }

  /** Stage 6: the multiplier is recomputed from the score the tick began with. */
  function SpeedStage(w: World, score0: int): World {
    w.(gameSpeed := Difficulty(score0))
  }

  /** updateGame: the six stages in their fixed order, all reading the tick-start score. */
  function Tick(w: World, now: int, d: Dice): World
    requires ValidDice(d)
  {
    var score0 := w.score;
    var w1 := MoveStage(w);
    var w2 := BulletStage(w1);
    var w3 := EnemyStage(w2, score0);
    var w4 := ExplosionStage(w3);
    var w5 := SpawnStage(w4, now, score0, d);
    SpeedStage(w5, score0)
  }

  /** gameLoop: a tick happens only while playing. */
  function Frame(w: World, now: int, d: Dice): World
    requires ValidDice(d)
  {
    if w.phase == Playing then Tick(w, now, d) else w
  }

  // ------------------------------------------------------- the transitions

  /** startGame: a fresh round; the high score and the held keys stay. */
  function Start(w: World, now: int): World {
    w.(phase := Playing, score := 0, lives := 3,
       player := w.player.(x := 375.0, y := 520.0),
       enemies := [], bullets := [], explosions := [],
       gameSpeed := 1.0, lastSpawn := now)
  }

  /** resetGame: back to the menu; only the explosions are cleared. */
  function Reset(w: World): World {
    w.(phase := Menu, explosions := [])
  }

  /** The keydown handler: the key is held from now on, and Space fires while playing. */
  function PressKey(w: World, code: string): World {
    var w' := w.(keys := w.keys + {code});
    if code == "Space" && w.phase == Playing
    then w'.(bullets := w'.bullets + [NewBullet(w'.player)])
    else w'
  }

  /** The keyup handler. */
  function ReleaseKey(w: World, code: string): (v: World)
    ensures code !in v.keys
    ensures forall k | k in w.keys && k != code :: k in v.keys
    ensures v.keys <= w.keys
    ensures v.(keys := w.keys) == w
  {
    w.(keys := w.keys - {code})
  }

  /** Anything that can happen to the game between two observations. */
  datatype Event =
    | StartClicked(now: int)
    | MenuClicked
    | KeyDown(code: string)
    | KeyUp(code: string)
    | AnimationFrame(now: int, dice: Dice)

  predicate ValidEvent(ev: Event) {
    ev.AnimationFrame? ==> ValidDice(ev.dice)
  }

  function Apply(w: World, ev: Event): World
    requires ValidEvent(ev)
  {
    match ev
    case StartClicked(now) => Start(w, now)
    case MenuClicked => Reset(w)
    case KeyDown(code) => PressKey(w, code)
    case KeyUp(code) => ReleaseKey(w, code)
    case AnimationFrame(now, d) => Frame(w, now, d)
  }

  function Run(w: World, evs: seq<Event>): World
    requires forall ev | ev in evs :: ValidEvent(ev)
    decreases |evs|
  {
    if evs == [] then w else Run(Apply(w, evs[0]), evs[1..])
  }

  // ---------------------------------------------------------- the invariant

  /**
   * What holds between any two events: the ship is on its track, every
   * entity has its constructor's shape, every explosion has been aged at
   * least once, the counters are in range, and a round in play has lives
   * left.
   */
  predicate Consistent(w: World) {
    && OnTrack(w.player)
    && (forall b | b in w.bullets :: IsBulletShape(b))
    && (forall e | e in w.enemies :: IsArchetype(e) && e.speed > 0.0)
    && (forall x | x in w.explosions :: Spent(x))
    && w.score >= 0
    && w.highScore >= 0
    && w.lives <= 3
    && (w.phase == Playing ==> w.lives > 0)
    && w.gameSpeed >= 1.0
  }
}
