/**
 * Step 7 of a tick: while the field holds fewer enemies than the wave calls
 * for, one new enemy of a random type enters at a random point 50 units
 * outside a random edge.
 */
module Spawner {
  import opened Types

  /** The most enemies any wave keeps on the field. */
  const MaxEnemies: int := 12

  /** `Math.min(3 + wave, 12)` */
  function TargetCount(wave: int): (n: int)
    ensures n <= MaxEnemies
    ensures n == MaxEnemies || n == 3 + wave
    ensures wave >= -2 ==> n >= 1
  {
    if 3 + wave < MaxEnemies then 3 + wave else MaxEnemies
  }

  /** The type table the spawn draw indexes, in the source's order. */
  const EnemyKinds: seq<EnemyType> := [Basic, Fast, Heavy, Shooter]

  /** Starting (and maximum) health of each type. */
  function StartHealth(kind: EnemyType): (h: real)
    ensures h == (if kind == Heavy then 30.0 else if kind == Fast then 10.0 else 20.0)
    ensures 10.0 <= h <= 30.0
  {
    match kind
    case Heavy => 30.0
    case Fast => 10.0
    case _ => 20.0
  }

  /** Score paid for a kill of each type. */
  function KillPoints(kind: EnemyType): (p: int)
    ensures p == (match kind case Heavy => 30 case Shooter => 25 case Fast => 15 case Basic => 10)
    ensures 10 <= p <= 30
  {
    if kind == Heavy then 30 else if kind == Shooter then 25 else if kind == Fast then 15 else 10
  }

  /** A fraction of a non-negative extent lies within it. */
  lemma FractionWithin(at: Fraction, extent: real)
    ensures extent >= 0.0 ==> 0.0 <= at * extent <= extent
  {
    if extent >= 0.0 {
      calc {
        at * extent;
      <=
        1.0 * extent;
      }
    }
  }

  /**
   * The entry point on side 0 (top), 1 (right), 2 (bottom) or 3 (left): on
   * the edge's line 50 units outside, at fraction `at` along it.
   */
  function EntryPoint(side: nat, at: Fraction, width: real, height: real): (p: Vec)
    requires side < 4
    ensures side == 0 ==> p.y == -50.0 && p.x == at * width
    ensures side == 1 ==> p.x == width + 50.0 && p.y == at * height
    ensures side == 2 ==> p.y == height + 50.0 && p.x == at * width
    ensures side == 3 ==> p.x == -50.0 && p.y == at * height
    ensures width >= 0.0 && height >= 0.0 ==>
              -50.0 <= p.x <= width + 50.0 && -50.0 <= p.y <= height + 50.0
              && (p.x < 0.0 || p.x > width || p.y < 0.0 || p.y > height)
  {
    FractionWithin(at, width);
    FractionWithin(at, height);
    if side == 0 then Vec(at * width, -50.0)
    else if side == 1 then Vec(width + 50.0, at * height)
    else if side == 2 then Vec(at * width, height + 50.0)
    else Vec(-50.0, at * height)
  }

  /** `spawnEnemy`: a fresh, still enemy whose stats follow its type. */
  function NewEnemy(env: Env, width: real, height: real): (e: Enemy)
    ensures e.kind in EnemyKinds && e.id == env.clockId
    ensures e.health == e.maxHealth == StartHealth(e.kind) && e.points == KillPoints(e.kind)
    ensures e.velocity == Vec(0.0, 0.0) && e.rotation == 0.0 && e.lastShotTime == 0.0
    ensures width >= 0.0 && height >= 0.0 ==>
              -50.0 <= e.position.x <= width + 50.0 && -50.0 <= e.position.y <= height + 50.0
              && (e.position.x < 0.0 || e.position.x > width || e.position.y < 0.0 || e.position.y > height)
    // It sits on one of the four edge lines, 50 units outside the field.
    ensures e.position.x == -50.0 || e.position.x == width + 50.0
            || e.position.y == -50.0 || e.position.y == height + 50.0
  {
    var kind := EnemyKinds[Pick(env.draws.spawnKind, |EnemyKinds|)];
    var pos := EntryPoint(Pick(env.draws.spawnSide, 4), env.draws.spawnAt, width, height);
    Enemy(env.clockId, pos, Vec(0.0, 0.0), 0.0, StartHealth(kind), StartHealth(kind),
          kind, 0.0, KillPoints(kind))
  }

  /** `spawnEnemies`: at most one enemy per tick, appended at the end. */
  function SpawnEnemies(s: GameState, env: Env): (r: GameState)
    ensures r == s.(enemies := r.enemies)
    ensures |s.enemies| < TargetCount(s.wave) ==> r.enemies == s.enemies + [NewEnemy(env, s.width, s.height)]
    ensures |s.enemies| >= TargetCount(s.wave) ==> r.enemies == s.enemies
    // Spawning alone never takes the count past the target, and from wave -2
    // on it never leaves the field empty.
    ensures |s.enemies| <= TargetCount(s.wave) ==> |r.enemies| <= TargetCount(s.wave)
    ensures s.wave >= -2 ==> |r.enemies| >= 1
  {
    if |s.enemies| < TargetCount(s.wave)
    then s.(enemies := s.enemies + [NewEnemy(env, s.width, s.height)])
    else s
  }
}
