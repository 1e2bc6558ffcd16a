/**
 * Step 2 of a tick: every enemy steers straight at the nearest player ship at
 * the speed of its type, shooters fire at a target in range once their
 * cooldown has run out, and enemies that leave the playfield by more than 50
 * units re-enter on the opposite side.
 */
module Enemies {
  import opened Types

  /** How far outside the playfield an enemy may go before it wraps. */
  const WrapMargin: real := 50.0

  /** A shooter fires only at a target closer than 300 units (squared here). */
  const ShotRange2: real := 90000.0

  const ShooterCooldown: real := 2000.0

  /**
   * `findNearestPlayer`: the index of the first player ship, in array order,
   * whose distance to `pos` is smallest; None when there is no player ship.
   * The source keeps the running minimum of the distances from an initial
   * +Infinity and replaces it only on a strictly smaller one; comparing
   * squared distances orders them the same way.
   */
  function NearestPlayer(ships: seq<Ship>, pos: Vec): (r: Option<nat>)
    ensures r.None? <==> forall i :: 0 <= i < |ships| ==> !ships[i].isPlayer
    ensures r.Some? ==> r.value < |ships| && ships[r.value].isPlayer
    ensures r.Some? ==> forall i {:trigger Dist2(ships[i].position, pos)} :: 0 <= i < |ships| && ships[i].isPlayer ==>
                          Dist2(ships[r.value].position, pos) <= Dist2(ships[i].position, pos)
    ensures r.Some? ==> forall i {:trigger Dist2(ships[i].position, pos)} :: 0 <= i < r.value && ships[i].isPlayer ==>
                          Dist2(ships[r.value].position, pos) < Dist2(ships[i].position, pos)
  {
    if ships == [] then None
    else
      var last := |ships| - 1;
      var best := NearestPlayer(ships[..last], pos);
      if !ships[last].isPlayer then best
      else if best.None? then Some(last)
      else if Dist2(ships[last].position, pos) < Dist2(ships[best.value].position, pos) then Some(last)
      else best
  }

  /** Speed of each enemy type, in units per second. */
  function Speed(kind: EnemyType): (v: real)
    ensures kind == Fast ==> v == 100.0
    ensures kind == Heavy ==> v == 50.0
    ensures kind != Fast && kind != Heavy ==> v == 75.0
    ensures 50.0 <= v <= 100.0
  {
    if kind == Fast then 100.0 else if kind == Heavy then 50.0 else 75.0
  }

  /**
   * `createEnemyProjectile`: 15 damage, 300 units/s along the unit vector to
   * the target. That vector is uninterpreted, so a target at distance 0 (a
   * division by zero in the source) gives an unspecified velocity.
   */
  function EnemyShot(e: Enemy, target: Ship, maths: Maths): (p: Projectile)
    ensures !p.isPlayerProjectile && p.ownerId == e.id && p.position == e.position && p.damage == 15.0
  {
    var dx := target.position.x - e.position.x;
    var dy := target.position.y - e.position.y;
    Projectile(e.position, Scale(maths.direction(dx, dy), 300.0), 15.0, e.id, false)
  }

  /** The two edge tests on one axis, in the source's order. */
  function Wrap(v: real, extent: real): (r: real)
    ensures extent >= -2.0 * WrapMargin ==> -WrapMargin <= r <= extent + WrapMargin
    ensures -WrapMargin <= v <= extent + WrapMargin ==> r == v
    ensures v < -WrapMargin ==> r == extent + WrapMargin
    ensures -WrapMargin <= v && v > extent + WrapMargin ==> r == -WrapMargin
  {
    var v' := if v < -WrapMargin then extent + WrapMargin else v;
    if v' > extent + WrapMargin then -WrapMargin else v'
  }

  /** An enemy after its step, and the projectile it fired, if any. */
  datatype Moved = Moved(enemy: Enemy, shot: Option<Projectile>) {
    /** The shot as the list of projectiles pushed. */
    function Shot(): seq<Projectile> { if shot.Some? then [shot.value] else [] }
  }

  /** A shooter with a target in range whose cooldown has run out fires. */
  predicate Fires(e: Enemy, ships: seq<Ship>, now: real)
  {
    var t := NearestPlayer(ships, e.position);
    t.Some? && e.kind == Shooter && Dist2(ships[t.value].position, e.position) < ShotRange2
    && now - e.lastShotTime > ShooterCooldown
  }

  /**
   * Turning toward a target: at a positive distance the enemy takes the speed
   * of its type along the unit vector to the target and faces it; on top of
   * the target it keeps its velocity and rotation.
   */
  function Steer(e: Enemy, target: Ship, maths: Maths): (r: Enemy)
    ensures Dist2(target.position, e.position) > 0.0 ==>
              r.velocity == Scale(maths.direction(target.position.x - e.position.x,
                                                  target.position.y - e.position.y), Speed(e.kind))
    ensures Dist2(target.position, e.position) <= 0.0 ==> r == e
    ensures r == e.(velocity := r.velocity, rotation := r.rotation)
  {
    var dx := target.position.x - e.position.x;
    var dy := target.position.y - e.position.y;
    if Dist2(target.position, e.position) > 0.0
    then e.(velocity := Scale(maths.direction(dx, dy), Speed(e.kind)), rotation := maths.atan2(dy, dx))
    else e
  }

  /** Steering toward the nearest player ship and, for a shooter, firing at it. */
  function Chase(e: Enemy, ships: seq<Ship>, env: Env): (r: Moved)
    ensures NearestPlayer(ships, e.position).None? ==> r == Moved(e, None)
    ensures var t := NearestPlayer(ships, e.position);
            t.Some? && Dist2(ships[t.value].position, e.position) > 0.0 ==>
              r.enemy.velocity == Scale(env.maths.direction(ships[t.value].position.x - e.position.x,
                                                            ships[t.value].position.y - e.position.y),
                                        Speed(e.kind))
    ensures r.shot.Some? <==> Fires(e, ships, env.now)
    ensures r.shot.Some? ==> !r.shot.value.isPlayerProjectile && r.shot.value.ownerId == e.id
                             && r.shot.value.damage == 15.0 && r.enemy.lastShotTime == env.now
    ensures r.shot.None? ==> r.enemy.lastShotTime == e.lastShotTime
    ensures r.enemy.position == e.position
    ensures r.enemy.id == e.id && r.enemy.health == e.health && r.enemy.maxHealth == e.maxHealth
    ensures r.enemy.kind == e.kind && r.enemy.points == e.points
  {
    var t := NearestPlayer(ships, e.position);
    if t.None? then Moved(e, None)
    else
      var target := ships[t.value];
      var steered := Steer(e, target, env.maths);
      if Fires(e, ships, env.now)
      then Moved(steered.(lastShotTime := env.now), Some(EnemyShot(steered, target, env.maths)))
      else Moved(steered, None)
  }

  /** Moving by velocity x dt, then wrapping at 50 units outside each edge. */
  function Drift(e: Enemy, dt: real, width: real, height: real): (r: Enemy)
    ensures width >= -2.0 * WrapMargin && height >= -2.0 * WrapMargin ==>
              -WrapMargin <= r.position.x <= width + WrapMargin
              && -WrapMargin <= r.position.y <= height + WrapMargin
    ensures r == e.(position := r.position)
  {
    var p := Add(e.position, Scale(e.velocity, dt));
    e.(position := Vec(Wrap(p.x, width), Wrap(p.y, height)))
  }

  /** One enemy's step. */
  function EnemyStep(e: Enemy, ships: seq<Ship>, env: Env, dt: real, width: real, height: real): (r: Moved)
    // With no player ship to chase, the enemy drifts on its old velocity and never fires.
    ensures NearestPlayer(ships, e.position).None? ==>
              r.shot.None? && r.enemy.velocity == e.velocity && r.enemy.rotation == e.rotation
    // Chasing a ship at a positive distance sets the speed of the enemy's type.
    ensures var t := NearestPlayer(ships, e.position);
            t.Some? && Dist2(ships[t.value].position, e.position) > 0.0 ==>
              r.enemy.velocity == Scale(env.maths.direction(ships[t.value].position.x - e.position.x,
                                                            ships[t.value].position.y - e.position.y),
                                        Speed(e.kind))
    ensures r.shot.Some? <==> Fires(e, ships, env.now)
    ensures r.shot.Some? ==> !r.shot.value.isPlayerProjectile && r.shot.value.ownerId == e.id
                             && r.shot.value.damage == 15.0 && r.enemy.lastShotTime == env.now
    ensures r.shot.None? ==> r.enemy.lastShotTime == e.lastShotTime
    // It ends within 50 units of the playfield.
    ensures width >= -2.0 * WrapMargin && height >= -2.0 * WrapMargin ==>
              -WrapMargin <= r.enemy.position.x <= width + WrapMargin
              && -WrapMargin <= r.enemy.position.y <= height + WrapMargin
    ensures r.enemy.id == e.id && r.enemy.health == e.health && r.enemy.maxHealth == e.maxHealth
    ensures r.enemy.kind == e.kind && r.enemy.points == e.points
  {
    var chased := Chase(e, ships, env);
    Moved(Drift(chased.enemy, dt, width, height), chased.shot)
  }

  /** The projectiles fired by a run of enemies, in enemy order. */
  function Shots(enemies: seq<Enemy>, ships: seq<Ship>, env: Env, dt: real, width: real, height: real)
    : seq<Projectile>
  {
    if enemies == [] then []
    else
      EnemyStep(enemies[0], ships, env, dt, width, height).Shot() + Shots(enemies[1..], ships, env, dt, width, height)
  }

  /** The visit of enemy j: it is stepped in place and its shot is pushed. */
  function EnemyAt(j: nat, s: GameState, env: Env, dt: real): GameState
    requires j < |s.enemies|
  {
    var out := EnemyStep(s.enemies[j], s.ships, env, dt, s.width, s.height);
    s.(enemies := s.enemies[j := out.enemy], projectiles := s.projectiles + out.Shot())
  }

  /** The enemy loop from index j on. */
  function EnemiesFrom(j: nat, s: GameState, env: Env, dt: real): (r: GameState)
    ensures SameSettings(s, r) && r.score == s.score
    ensures r.ships == s.ships && r.particles == s.particles && r.powerUps == s.powerUps
    ensures |r.enemies| == |s.enemies|
    ensures forall i :: 0 <= i < j && i < |s.enemies| ==> r.enemies[i] == s.enemies[i]
    decreases |s.enemies| - j
  {
    if j >= |s.enemies| then s
    else EnemiesFrom(j + 1, EnemyAt(j, s, env, dt), env, dt)
  }

  /** The enemy loop steps every enemy from j on in place. */
  lemma {:induction false} EnemiesFromSteps(j: nat, s: GameState, env: Env, dt: real)
    requires j <= |s.enemies|
    ensures var r := EnemiesFrom(j, s, env, dt);
            forall i :: j <= i < |s.enemies| ==>
              r.enemies[i] == EnemyStep(s.enemies[i], s.ships, env, dt, s.width, s.height).enemy
    decreases |s.enemies| - j
  {
    if j < |s.enemies| {
      var s' := EnemyAt(j, s, env, dt);
      assert EnemiesFrom(j, s, env, dt) == EnemiesFrom(j + 1, s', env, dt);
      assert s'.enemies == s.enemies[j := EnemyStep(s.enemies[j], s.ships, env, dt, s.width, s.height).enemy];
      EnemiesFromSteps(j + 1, s', env, dt);
    }
  }

  /** The enemy loop appends the shots of the enemies from j on, in enemy order. */
  lemma {:induction false} EnemiesFromShots(j: nat, s: GameState, env: Env, dt: real)
    requires j <= |s.enemies|
    ensures EnemiesFrom(j, s, env, dt).projectiles
            == s.projectiles + Shots(s.enemies[j..], s.ships, env, dt, s.width, s.height)
    decreases |s.enemies| - j
  {
    if j == |s.enemies| {
      assert s.enemies[j..] == [];
    } else {
      var s' := EnemyAt(j, s, env, dt);
      assert EnemiesFrom(j, s, env, dt) == EnemiesFrom(j + 1, s', env, dt);
      assert s'.enemies[j + 1..] == s.enemies[j + 1..];
      EnemiesFromShots(j + 1, s', env, dt);
      ShotsCons(s.enemies, j, s.ships, env, dt, s.width, s.height);
    }
  }

  /** Peeling the first enemy off a suffix of the list of shots. */
  lemma ShotsCons(enemies: seq<Enemy>, j: nat, ships: seq<Ship>, env: Env, dt: real, width: real, height: real)
    requires j < |enemies|
    ensures Shots(enemies[j..], ships, env, dt, width, height)
            == EnemyStep(enemies[j], ships, env, dt, width, height).Shot()
               + Shots(enemies[j + 1..], ships, env, dt, width, height)
  {
    assert enemies[j..][0] == enemies[j] && enemies[j..][1..] == enemies[j + 1..];
  }

  /** The whole enemy step: every enemy stepped in order, shots appended in that order. */
  function UpdateEnemies(s: GameState, env: Env, dt: real): (r: GameState)
    ensures SameSettings(s, r) && r.score == s.score
    ensures r.ships == s.ships && r.particles == s.particles && r.powerUps == s.powerUps
    ensures |r.enemies| == |s.enemies|
    ensures forall i :: 0 <= i < |s.enemies| ==>
              r.enemies[i] == EnemyStep(s.enemies[i], s.ships, env, dt, s.width, s.height).enemy
    ensures r.projectiles == s.projectiles + Shots(s.enemies, s.ships, env, dt, s.width, s.height)
  {
    EnemiesFromSteps(0, s, env, dt);
    EnemiesFromShots(0, s, env, dt);
    assert s.enemies[0..] == s.enemies;
    EnemiesFrom(0, s, env, dt)
  }
}
