/**
 * The engine as it runs: one object holding the world, whose methods change
 * ships and enemies in place inside index loops, push onto and splice out of
 * the lists while iterating, and add to the score. Each method is proved to
 * leave exactly the state that the matching function of the step modules
 * describes, so every property proved there holds of the object.
 */
module World {
  import opened Types
  import opened Seqs
  import Ships
  import Enemies
  import Cleanup
  import Collisions
  import Spawner
  import Engine

  class GameEngine {
    var ships: seq<Ship>
    var enemies: seq<Enemy>
    var projectiles: seq<Projectile>
    var particles: seq<Particle>
    var powerUps: seq<PowerUp>
    var wave: int
    var score: int
    var gameMode: GameMode
    var gameStatus: GameStatus
    var width: real
    var height: real

    /** The world as a value. */
    function State(): GameState
      reads this
    {
      GameState(ships, enemies, projectiles, particles, powerUps, wave, score,
                gameMode, gameStatus, width, height)
    }

    constructor (g: GameState)
      ensures State() == g
    {
      ships, enemies, projectiles, particles, powerUps := g.ships, g.enemies, g.projectiles, g.particles, g.powerUps;
      wave, score, gameMode, gameStatus := g.wave, g.score, g.gameMode, g.gameStatus;
      width, height := g.width, g.height;
    }

    /** `update`: the seven steps, in order. */
    method Update(env: Env, dt: real)
      modifies this
      ensures State() == Engine.Tick(old(State()), env, dt)
    {
      UpdateShips(env, dt);
      UpdateEnemies(env, dt);
      UpdateProjectiles(dt);
      UpdateParticles(dt);
      // Power-ups have no per-tick behaviour.
      CheckCollisions(env);
      SpawnEnemies(env);
    }

    // -------------------------------------------------------------------
    // Step 1: ships.
    // -------------------------------------------------------------------

    /** The movement part of the ship loop's body, on one ship. */
    method Fly(ship: Ship, controls: Controls, env: Env, dt: real) returns (r: Ship)
      ensures r == Ships.Fly(ship, controls, env, dt, width, height)
    {
      var a := Accelerate(env.input.keys, controls.keys, ship.upgrades.speed * 200.0);
      var vx := (ship.velocity.x + a.x * dt) * 0.9;
      var vy := (ship.velocity.y + a.y * dt) * 0.9;
      ghost var v := Scale(Add(ship.velocity, Scale(a, dt)), 0.9);
      assert Vec(vx, vy) == v;
      var px := ship.position.x + vx * dt;
      var py := ship.position.y + vy * dt;
      ghost var p := Add(ship.position, Scale(v, dt));
      assert Vec(px, py) == p;
      px := Max(Ships.Inset, Min(width - Ships.Inset, px));
      py := Max(Ships.Inset, Min(height - Ships.Inset, py));
      assert px == Ships.Clamp(p.x, Ships.Inset, width - Ships.Inset);
      assert py == Ships.Clamp(p.y, Ships.Inset, height - Ships.Inset);
      r := ship.(velocity := Vec(vx, vy), position := Vec(px, py));
      if controls.playerId == 1 {
        r := r.(rotation := env.maths.atan2(env.input.mouse.y - py, env.input.mouse.x - px));
      }
    }

    /** The acceleration from the held direction keys, one axis test at a time. */
    method Accelerate(keys: set<string>, k: KeyMap, speed: real) returns (a: Vec)
      ensures a == Ships.Thrust(keys, k, speed)
    {
      var ax, ay := 0.0, 0.0;
      if k.up in keys { ay := ay - speed; }
      if k.down in keys { ay := ay + speed; }
      if k.left in keys { ax := ax - speed; }
      if k.right in keys { ax := ax + speed; }
      a := Vec(ax, ay);
    }

    /** The body of the ship loop for the ship at index i. */
    method StepShip(i: nat, env: Env, dt: real)
      requires i < |ships|
      modifies this
      ensures State() == Ships.ShipAt(i, old(State()), env, dt)
    {
      var ship := ships[i];
      if !ship.isPlayer || ship.controls.None? {
        assert ships[i := ship] == ships && projectiles + [] == projectiles;
        return;
      }
      var controls := ship.controls.value;
      ship := Fly(ship, controls, env, dt);
      var fireRate := ship.upgrades.fireRate;
      // A zero fire rate makes the interval +Infinity, which no wait exceeds.
      var canShoot := fireRate != 0.0 && env.now - ship.lastShotTime > 1000.0 / fireRate;
      var shouldShoot := false;
      if controls.playerId == 1 && env.input.mousePressed {
        shouldShoot := true;
      } else if controls.playerId == 2 && controls.keys.shoot in env.input.keys {
        shouldShoot := true;
      }
      if shouldShoot && canShoot {
        projectiles := projectiles + [Ships.PlayerShot(ship, env.maths)];
        ship := ship.(lastShotTime := env.now);
      } else {
        assert projectiles == old(projectiles) + [];
      }
      if ship.shield < ship.maxShield {
        ship := ship.(shield := Min(ship.maxShield, ship.shield + 20.0 * dt));
      }
      ships := ships[i := ship];
    }

    /** `updateShips` */
    method UpdateShips(env: Env, dt: real)
      modifies this
      ensures State() == Ships.UpdateShips(old(State()), env, dt)
    {
      var i := 0;
      while i < |ships|
        invariant 0 <= i <= |ships|
        invariant Ships.ShipsFrom(i, State(), env, dt) == Ships.ShipsFrom(0, old(State()), env, dt)
        decreases |ships| - i
      {
        StepShip(i, env, dt);
        i := i + 1;
      }
    }

    // -------------------------------------------------------------------
    // Step 2: enemies.
    // -------------------------------------------------------------------

    /** `findNearestPlayer`, with the running minimum kept as a squared distance. */
    method FindNearestPlayer(pos: Vec) returns (nearest: Option<nat>)
      ensures nearest == Enemies.NearestPlayer(ships, pos)
    {
      nearest := None;
      var nearestDistance := 0.0;
      for i := 0 to |ships|
        invariant nearest == Enemies.NearestPlayer(ships[..i], pos)
        invariant nearest.Some? ==> nearest.value < i
                                    && nearestDistance == Dist2(ships[nearest.value].position, pos)
      {
        assert ships[..i + 1][..i] == ships[..i];
        if ships[i].isPlayer {
          var distance := Dist2(ships[i].position, pos);
          // `nearest.None?` stands for the initial +Infinity.
          if nearest.None? || distance < nearestDistance {
            nearest := Some(i);
            nearestDistance := distance;
          }
        }
      }
      assert ships[..|ships|] == ships;
    }

    /** The steering part of the enemy loop's body, on one enemy. */
    method Steer(enemy: Enemy, target: Ship, maths: Maths) returns (r: Enemy)
      ensures r == Enemies.Steer(enemy, target, maths)
    {
      r := enemy;
      var dx := target.position.x - enemy.position.x;
      var dy := target.position.y - enemy.position.y;
      if Dist2(target.position, enemy.position) > 0.0 {
        r := r.(velocity := Scale(maths.direction(dx, dy), Enemies.Speed(enemy.kind)),
                rotation := maths.atan2(dy, dx));
      }
    }

    /** The first half of the enemy loop's body: steering and shooting. */
    method ChaseNearest(j: nat, env: Env)
      requires j < |enemies|
      modifies this
      ensures var out := Enemies.Chase(old(enemies[j]), ships, env);
              State() == old(State()).(enemies := old(enemies)[j := out.enemy],
                                       projectiles := old(projectiles) + out.Shot())
    {
      var enemy := enemies[j];
      var nearest := FindNearestPlayer(enemy.position);
      if nearest.Some? {
        var target := ships[nearest.value];
        enemy := Steer(enemy, target, env.maths);
        if enemy.kind == Shooter && Dist2(target.position, enemy.position) < Enemies.ShotRange2 {
          if env.now - enemy.lastShotTime > Enemies.ShooterCooldown {
            projectiles := projectiles + [Enemies.EnemyShot(enemy, target, env.maths)];
            enemy := enemy.(lastShotTime := env.now);
          }
        }
      }
      if projectiles == old(projectiles) {
        assert projectiles == old(projectiles) + [];
      }
      enemies := enemies[j := enemy];
    }

    /** The second half of the enemy loop's body: moving and wrapping. */
    method DriftAt(j: nat, dt: real)
      requires j < |enemies|
      modifies this
      ensures State() == old(State()).(enemies := old(enemies)[j := Enemies.Drift(old(enemies[j]), dt, width, height)])
    {
      var enemy := enemies[j];
      var px := enemy.position.x + enemy.velocity.x * dt;
      var py := enemy.position.y + enemy.velocity.y * dt;
      ghost var p := Add(enemy.position, Scale(enemy.velocity, dt));
      assert px == p.x && py == p.y;
      if px < -Enemies.WrapMargin { px := width + Enemies.WrapMargin; }
      if px > width + Enemies.WrapMargin { px := -Enemies.WrapMargin; }
      if py < -Enemies.WrapMargin { py := height + Enemies.WrapMargin; }
      if py > height + Enemies.WrapMargin { py := -Enemies.WrapMargin; }
      assert px == Enemies.Wrap(p.x, width) && py == Enemies.Wrap(p.y, height);
      assert enemy.(position := Vec(px, py)) == Enemies.Drift(enemy, dt, width, height);
      enemies := enemies[j := enemy.(position := Vec(px, py))];
    }

    /** The body of the enemy loop for the enemy at index j. */
    method StepEnemy(j: nat, env: Env, dt: real)
      requires j < |enemies|
      modifies this
      ensures State() == Enemies.EnemyAt(j, old(State()), env, dt)
    {
      ChaseNearest(j, env);
      DriftAt(j, dt);
      assert enemies == old(enemies)[j := Enemies.EnemyStep(old(enemies[j]), ships, env, dt, width, height).enemy];
    }

    /** `updateEnemies` */
    method UpdateEnemies(env: Env, dt: real)
      modifies this
      ensures State() == Enemies.UpdateEnemies(old(State()), env, dt)
    {
      var j := 0;
      while j < |enemies|
        invariant 0 <= j <= |enemies|
        invariant Enemies.EnemiesFrom(j, State(), env, dt) == Enemies.EnemiesFrom(0, old(State()), env, dt)
        decreases |enemies| - j
      {
        StepEnemy(j, env, dt);
        j := j + 1;
      }
    }

    // -------------------------------------------------------------------
    // Steps 3 and 4: projectiles and particles.
    // -------------------------------------------------------------------

    /** `updateProjectiles`: the filter, with each projectile moved as it is tested. */
    method UpdateProjectiles(dt: real)
      modifies this
      ensures State() == old(State()).(projectiles :=
                Cleanup.UpdateProjectiles(old(projectiles), dt, width, height))
    {
      var kept: seq<Projectile> := [];
      for k := 0 to |projectiles|
        invariant kept == Filter(Cleanup.MoveProjectiles(projectiles[..k], dt), Cleanup.KeepProjectile(width, height))
      {
        var moved := Cleanup.MoveProjectiles(projectiles[..k + 1], dt);
        assert moved[..k] == Cleanup.MoveProjectiles(projectiles[..k], dt);
        var p := Cleanup.MoveProjectile(projectiles[k], dt);
        if Cleanup.OnField(p.position, width, height) {
          kept := kept + [p];
        }
      }
      assert projectiles[..|projectiles|] == projectiles;
      projectiles := kept;
    }

    /** `updateParticles`: the filter, with each particle moved and aged as it is tested. */
    method UpdateParticles(dt: real)
      modifies this
      ensures State() == old(State()).(particles := Cleanup.UpdateParticles(old(particles), dt))
    {
      var kept: seq<Particle> := [];
      for k := 0 to |particles|
        invariant kept == Filter(Cleanup.AgeParticles(particles[..k], dt), Cleanup.KeepParticle())
      {
        var aged := Cleanup.AgeParticles(particles[..k + 1], dt);
        assert aged[..k] == Cleanup.AgeParticles(particles[..k], dt);
        var p := Cleanup.AgeParticle(particles[k], dt);
        if p.life > 0.0 {
          kept := kept + [p];
        }
      }
      assert particles[..|particles|] == particles;
      particles := kept;
    }

    // -------------------------------------------------------------------
    // Step 6: collisions.
    // -------------------------------------------------------------------

    /** `createHitParticles` and `createExplosion`: push n sparks, one at a time. */
    method PushSparks(pos: Vec, n: nat, life: real)
      modifies this
      ensures State() == old(State()).(particles := old(particles) + Collisions.Sparks(pos, n, life))
    {
      for i := 0 to n
        invariant State() == old(State()).(particles := old(particles) + Collisions.Sparks(pos, i, life))
      {
        particles := particles + [Particle(pos, Vec(0.0, 0.0), life, life)];
        assert Collisions.Sparks(pos, i + 1, life) == Collisions.Sparks(pos, i, life) + [Particle(pos, Vec(0.0, 0.0), life, life)];
      }
    }

    /** Projectile p, read at index k, against the enemy now at index e. */
    method HitEnemy(p: Projectile, k: nat, e: nat, draws: Draws)
      requires e < |enemies|
      modifies this
      ensures State() == Collisions.HitVisit(p, k, e, old(State()), draws)
    {
      ghost var s0 := State();
      var enemy := enemies[e];
      if Collisions.Overlap(p.position, Collisions.ProjectileRadius, enemy.position, Collisions.EnemyRadius) {
        enemy := enemy.(health := enemy.health - p.damage);
        enemies := enemies[e := enemy];
        PushSparks(enemy.position, Collisions.SparksPerHit, 0.5);
        projectiles := Splice(projectiles, k);
        ghost var s1 := State();
        assert s1 == s0.(enemies := s0.enemies[e := enemy], particles := s0.particles + Collisions.HitSparks(enemy.position),
                         projectiles := Splice(s0.projectiles, k));
        if enemy.health <= 0.0 {
          score := score + enemy.points;
          PushSparks(enemy.position, Collisions.SparksPerExplosion, 1.0);
          if draws.dropRoll(k, e) < Collisions.DropChance {
            var kind := Collisions.PowerUpKinds[Pick(draws.dropKind(k, e), |Collisions.PowerUpKinds|)];
            powerUps := powerUps + [PowerUp(enemy.position, kind, 1.0)];
          }
          assert powerUps == s1.powerUps + Collisions.Drop(draws, k, e, enemy.position);
          enemies := Splice(enemies, e);
          assert State() == s1.(score := s1.score + enemy.points,
                                particles := s1.particles + Collisions.Explosion(enemy.position),
                                powerUps := s1.powerUps + Collisions.Drop(draws, k, e, enemy.position),
                                enemies := Splice(s1.enemies, e));
        }
      }
    }

    /** First pass: player projectiles against enemies, both loops as `forEach`. */
    method ResolvePlayerHits(draws: Draws)
      modifies this
      ensures State() == Collisions.PlayerHits(old(State()), draws)
    {
      var n := |projectiles|;
      var k := 0;
      while k < n
        invariant Collisions.PlayerHitsFrom(k, n, State(), draws) == Collisions.PlayerHits(old(State()), draws)
        decreases n - k
      {
        if k < |projectiles| && projectiles[k].isPlayerProjectile {
          var p := projectiles[k];
          ghost var before := State();
          var m := |enemies|;
          var e := 0;
          while e < m
            invariant Collisions.HitEnemiesFrom(p, k, e, m, State(), draws)
                      == Collisions.HitEnemiesFrom(p, k, 0, m, before, draws)
            decreases m - e
          {
            if e < |enemies| {
              HitEnemy(p, k, e, draws);
            }
            e := e + 1;
          }
        }
        k := k + 1;
      }
    }

    /** Enemy projectile p, read at index k, against the ship at index i. */
    method HitShip(p: Projectile, k: nat, i: nat)
      requires i < |ships|
      modifies this
      ensures State() == Collisions.ShotVisit(p, k, i, old(State()))
    {
      var ship := ships[i];
      if !ship.isPlayer {
        return;
      }
      if Collisions.Overlap(p.position, Collisions.ProjectileRadius, ship.position, Collisions.ShipRadius) {
        var damage := Collisions.ShotDamage;
        if ship.shield > 0.0 {
          ship := ship.(shield := Max(0.0, ship.shield - damage));
        } else {
          ship := ship.(health := Max(0.0, ship.health - damage));
        }
        ships := ships[i := ship];
        PushSparks(ship.position, Collisions.SparksPerHit, 0.5);
        projectiles := Splice(projectiles, k);
      }
    }

    /** The inner loop of the second pass: projectile p, read at index k, against every ship. */
    method HitShips(p: Projectile, k: nat)
      modifies this
      ensures State() == Collisions.ShotShipsFrom(p, k, 0, old(|ships|), old(State()))
    {
      var m := |ships|;
      var i := 0;
      while i < m
        invariant Collisions.ShotShipsFrom(p, k, i, m, State()) == Collisions.ShotShipsFrom(p, k, 0, m, old(State()))
        decreases m - i
      {
        if i < |ships| {
          HitShip(p, k, i);
        }
        i := i + 1;
      }
    }

    /** Second pass: enemy projectiles against player ships. */
    method ResolveEnemyShots()
      modifies this
      ensures State() == Collisions.EnemyShots(old(State()))
    {
      var n := |projectiles|;
      var k := 0;
      while k < n
        invariant Collisions.EnemyShotsFrom(k, n, State()) == Collisions.EnemyShots(old(State()))
        decreases n - k
      {
        if k < |projectiles| && !projectiles[k].isPlayerProjectile {
          HitShips(projectiles[k], k);
        }
        k := k + 1;
      }
    }

    /** The enemy at index j against the ship at index i: contact damage and push-back. */
    method Ram(j: nat, i: nat, maths: Maths)
      requires j < |enemies| && i < |ships|
      modifies this
      ensures State() == Collisions.ContactVisit(j, i, old(State()), maths)
    {
      var enemy := enemies[j];
      var ship := ships[i];
      if !ship.isPlayer {
        return;
      }
      if Collisions.Overlap(enemy.position, Collisions.EnemyRadius, ship.position, Collisions.ShipRadius) {
        var damage := Collisions.ContactDamage;
        if ship.shield > 0.0 {
          ship := ship.(shield := Max(0.0, ship.shield - damage));
        } else {
          ship := ship.(health := Max(0.0, ship.health - damage));
        }
        ships := ships[i := ship];
        var dx := enemy.position.x - ship.position.x;
        var dy := enemy.position.y - ship.position.y;
        if Dist2(enemy.position, ship.position) > 0.0 {
          var push := Scale(maths.direction(dx, dy), Collisions.PushBack);
          enemies := enemies[j := enemy.(position := Vec(enemy.position.x + push.x, enemy.position.y + push.y))];
        }
        PushSparks(ship.position, Collisions.SparksPerHit, 0.5);
      }
    }

    /** The inner loop of the third pass: the enemy at index j against every ship. */
    method RamShips(j: nat, maths: Maths)
      requires j < |enemies|
      modifies this
      ensures State() == Collisions.ContactShipsFrom(j, 0, old(|ships|), old(State()), maths)
    {
      var m := |ships|;
      var i := 0;
      while i < m
        invariant |enemies| == old(|enemies|)
        invariant Collisions.ContactShipsFrom(j, i, m, State(), maths)
                  == Collisions.ContactShipsFrom(j, 0, m, old(State()), maths)
        decreases m - i
      {
        if i < |ships| {
          Ram(j, i, maths);
        }
        i := i + 1;
      }
    }

    /** Third pass: every enemy against every player ship. */
    method ResolveContacts(maths: Maths)
      modifies this
      ensures State() == Collisions.Contacts(old(State()), maths)
    {
      var n := |enemies|;
      var j := 0;
      while j < n
        invariant Collisions.ContactsFrom(j, n, State(), maths) == Collisions.Contacts(old(State()), maths)
        decreases n - j
      {
        if j < |enemies| {
          RamShips(j, maths);
        }
        j := j + 1;
      }
    }

    /** Power-up u, read at index k, against the ship at index i. */
    method PickUp(u: PowerUp, k: nat, i: nat)
      requires i < |ships|
      modifies this
      ensures State() == Collisions.PickupVisit(u, k, i, old(State()))
    {
      var ship := ships[i];
      if !ship.isPlayer {
        return;
      }
      if Collisions.Overlap(u.position, Collisions.PowerUpRadius, ship.position, Collisions.ShipRadius) {
        ships := ships[i := Collisions.ApplyPowerUp(ship, u.kind)];
        powerUps := Splice(powerUps, k);
      }
    }

    /** The inner loop of the fourth pass: power-up u, read at index k, against every ship. */
    method PickUpAll(u: PowerUp, k: nat)
      modifies this
      ensures State() == Collisions.PickupShipsFrom(u, k, 0, old(|ships|), old(State()))
    {
      var m := |ships|;
      var i := 0;
      while i < m
        invariant Collisions.PickupShipsFrom(u, k, i, m, State()) == Collisions.PickupShipsFrom(u, k, 0, m, old(State()))
        decreases m - i
      {
        if i < |ships| {
          PickUp(u, k, i);
        }
        i := i + 1;
      }
    }

    /** Fourth pass: power-ups against player ships. */
    method ResolvePickups()
      modifies this
      ensures State() == Collisions.Pickups(old(State()))
    {
      var n := |powerUps|;
      var k := 0;
      while k < n
        invariant Collisions.PickupsFrom(k, n, State()) == Collisions.Pickups(old(State()))
        decreases n - k
      {
        if k < |powerUps| {
          PickUpAll(powerUps[k], k);
        }
        k := k + 1;
      }
    }

    /** `checkCollisions`: the four passes in order. */
    method CheckCollisions(env: Env)
      modifies this
      ensures State() == Collisions.CheckCollisions(old(State()), env)
    {
      ResolvePlayerHits(env.draws);
      ResolveEnemyShots();
      ResolveContacts(env.maths);
      ResolvePickups();
    }

    // -------------------------------------------------------------------
    // Step 7: the spawner.
    // -------------------------------------------------------------------

    /** `spawnEnemies` and `spawnEnemy` */
    method SpawnEnemies(env: Env)
      modifies this
      ensures State() == Spawner.SpawnEnemies(old(State()), env)
    {
      var target := if 3 + wave < Spawner.MaxEnemies then 3 + wave else Spawner.MaxEnemies;
      if |enemies| < target {
        var kind := Spawner.EnemyKinds[Pick(env.draws.spawnKind, |Spawner.EnemyKinds|)];
        var side := Pick(env.draws.spawnSide, 4);
        var x, y;
        if side == 0 {
          x, y := env.draws.spawnAt * width, -50.0;
        } else if side == 1 {
          x, y := width + 50.0, env.draws.spawnAt * height;
        } else if side == 2 {
          x, y := env.draws.spawnAt * width, height + 50.0;
        } else {
          x, y := -50.0, env.draws.spawnAt * height;
        }
        var health := if kind == Heavy then 30.0 else if kind == Fast then 10.0 else 20.0;
        var points := if kind == Heavy then 30 else if kind == Shooter then 25 else if kind == Fast then 15 else 10;
        assert Vec(x, y) == Spawner.EntryPoint(side, env.draws.spawnAt, width, height);
        assert health == Spawner.StartHealth(kind) && points == Spawner.KillPoints(kind);
        enemies := enemies + [Enemy(env.clockId, Vec(x, y), Vec(0.0, 0.0), 0.0, health, health, kind, 0.0, points)];
      }
    }
  }
}
