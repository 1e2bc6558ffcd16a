/**
 * `GameEngine.update`: one tick is the seven steps in order, each working on
 * the result of the one before. The lemmas here are about the whole tick.
 */
module Engine {
  import opened Types
  import Ships
  import Enemies
  import Cleanup
  import Collisions
  import Spawner

  /** Steps 1 to 5: ships, enemies, projectiles, particles; power-ups do nothing. */
  function Move(s: GameState, env: Env, dt: real): (r: GameState)
    ensures SameSettings(s, r) && r.score == s.score
  {
    var stepped := Enemies.UpdateEnemies(Ships.UpdateShips(s, env, dt), env, dt);
    stepped.(projectiles := Cleanup.UpdateProjectiles(stepped.projectiles, dt, stepped.width, stepped.height),
             particles := Cleanup.UpdateParticles(stepped.particles, dt))
  }

  /** The whole tick: movement, then collisions, then the spawner. */
  function Tick(s: GameState, env: Env, dt: real): (r: GameState)
    // A tick never changes the wave, the mode, the status or the field's size.
    ensures SameSettings(s, r)
    // The spawner runs last, so from wave -2 on a tick never ends with no enemy.
    ensures s.wave >= -2 ==> |r.enemies| >= 1
  {
    Spawner.SpawnEnemies(Collisions.CheckCollisions(Move(s, env, dt), env), env)
  }

  /** Ships a tick does not hurt keep 0 <= health <= max and 0 <= shield <= max. */
  lemma TickKeepsShipsSound(s: GameState, env: Env, dt: real)
    requires dt >= 0.0 && Collisions.ShipsSound(s.ships)
    ensures Collisions.ShipsSound(Tick(s, env, dt).ships)
  {
    var s1 := Ships.UpdateShips(s, env, dt);
    Ships.ShipsFromSteps(0, s, env, dt);
    forall j | 0 <= j < |s1.ships|
      ensures Collisions.ShipSound(s1.ships[j])
    {
      assert s1.ships[j] == Ships.ShipStep(s.ships[j], env, dt, s.width, s.height).ship;
    }
    var m := Move(s, env, dt);
    assert m.ships == s1.ships;
    var c1 := Collisions.PlayerHits(m, env.draws);
    var c2 := Collisions.EnemyShots(c1);
    Collisions.WornKeepsSound(c1.ships, c2.ships);
    var c3 := Collisions.Contacts(c2, env.maths);
    Collisions.WornKeepsSound(c2.ships, c3.ships);
  }

  /** After a tick every controlled ship lies inside the 20-unit inset. */
  lemma TickKeepsShipsInside(s: GameState, env: Env, dt: real)
    requires s.width >= 2.0 * Ships.Inset && s.height >= 2.0 * Ships.Inset
    ensures var r := Tick(s, env, dt);
            forall j :: 0 <= j < |r.ships| && Ships.Controlled(r.ships[j]) ==>
              Ships.InInset(r.ships[j].position, r.width, r.height)
  {
    Ships.ShipsStayInside(s, env, dt);
    var m := Move(s, env, dt);
    assert m.ships == Ships.UpdateShips(s, env, dt).ships;
    var c1 := Collisions.PlayerHits(m, env.draws);
    var c2 := Collisions.EnemyShots(c1);
    var c3 := Collisions.Contacts(c2, env.maths);
    var c4 := Collisions.Pickups(c3);
    Collisions.PlacedTrans(c1.ships, c2.ships, c3.ships);
    Collisions.PlacedTrans(c1.ships, c3.ships, c4.ships);
    var r := Tick(s, env, dt);
    assert r.ships == c4.ships;
    forall j | 0 <= j < |r.ships| && Ships.Controlled(r.ships[j])
      ensures Ships.InInset(r.ships[j].position, r.width, r.height)
    {
      assert Ships.Controlled(m.ships[j]);
    }
  }

  /** With the stat table's non-negative points, a tick never lowers the score. */
  lemma TickScoreNeverFalls(s: GameState, env: Env, dt: real)
    requires Collisions.PointsNonNegative(s.enemies)
    ensures var r := Tick(s, env, dt);
            r.score >= s.score && Collisions.PointsNonNegative(r.enemies)
  {
    var m := Move(s, env, dt);
    MoveKeepsPoints(s, env, dt);
    var c1 := Collisions.PlayerHits(m, env.draws);
    var c2 := Collisions.EnemyShots(c1);
    var c3 := Collisions.Contacts(c2, env.maths);
    ContactsKeepPoints(c2, env.maths);
    var c4 := Collisions.Pickups(c3);
    assert c4 == Collisions.CheckCollisions(m, env);
    SpawnKeepsPoints(c4, env);
  }

  /** Movement changes no enemy's points. */
  lemma MoveKeepsPoints(s: GameState, env: Env, dt: real)
    requires Collisions.PointsNonNegative(s.enemies)
    ensures Collisions.PointsNonNegative(Move(s, env, dt).enemies)
  {
    var s1 := Ships.UpdateShips(s, env, dt);
    var s2 := Enemies.UpdateEnemies(s1, env, dt);
    Enemies.EnemiesFromSteps(0, s1, env, dt);
    forall j | 0 <= j < |s2.enemies|
      ensures s2.enemies[j].points >= 0
    {
      assert s2.enemies[j] == Enemies.EnemyStep(s1.enemies[j], s1.ships, env, dt, s1.width, s1.height).enemy;
    }
    assert Move(s, env, dt).enemies == s2.enemies;
  }

  /** Contacts move enemies and change nothing else about them. */
  lemma ContactsKeepPoints(s: GameState, maths: Maths)
    requires Collisions.PointsNonNegative(s.enemies)
    ensures Collisions.PointsNonNegative(Collisions.Contacts(s, maths).enemies)
  {
    var r := Collisions.Contacts(s, maths);
    forall j | 0 <= j < |r.enemies|
      ensures r.enemies[j].points >= 0
    {
      assert r.enemies[j].points == s.enemies[j].points;
    }
  }

  /** A spawned enemy's points come from the stat table. */
  lemma SpawnKeepsPoints(s: GameState, env: Env)
    requires Collisions.PointsNonNegative(s.enemies)
    ensures Collisions.PointsNonNegative(Spawner.SpawnEnemies(s, env).enemies)
  {
    var r := Spawner.SpawnEnemies(s, env);
    forall j | 0 <= j < |r.enemies|
      ensures r.enemies[j].points >= 0
    {
      if j >= |s.enemies| {
        assert r.enemies[j] == Spawner.NewEnemy(env, s.width, s.height);
      }
    }
  }
}
