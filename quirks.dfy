/**
 * Two consequences of removing elements with `splice` inside `forEach`,
 * shown on concrete worlds. The collision passes keep them; nothing in the
 * model consumes a projectile or a power-up after its first hit.
 */
module Quirks {
  import opened Types
  import opened Seqs
  import opened Collisions

  function Grunt(): Enemy
  {
    Enemy("e", Vec(0.0, 0.0), Vec(0.0, 0.0), 0.0, 10.0, 10.0, Basic, 0.0, 10)
  }

  /** A weak player shot at the origin, where both enemies are. */
  function Dart(): Projectile
  {
    Projectile(Vec(0.0, 0.0), Vec(0.0, 0.0), 5.0, "player1", true)
  }

  /** An enemy shot far away from everything. */
  function Stray(): Projectile
  {
    Projectile(Vec(400.0, 400.0), Vec(0.0, 0.0), 15.0, "e", false)
  }

  function Field(ships: seq<Ship>, enemies: seq<Enemy>, projectiles: seq<Projectile>, powerUps: seq<PowerUp>)
    : GameState
  {
    GameState(ships, enemies, projectiles, [], powerUps, 1, 0, SinglePlayer, Playing, 800.0, 600.0)
  }

  /**
   * One player shot overlapping two enemies hurts both. Its first hit splices
   * it out; its second hit splices index 0 again and so removes the stray
   * enemy shot, which touched nothing.
   */
  lemma SplicedShotHitsAgain(draws: Draws)
    ensures var r := PlayerHits(Field([], [Grunt(), Grunt()], [Dart(), Stray()], []), draws);
            |r.enemies| == 2 && r.enemies[0].health == 5.0 && r.enemies[1].health == 5.0
            && r.projectiles == [] && r.score == 0 && |r.particles| == 2 * SparksPerHit
  {
    var s := Field([], [Grunt(), Grunt()], [Dart(), Stray()], []);
    var hurt := Grunt().(health := 5.0);
    assert Overlap(Dart().position, ProjectileRadius, Grunt().position, EnemyRadius);
    var s1 := HitVisit(Dart(), 0, 0, s, draws);
    assert s1.enemies == [hurt, Grunt()] && s1.projectiles == [Stray()];
    var s2 := HitVisit(Dart(), 0, 1, s1, draws);
    assert s2.enemies == [hurt, hurt] && s2.projectiles == [];
    assert HitEnemiesFrom(Dart(), 0, 2, 2, s2, draws) == s2;
    assert HitEnemiesFrom(Dart(), 0, 0, 2, s, draws) == s2;
    assert PlayerHitsFrom(1, 2, s2, draws) == s2;
  }

  function Pilot(id: string): Ship
  {
    Ship(id, Vec(100.0, 100.0), Vec(0.0, 0.0), 0.0, 50.0, 100.0, 0.0, 100.0,
         Upgrades(1.0, 3.0, 1.0, 1.0, 1.0), 0.0, true, None)
  }

  /** A health pack under two ships heals both, though it is spliced at the first. */
  lemma PowerUpReachesBothShips()
    ensures var r := Pickups(Field([Pilot("player1"), Pilot("player2")], [], [],
                                   [PowerUp(Vec(100.0, 100.0), HealthPack, 1.0)]));
            |r.ships| == 2 && r.ships[0].health == 75.0 && r.ships[1].health == 75.0 && r.powerUps == []
  {
    var u := PowerUp(Vec(100.0, 100.0), HealthPack, 1.0);
    var s := Field([Pilot("player1"), Pilot("player2")], [], [], [u]);
    assert Overlap(u.position, PowerUpRadius, Pilot("player1").position, ShipRadius);
    var s1 := PickupVisit(u, 0, 0, s);
    assert s1.powerUps == [] && s1.ships[0].health == 75.0;
    var s2 := PickupVisit(u, 0, 1, s1);
    assert s2.ships[1].health == 75.0 && s2.ships[0] == s1.ships[0];
    assert PickupShipsFrom(u, 0, 2, 2, s2) == s2;
    assert PickupShipsFrom(u, 0, 0, 2, s) == s2;
    assert PickupsFrom(1, 1, s2) == s2;
  }
}
