/**
 * Step 6 of a tick: the four collision passes, in the source's order.
 *
 * Every pass is a `forEach` over one array with a `forEach` over another
 * inside it, and the passes remove elements with `splice` while they iterate.
 * The functions below follow `forEach` as JavaScript runs it: the length is
 * read once when the loop starts (n), index k is visited only while it is
 * still below the array's current length, and the element a callback holds
 * stays the one it read even after it has been spliced out. So a spliced
 * player projectile goes on hitting enemies, each further hit splices
 * whatever now sits at its old index, and the element after a spliced one is
 * skipped.
 */
module Collisions {
  import opened Types
  import opened Seqs

  const ProjectileRadius: real := 3.0
  const ShipRadius: real := 15.0
  const EnemyRadius: real := 15.0
  const PowerUpRadius: real := 10.0

  /** An enemy projectile always deals 10, whatever its damage field says. */
  const ShotDamage: real := 10.0
  const ContactDamage: real := 20.0
  const PushBack: real := 30.0
  const DropChance: real := 0.2

  const SparksPerHit: nat := 5
  const SparksPerExplosion: nat := 15

  /** `checkCircleCollision`, with both sides of `dist < r1 + r2` squared. */
  predicate Overlap(a: Vec, ra: real, b: Vec, rb: real)
  {
    Dist2(a, b) < (ra + rb) * (ra + rb)
  }

  /** Squaring is strictly monotone on the non-negative reals. */
  lemma SquareLess(d: real, r: real)
    requires 0.0 <= d < r
    ensures d * d < r * r
  {
    calc {
      d * d;
    <=
      d * r;
    <
      r * r;
    }
  }

  /** For radii summing to at least 0, the squared test is the distance test. */
  lemma OverlapIsDistanceTest(a: Vec, ra: real, b: Vec, rb: real, d: real)
    requires 0.0 <= d && d * d == Dist2(a, b) && 0.0 <= ra + rb
    ensures Overlap(a, ra, b, rb) <==> d < ra + rb
  {
    if d < ra + rb {
      SquareLess(d, ra + rb);
    } else if ra + rb < d {
      SquareLess(ra + rb, d);
    }
  }

  /** n sparks at `pos`; their colour, size and random spread are not modelled. */
  function Sparks(pos: Vec, n: nat, life: real): (r: seq<Particle>)
    ensures |r| == n
    ensures forall i :: 0 <= i < n ==> r[i].position == pos && r[i].life == life && r[i].maxLife == life
  {
    seq(n, _ => Particle(pos, Vec(0.0, 0.0), life, life))
  }

  /** `createHitParticles`: five sparks living half a second. */
  function HitSparks(pos: Vec): (r: seq<Particle>)
    ensures |r| == 5
    ensures forall i :: 0 <= i < |r| ==> r[i].position == pos && r[i].life == 0.5 && r[i].maxLife == 0.5
  {
    Sparks(pos, SparksPerHit, 0.5)
  }

  /** `createExplosion`: fifteen sparks living one second. */
  function Explosion(pos: Vec): (r: seq<Particle>)
    ensures |r| == 15
    ensures forall i :: 0 <= i < |r| ==> r[i].position == pos && r[i].life == 1.0 && r[i].maxLife == 1.0
  {
    Sparks(pos, SparksPerExplosion, 1.0)
  }

  /**
   * Shield-first damage: a positive shield takes the whole hit, floored at 0,
   * and nothing spills over; otherwise health takes it, floored at 0.
   */
  function TakeHit(ship: Ship, damage: real): (r: Ship)
    ensures r == ship.(shield := r.shield, health := r.health)
    ensures ship.shield > 0.0 ==>
              r.health == ship.health
              && (damage <= ship.shield ==> r.shield == ship.shield - damage)
              && (damage > ship.shield ==> r.shield == 0.0)
    ensures ship.shield <= 0.0 ==>
              r.shield == ship.shield
              && (damage <= ship.health ==> r.health == ship.health - damage)
              && (damage > ship.health ==> r.health == 0.0)
    ensures damage >= 0.0 && ship.health >= 0.0 ==> r.health <= ship.health && r.shield <= ship.shield
  {
    if ship.shield > 0.0 then ship.(shield := Max(0.0, ship.shield - damage))
    else ship.(health := Max(0.0, ship.health - damage))
  }

  /** `applyPowerUp`: each kind changes its own field and nothing else. */
  function ApplyPowerUp(ship: Ship, kind: PowerUpType): (r: Ship)
    ensures kind == HealthPack ==>
              r == ship.(health := r.health) && r.health == Min(ship.maxHealth, ship.health + 25.0)
    ensures kind == ShieldPack ==>
              r == ship.(shield := r.shield) && r.shield == Min(ship.maxShield, ship.shield + 50.0)
    ensures kind == WeaponPack ==>
              r == ship.(upgrades := r.upgrades)
              && r.upgrades == ship.upgrades.(weaponDamage := ship.upgrades.weaponDamage + 0.2)
    ensures kind == SpeedPack ==>
              r == ship.(upgrades := r.upgrades)
              && r.upgrades == ship.upgrades.(speed := ship.upgrades.speed + 0.1)
  {
    match kind
    case HealthPack => ship.(health := Min(ship.maxHealth, ship.health + 25.0))
    case ShieldPack => ship.(shield := Min(ship.maxShield, ship.shield + 50.0))
    case WeaponPack => ship.(upgrades := ship.upgrades.(weaponDamage := ship.upgrades.weaponDamage + 0.2))
    case SpeedPack => ship.(upgrades := ship.upgrades.(speed := ship.upgrades.speed + 0.1))
  }

  /** `Object.values(PowerUpType)`, in declaration order. */
  const PowerUpKinds: seq<PowerUpType> := [HealthPack, ShieldPack, WeaponPack, SpeedPack]

  /** The power-up, if any, dropped by the kill at visit (k, e). */
  function Drop(draws: Draws, k: nat, e: nat, pos: Vec): (r: seq<PowerUp>)
    ensures |r| == (if draws.dropRoll(k, e) < DropChance then 1 else 0)
    ensures |r| == 1 ==> r[0].position == pos && r[0].value == 1.0
  {
    if draws.dropRoll(k, e) < DropChance
    then [PowerUp(pos, PowerUpKinds[Pick(draws.dropKind(k, e), |PowerUpKinds|)], 1.0)]
    else []
  }

  /** Kill payouts never take score away. */
  predicate PointsNonNegative(enemies: seq<Enemy>)
  {
    forall i :: 0 <= i < |enemies| ==> enemies[i].points >= 0
  }

  /** The ship invariant: 0 <= health <= maxHealth, 0 <= shield <= maxShield. */
  predicate ShipSound(s: Ship)
  {
    0.0 <= s.health <= s.maxHealth && 0.0 <= s.shield <= s.maxShield
  }

  predicate ShipsSound(ships: seq<Ship>)
  {
    forall i :: 0 <= i < |ships| ==> ShipSound(ships[i])
  }

  /** Ship by ship, the same ships in the same places under the same controls. */
  predicate Placed(before: seq<Ship>, after: seq<Ship>)
  {
    |after| == |before|
    && forall i :: 0 <= i < |before| ==>
         after[i].id == before[i].id && after[i].isPlayer == before[i].isPlayer
         && after[i].position == before[i].position && after[i].controls == before[i].controls
  }

  /** Placed, and no ship gains health or shield. */
  predicate Worn(before: seq<Ship>, after: seq<Ship>)
  {
    Placed(before, after)
    && forall i :: 0 <= i < |before| ==>
         (ShipSound(before[i]) ==>
               ShipSound(after[i]) && after[i].health <= before[i].health
               && after[i].shield <= before[i].shield)
  }

  lemma WornKeepsSound(before: seq<Ship>, after: seq<Ship>)
    requires Worn(before, after) && ShipsSound(before)
    ensures ShipsSound(after)
  {
    forall i | 0 <= i < |after|
      ensures ShipSound(after[i])
    {
      assert ShipSound(before[i]);
    }
  }

  lemma PlacedTrans(a: seq<Ship>, b: seq<Ship>, c: seq<Ship>)
    requires Placed(a, b) && Placed(b, c)
    ensures Placed(a, c)
  {
  }

  // ---------------------------------------------------------------------
  // Pass 1: player projectiles against enemies.
  // ---------------------------------------------------------------------

  /** Projectile p, read at outer index k, meets the enemy at index e. */
  function HitVisit(p: Projectile, k: nat, e: nat, s: GameState, draws: Draws): (r: GameState)
    requires e < |s.enemies|
    ensures SameSettings(s, r) && r.ships == s.ships
    ensures !Overlap(p.position, ProjectileRadius, s.enemies[e].position, EnemyRadius) ==> r == s
    ensures var hit := Overlap(p.position, ProjectileRadius, s.enemies[e].position, EnemyRadius);
            var kill := hit && s.enemies[e].health - p.damage <= 0.0;
            && r.score == s.score + (if kill then s.enemies[e].points else 0)
            && |r.enemies| == |s.enemies| - (if kill then 1 else 0)
            && |r.projectiles| == |s.projectiles| - (if hit && k < |s.projectiles| then 1 else 0)
            && |r.particles| == |s.particles| + (if hit then SparksPerHit else 0)
                                               + (if kill then SparksPerExplosion else 0)
            && (hit && !kill ==> r.enemies[e].health == s.enemies[e].health - p.damage)
            && (kill ==> r.enemies == Splice(s.enemies, e))
    // A hit splices the projectile's own outer index k, whatever now sits there.
    ensures Overlap(p.position, ProjectileRadius, s.enemies[e].position, EnemyRadius) ==>
              r.projectiles == Splice(s.projectiles, k)
    // A hit that leaves health: only enemy e is hurt, sparks at its position, no drop.
    ensures var enemy := s.enemies[e];
            Overlap(p.position, ProjectileRadius, enemy.position, EnemyRadius)
            && enemy.health - p.damage > 0.0 ==>
              r.enemies == s.enemies[e := enemy.(health := enemy.health - p.damage)]
              && r.particles == s.particles + HitSparks(enemy.position)
              && r.powerUps == s.powerUps
    // A kill: enemy e is spliced out, sparks and an explosion, and the drawn drop.
    ensures var enemy := s.enemies[e];
            Overlap(p.position, ProjectileRadius, enemy.position, EnemyRadius)
            && enemy.health - p.damage <= 0.0 ==>
              r.particles == s.particles + HitSparks(enemy.position) + Explosion(enemy.position)
              && r.powerUps == s.powerUps + Drop(draws, k, e, enemy.position)
    ensures PointsNonNegative(s.enemies) ==> PointsNonNegative(r.enemies) && r.score >= s.score
    ensures |r.powerUps| >= |s.powerUps|
  {
    var enemy := s.enemies[e];
    if !Overlap(p.position, ProjectileRadius, enemy.position, EnemyRadius) then s
    else
      var hurt := enemy.(health := enemy.health - p.damage);
      var s1 := s.(enemies := s.enemies[e := hurt],
                   particles := s.particles + HitSparks(hurt.position),
                   projectiles := Splice(s.projectiles, k));
      if hurt.health > 0.0 then s1
      else
        s1.(score := s1.score + hurt.points,
            particles := s1.particles + Explosion(hurt.position),
            powerUps := s1.powerUps + Drop(draws, k, e, hurt.position),
            enemies := Splice(s1.enemies, e))
  }

  /** The inner loop over enemies from index e on, n being their count at its start. */
  function HitEnemiesFrom(p: Projectile, k: nat, e: nat, n: nat, s: GameState, draws: Draws): (r: GameState)
    ensures SameSettings(s, r) && r.ships == s.ships
    ensures |r.enemies| <= |s.enemies| && |r.projectiles| <= |s.projectiles|
    ensures |r.particles| >= |s.particles| && |r.powerUps| >= |s.powerUps|
    ensures PointsNonNegative(s.enemies) ==> PointsNonNegative(r.enemies) && r.score >= s.score
    decreases n - e
  {
    if e >= n then s
    else if e >= |s.enemies| then HitEnemiesFrom(p, k, e + 1, n, s, draws)
    else HitEnemiesFrom(p, k, e + 1, n, HitVisit(p, k, e, s, draws), draws)
  }

  /** The outer loop over projectiles from index k on, n being their count at its start. */
  function PlayerHitsFrom(k: nat, n: nat, s: GameState, draws: Draws): (r: GameState)
    ensures SameSettings(s, r) && r.ships == s.ships
    ensures |r.enemies| <= |s.enemies| && |r.projectiles| <= |s.projectiles|
    ensures |r.particles| >= |s.particles| && |r.powerUps| >= |s.powerUps|
    ensures PointsNonNegative(s.enemies) ==> PointsNonNegative(r.enemies) && r.score >= s.score
    decreases n - k
  {
    if k >= n then s
    else if k >= |s.projectiles| || !s.projectiles[k].isPlayerProjectile
    then PlayerHitsFrom(k + 1, n, s, draws)
    else
      var p := s.projectiles[k];
      PlayerHitsFrom(k + 1, n, HitEnemiesFrom(p, k, 0, |s.enemies|, s, draws), draws)
  }

  /** Pass 1 over every projectile present when it starts. */
  function PlayerHits(s: GameState, draws: Draws): (r: GameState)
    ensures SameSettings(s, r) && r.ships == s.ships
    ensures |r.enemies| <= |s.enemies| && |r.projectiles| <= |s.projectiles|
    ensures |r.particles| >= |s.particles| && |r.powerUps| >= |s.powerUps|
    ensures PointsNonNegative(s.enemies) ==> PointsNonNegative(r.enemies) && r.score >= s.score
  {
    PlayerHitsFrom(0, |s.projectiles|, s, draws)
  }

  // ---------------------------------------------------------------------
  // Pass 2: enemy projectiles against player ships.
  // ---------------------------------------------------------------------

  /** Enemy projectile p, read at outer index k, meets the ship at index i. */
  function ShotVisit(p: Projectile, k: nat, i: nat, s: GameState): (r: GameState)
    requires i < |s.ships|
    ensures SameSettings(s, r) && r.score == s.score && r.enemies == s.enemies && r.powerUps == s.powerUps
    ensures var hit := s.ships[i].isPlayer
                       && Overlap(p.position, ProjectileRadius, s.ships[i].position, ShipRadius);
            && r.ships == s.ships[i := if hit then TakeHit(s.ships[i], ShotDamage) else s.ships[i]]
            && |r.projectiles| == |s.projectiles| - (if hit && k < |s.projectiles| then 1 else 0)
            && |r.particles| == |s.particles| + (if hit then SparksPerHit else 0)
    // A hit splices the outer index k and sparks at the ship; a miss changes nothing.
    ensures var hit := s.ships[i].isPlayer
                       && Overlap(p.position, ProjectileRadius, s.ships[i].position, ShipRadius);
            && r.projectiles == (if hit then Splice(s.projectiles, k) else s.projectiles)
            && r.particles == s.particles + (if hit then HitSparks(s.ships[i].position) else [])
            && (!hit ==> r == s)
    ensures Worn(s.ships, r.ships)
  {
    var ship := s.ships[i];
    if !ship.isPlayer || !Overlap(p.position, ProjectileRadius, ship.position, ShipRadius) then s
    else
      s.(ships := s.ships[i := TakeHit(ship, ShotDamage)],
         particles := s.particles + HitSparks(ship.position),
         projectiles := Splice(s.projectiles, k))
  }

  function ShotShipsFrom(p: Projectile, k: nat, i: nat, n: nat, s: GameState): (r: GameState)
    ensures SameSettings(s, r) && r.score == s.score && r.enemies == s.enemies && r.powerUps == s.powerUps
    ensures Worn(s.ships, r.ships) && |r.projectiles| <= |s.projectiles|
    decreases n - i
  {
    if i >= n then s
    else if i >= |s.ships| then ShotShipsFrom(p, k, i + 1, n, s)
    else ShotShipsFrom(p, k, i + 1, n, ShotVisit(p, k, i, s))
  }

  function EnemyShotsFrom(k: nat, n: nat, s: GameState): (r: GameState)
    ensures SameSettings(s, r) && r.score == s.score && r.enemies == s.enemies && r.powerUps == s.powerUps
    ensures Worn(s.ships, r.ships) && |r.projectiles| <= |s.projectiles|
    decreases n - k
  {
    if k >= n then s
    else if k >= |s.projectiles| || s.projectiles[k].isPlayerProjectile
    then EnemyShotsFrom(k + 1, n, s)
    else EnemyShotsFrom(k + 1, n, ShotShipsFrom(s.projectiles[k], k, 0, |s.ships|, s))
  }

  /** Pass 2 over every projectile present when it starts. */
  function EnemyShots(s: GameState): (r: GameState)
    ensures SameSettings(s, r) && r.score == s.score && r.enemies == s.enemies && r.powerUps == s.powerUps
    ensures Worn(s.ships, r.ships) && |r.projectiles| <= |s.projectiles|
  {
    EnemyShotsFrom(0, |s.projectiles|, s)
  }

  // ---------------------------------------------------------------------
  // Pass 3: enemies ramming player ships.
  // ---------------------------------------------------------------------

  /** The enemy at index j meets the ship at index i; no cooldown, no removal. */
  function ContactVisit(j: nat, i: nat, s: GameState, maths: Maths): (r: GameState)
    requires j < |s.enemies| && i < |s.ships|
    ensures SameSettings(s, r) && r.score == s.score && r.projectiles == s.projectiles
    ensures r.powerUps == s.powerUps
    ensures var hit := s.ships[i].isPlayer
                       && Overlap(s.enemies[j].position, EnemyRadius, s.ships[i].position, ShipRadius);
            && r.ships == s.ships[i := if hit then TakeHit(s.ships[i], ContactDamage) else s.ships[i]]
            && |r.particles| == |s.particles| + (if hit then SparksPerHit else 0)
            && |r.enemies| == |s.enemies|
            && r.enemies[j] == s.enemies[j].(position := r.enemies[j].position)
            && r.enemies == s.enemies[j := r.enemies[j]]
    // A miss changes nothing; a hit sparks at the ship and pushes the enemy
    // PushBack units away from it, unless the two centres coincide.
    ensures var hit := s.ships[i].isPlayer
                       && Overlap(s.enemies[j].position, EnemyRadius, s.ships[i].position, ShipRadius);
            && (!hit ==> r == s)
            && r.particles == s.particles + (if hit then HitSparks(s.ships[i].position) else [])
            && (hit && Dist2(s.enemies[j].position, s.ships[i].position) == 0.0 ==> r.enemies == s.enemies)
    ensures var e := s.enemies[j];
            var ship := s.ships[i];
            ship.isPlayer && Overlap(e.position, EnemyRadius, ship.position, ShipRadius)
            && Dist2(e.position, ship.position) > 0.0 ==>
              r.enemies[j].position
                == Add(e.position, Scale(maths.direction(e.position.x - ship.position.x,
                                                         e.position.y - ship.position.y), PushBack))
    ensures Worn(s.ships, r.ships)
  {
    var enemy := s.enemies[j];
    var ship := s.ships[i];
    if !ship.isPlayer || !Overlap(enemy.position, EnemyRadius, ship.position, ShipRadius) then s
    else
      var dx := enemy.position.x - ship.position.x;
      var dy := enemy.position.y - ship.position.y;
      var pushed := if Dist2(enemy.position, ship.position) > 0.0
                    then enemy.(position := Add(enemy.position, Scale(maths.direction(dx, dy), PushBack)))
                    else enemy;
      s.(ships := s.ships[i := TakeHit(ship, ContactDamage)],
         enemies := s.enemies[j := pushed],
         particles := s.particles + HitSparks(ship.position))
  }

  function ContactShipsFrom(j: nat, i: nat, n: nat, s: GameState, maths: Maths): (r: GameState)
    requires j < |s.enemies|
    ensures SameSettings(s, r) && r.score == s.score && r.projectiles == s.projectiles
    ensures r.powerUps == s.powerUps && |r.enemies| == |s.enemies| && Worn(s.ships, r.ships)
    ensures forall m :: 0 <= m < |s.enemies| ==>
              r.enemies[m] == s.enemies[m].(position := r.enemies[m].position)
    decreases n - i
  {
    if i >= n then s
    else if i >= |s.ships| then ContactShipsFrom(j, i + 1, n, s, maths)
    else ContactShipsFrom(j, i + 1, n, ContactVisit(j, i, s, maths), maths)
  }

  function ContactsFrom(j: nat, n: nat, s: GameState, maths: Maths): (r: GameState)
    ensures SameSettings(s, r) && r.score == s.score && r.projectiles == s.projectiles
    ensures r.powerUps == s.powerUps && |r.enemies| == |s.enemies| && Worn(s.ships, r.ships)
    ensures forall m :: 0 <= m < |s.enemies| ==>
              r.enemies[m] == s.enemies[m].(position := r.enemies[m].position)
    decreases n - j
  {
    if j >= n then s
    else if j >= |s.enemies| then ContactsFrom(j + 1, n, s, maths)
    else ContactsFrom(j + 1, n, ContactShipsFrom(j, 0, |s.ships|, s, maths), maths)
  }

  /** Pass 3 over every enemy present when it starts. */
  function Contacts(s: GameState, maths: Maths): (r: GameState)
    ensures SameSettings(s, r) && r.score == s.score && r.projectiles == s.projectiles
    ensures r.powerUps == s.powerUps && |r.enemies| == |s.enemies| && Worn(s.ships, r.ships)
    ensures forall m :: 0 <= m < |s.enemies| ==>
              r.enemies[m] == s.enemies[m].(position := r.enemies[m].position)
  {
    ContactsFrom(0, |s.enemies|, s, maths)
  }

  // ---------------------------------------------------------------------
  // Pass 4: power-ups against player ships.
  // ---------------------------------------------------------------------

  /** Power-up u, read at outer index k, meets the ship at index i. */
  function PickupVisit(u: PowerUp, k: nat, i: nat, s: GameState): (r: GameState)
    requires i < |s.ships|
    ensures SameSettings(s, r) && r.score == s.score && r.enemies == s.enemies
    ensures r.projectiles == s.projectiles && r.particles == s.particles
    ensures var hit := s.ships[i].isPlayer
                       && Overlap(u.position, PowerUpRadius, s.ships[i].position, ShipRadius);
            && r.ships == s.ships[i := if hit then ApplyPowerUp(s.ships[i], u.kind) else s.ships[i]]
            && |r.powerUps| == |s.powerUps| - (if hit && k < |s.powerUps| then 1 else 0)
    // A pick-up splices the outer index k; a miss changes nothing.
    ensures var hit := s.ships[i].isPlayer
                       && Overlap(u.position, PowerUpRadius, s.ships[i].position, ShipRadius);
            && r.powerUps == (if hit then Splice(s.powerUps, k) else s.powerUps)
            && (!hit ==> r == s)
    ensures ShipsSound(s.ships) ==> ShipsSound(r.ships)
    ensures Placed(s.ships, r.ships)
  {
    var ship := s.ships[i];
    if !ship.isPlayer || !Overlap(u.position, PowerUpRadius, ship.position, ShipRadius) then s
    else
      s.(ships := s.ships[i := ApplyPowerUp(ship, u.kind)],
         powerUps := Splice(s.powerUps, k))
  }

  function PickupShipsFrom(u: PowerUp, k: nat, i: nat, n: nat, s: GameState): (r: GameState)
    ensures SameSettings(s, r) && r.score == s.score && r.enemies == s.enemies
    ensures r.projectiles == s.projectiles && r.particles == s.particles
    ensures |r.ships| == |s.ships| && |r.powerUps| <= |s.powerUps|
    ensures ShipsSound(s.ships) ==> ShipsSound(r.ships)
    ensures Placed(s.ships, r.ships)
    decreases n - i
  {
    if i >= n then s
    else if i >= |s.ships| then PickupShipsFrom(u, k, i + 1, n, s)
    else PickupShipsFrom(u, k, i + 1, n, PickupVisit(u, k, i, s))
  }

  function PickupsFrom(k: nat, n: nat, s: GameState): (r: GameState)
    ensures SameSettings(s, r) && r.score == s.score && r.enemies == s.enemies
    ensures r.projectiles == s.projectiles && r.particles == s.particles
    ensures |r.ships| == |s.ships| && |r.powerUps| <= |s.powerUps|
    ensures ShipsSound(s.ships) ==> ShipsSound(r.ships)
    ensures Placed(s.ships, r.ships)
    decreases n - k
  {
    if k >= n then s
    else if k >= |s.powerUps| then PickupsFrom(k + 1, n, s)
    else PickupsFrom(k + 1, n, PickupShipsFrom(s.powerUps[k], k, 0, |s.ships|, s))
  }

  /** Pass 4 over every power-up present when it starts. */
  function Pickups(s: GameState): (r: GameState)
    ensures SameSettings(s, r) && r.score == s.score && r.enemies == s.enemies
    ensures r.projectiles == s.projectiles && r.particles == s.particles
    ensures |r.ships| == |s.ships| && |r.powerUps| <= |s.powerUps|
    ensures ShipsSound(s.ships) ==> ShipsSound(r.ships)
    ensures Placed(s.ships, r.ships)
  {
    PickupsFrom(0, |s.powerUps|, s)
  }

  /** `checkCollisions`: the four passes in order. */
  function CheckCollisions(s: GameState, env: Env): (r: GameState)
    // The ships keep their places and soundness; with non-negative points the
    // score never falls; no enemy is added.
    ensures SameSettings(s, r) && Placed(s.ships, r.ships)
    ensures ShipsSound(s.ships) ==> ShipsSound(r.ships)
    ensures |r.enemies| <= |s.enemies|
    ensures PointsNonNegative(s.enemies) ==> r.score >= s.score
  {
    var c1 := PlayerHits(s, env.draws);
    var c2 := EnemyShots(c1);
    var c3 := Contacts(c2, env.maths);
    var r := Pickups(c3);
    PlacedTrans(c1.ships, c2.ships, c3.ships);
    PlacedTrans(c1.ships, c3.ships, r.ships);
    if ShipsSound(s.ships) then
      WornKeepsSound(c1.ships, c2.ships);
      WornKeepsSound(c2.ships, c3.ships);
      r
    else r
  }
}
