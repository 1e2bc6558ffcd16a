/**
 * Step 1 of a tick: every player ship that has controls turns its input into
 * thrust, moves, is held 20 units inside the playfield, faces the pointer
 * (player 1), fires when its button is held and its cooldown has run out,
 * and regenerates its shield.
 */
module Ships {
  import opened Types

  /** Ships are held this far inside every edge of the playfield. */
  const Inset: real := 20.0

  predicate InInset(p: Vec, width: real, height: real)
  {
    Inset <= p.x <= width - Inset && Inset <= p.y <= height - Inset
  }

  /** The ship moves and shoots under this tick's input. */
  predicate Controlled(s: Ship)
  {
    s.isPlayer && s.controls.Some?
  }

  /** Player 1 fires with the mouse button, player 2 with its shoot key. */
  predicate FireHeld(c: Controls, input: Input)
  {
    (c.playerId == 1 && input.mousePressed) || (c.playerId == 2 && c.keys.shoot in input.keys)
  }

  /**
   * `now - lastShotTime > 1000 / fireRate`. A zero fire rate divides to
   * +Infinity, which no difference exceeds.
   */
  predicate CooledDown(now: real, lastShotTime: real, fireRate: real)
  {
    fireRate != 0.0 && now - lastShotTime > 1000.0 / fireRate
  }

  /** `Math.max(lo, Math.min(hi, v))` */
  function Clamp(v: real, lo: real, hi: real): (r: real)
    ensures lo <= hi ==> lo <= r <= hi
    ensures lo <= v <= hi ==> r == v
  {
    Max(lo, Min(hi, v))
  }

  /** Acceleration from the held direction keys, `speed` along each axis pressed. */
  function Thrust(keys: set<string>, k: KeyMap, speed: real): (a: Vec)
    // Each held key pushes along its axis; opposite keys cancel.
    ensures a.x == (if k.right in keys then speed else 0.0) - (if k.left in keys then speed else 0.0)
    ensures a.y == (if k.down in keys then speed else 0.0) - (if k.up in keys then speed else 0.0)
  {
    var ay := if k.up in keys then 0.0 - speed else 0.0;
    var ay' := if k.down in keys then ay + speed else ay;
    var ax := if k.left in keys then 0.0 - speed else 0.0;
    var ax' := if k.right in keys then ax + speed else ax;
    Vec(ax', ay')
  }

  /** The projectile a ship fires: from its position, along its facing, at 500 units/s. */
  function PlayerShot(s: Ship, maths: Maths): (p: Projectile)
    ensures p.isPlayerProjectile && p.ownerId == s.id && p.position == s.position
    ensures p.damage == s.upgrades.weaponDamage * 10.0
  {
    Projectile(s.position,
               Vec(maths.cos(s.rotation) * 500.0, maths.sin(s.rotation) * 500.0),
               s.upgrades.weaponDamage * 10.0, s.id, true)
  }

  /** A ship after its step, and the projectile it fired, if any. */
  datatype Fired = Fired(ship: Ship, shot: Option<Projectile>) {
    /** The shot as the list of projectiles pushed. */
    function Shot(): seq<Projectile> { if shot.Some? then [shot.value] else [] }
  }

  /**
   * The movement half of a ship's step: thrust from the held keys, damping by
   * 0.9, integration, the clamp to the inset and, for player 1, turning to
   * face the pointer.
   */
  function Fly(s: Ship, c: Controls, env: Env, dt: real, width: real, height: real): (r: Ship)
    ensures width >= 2.0 * Inset && height >= 2.0 * Inset ==> InInset(r.position, width, height)
    ensures r == s.(velocity := r.velocity, position := r.position, rotation := r.rotation)
    ensures c.playerId != 1 ==> r.rotation == s.rotation
  {
    var a := Thrust(env.input.keys, c.keys, s.upgrades.speed * 200.0);
    var v := Scale(Add(s.velocity, Scale(a, dt)), 0.9);
    var p := Add(s.position, Scale(v, dt));
    var pos := Vec(Clamp(p.x, Inset, width - Inset), Clamp(p.y, Inset, height - Inset));
    var rot := if c.playerId == 1
               then env.maths.atan2(env.input.mouse.y - pos.y, env.input.mouse.x - pos.x)
               else s.rotation;
    s.(velocity := v, position := pos, rotation := rot)
  }

  /** Regeneration at 20 per second while below the maximum, capped at it. */
  function Regenerate(shield: real, maxShield: real, dt: real): (r: real)
    ensures shield <= maxShield ==> r <= maxShield
    ensures dt >= 0.0 ==> r >= shield
    ensures shield >= maxShield ==> r == shield
  {
    if shield < maxShield then Min(maxShield, shield + 20.0 * dt) else shield
  }

  /** One ship's step. */
  function ShipStep(s: Ship, env: Env, dt: real, width: real, height: real): (r: Fired)
    // Non-player ships and ships without controls are left alone.
    ensures !Controlled(s) ==> r == Fired(s, None)
    // A controlled ship ends inside the 20-unit inset.
    ensures Controlled(s) && width >= 2.0 * Inset && height >= 2.0 * Inset
            ==> InInset(r.ship.position, width, height)
    // It fires exactly when its button is held and its cooldown has run out.
    ensures Controlled(s) ==>
              (r.shot.Some? <==> FireHeld(s.controls.value, env.input)
                                 && CooledDown(env.now, s.lastShotTime, s.upgrades.fireRate))
    ensures r.shot.Some? ==> r.shot.value.isPlayerProjectile && r.shot.value.ownerId == s.id
                             && r.shot.value.damage == s.upgrades.weaponDamage * 10.0
                             && r.shot.value.position == r.ship.position
                             && r.ship.lastShotTime == env.now
    ensures r.shot.None? ==> r.ship.lastShotTime == s.lastShotTime
    // Regeneration never lifts the shield past its maximum, nor lowers it.
    ensures s.shield <= s.maxShield ==> r.ship.shield <= s.maxShield
    ensures dt >= 0.0 ==> r.ship.shield >= s.shield
    // Nothing else about the ship changes.
    ensures r.ship.id == s.id && r.ship.isPlayer == s.isPlayer && r.ship.controls == s.controls
    ensures r.ship.health == s.health && r.ship.maxHealth == s.maxHealth
    ensures r.ship.maxShield == s.maxShield && r.ship.upgrades == s.upgrades
  {
    if !Controlled(s) then Fired(s, None)
    else
      var c := s.controls.value;
      var moved := Fly(s, c, env, dt, width, height);
      var fire := FireHeld(c, env.input) && CooledDown(env.now, s.lastShotTime, s.upgrades.fireRate);
      var shot := if fire then Some(PlayerShot(moved, env.maths)) else None;
      var fired := if fire then moved.(lastShotTime := env.now) else moved;
      Fired(fired.(shield := Regenerate(fired.shield, fired.maxShield, dt)), shot)
  }

  /** The projectiles fired by a run of ships, in ship order. */
  function Shots(ships: seq<Ship>, env: Env, dt: real, width: real, height: real): seq<Projectile>
  {
    if ships == [] then []
    else
      ShipStep(ships[0], env, dt, width, height).Shot() + Shots(ships[1..], env, dt, width, height)
  }

  /** The visit of ship i: it is stepped in place and its shot is pushed. */
  function ShipAt(i: nat, s: GameState, env: Env, dt: real): GameState
    requires i < |s.ships|
  {
    var out := ShipStep(s.ships[i], env, dt, s.width, s.height);
    s.(ships := s.ships[i := out.ship], projectiles := s.projectiles + out.Shot())
  }

  /** The ship loop from index i on. */
  function ShipsFrom(i: nat, s: GameState, env: Env, dt: real): (r: GameState)
    ensures SameSettings(s, r) && r.score == s.score
    ensures r.enemies == s.enemies && r.particles == s.particles && r.powerUps == s.powerUps
    ensures |r.ships| == |s.ships|
    ensures forall j :: 0 <= j < i && j < |s.ships| ==> r.ships[j] == s.ships[j]
    decreases |s.ships| - i
  {
    if i >= |s.ships| then s
    else ShipsFrom(i + 1, ShipAt(i, s, env, dt), env, dt)
  }

  /** The ship loop steps every ship from i on in place. */
  lemma {:induction false} ShipsFromSteps(i: nat, s: GameState, env: Env, dt: real)
    requires i <= |s.ships|
    ensures var r := ShipsFrom(i, s, env, dt);
            forall j :: i <= j < |s.ships| ==>
              r.ships[j] == ShipStep(s.ships[j], env, dt, s.width, s.height).ship
    decreases |s.ships| - i
  {
    if i < |s.ships| {
      var s' := ShipAt(i, s, env, dt);
      assert ShipsFrom(i, s, env, dt) == ShipsFrom(i + 1, s', env, dt);
      assert s'.ships == s.ships[i := ShipStep(s.ships[i], env, dt, s.width, s.height).ship];
      ShipsFromSteps(i + 1, s', env, dt);
    }
  }

  /** The ship loop appends the shots of the ships from i on, in ship order. */
  lemma {:induction false} ShipsFromShots(i: nat, s: GameState, env: Env, dt: real)
    requires i <= |s.ships|
    ensures ShipsFrom(i, s, env, dt).projectiles == s.projectiles + Shots(s.ships[i..], env, dt, s.width, s.height)
    decreases |s.ships| - i
  {
    if i == |s.ships| {
      assert s.ships[i..] == [];
    } else {
      var s' := ShipAt(i, s, env, dt);
      assert ShipsFrom(i, s, env, dt) == ShipsFrom(i + 1, s', env, dt);
      assert s'.ships[i + 1..] == s.ships[i + 1..];
      ShipsFromShots(i + 1, s', env, dt);
      ShotsConsAt(s.ships, i, env, dt, s.width, s.height);
    }
  }

  /** Peeling the first ship off a suffix of the list of shots. */
  lemma ShotsConsAt(ships: seq<Ship>, i: nat, env: Env, dt: real, width: real, height: real)
    requires i < |ships|
    ensures Shots(ships[i..], env, dt, width, height)
            == ShipStep(ships[i], env, dt, width, height).Shot() + Shots(ships[i + 1..], env, dt, width, height)
  {
    assert ships[i..][0] == ships[i] && ships[i..][1..] == ships[i + 1..];
  }

  /** The whole ship step: every ship stepped in order, shots appended in that order. */
  function UpdateShips(s: GameState, env: Env, dt: real): (r: GameState)
    ensures SameSettings(s, r) && r.score == s.score
    ensures r.enemies == s.enemies && r.particles == s.particles && r.powerUps == s.powerUps
    ensures |r.ships| == |s.ships|
    ensures forall j :: 0 <= j < |s.ships| ==> r.ships[j] == ShipStep(s.ships[j], env, dt, s.width, s.height).ship
    ensures r.projectiles == s.projectiles + Shots(s.ships, env, dt, s.width, s.height)
  {
    ShipsFromSteps(0, s, env, dt);
    ShipsFromShots(0, s, env, dt);
    assert s.ships[0..] == s.ships;
    ShipsFrom(0, s, env, dt)
  }

  /** After the ship step every controlled ship lies inside the 20-unit inset. */
  lemma ShipsStayInside(s: GameState, env: Env, dt: real)
    requires s.width >= 2.0 * Inset && s.height >= 2.0 * Inset
    ensures var r := UpdateShips(s, env, dt);
            forall j :: 0 <= j < |r.ships| && Controlled(r.ships[j]) ==>
              InInset(r.ships[j].position, r.width, r.height)
  {
    var r := UpdateShips(s, env, dt);
    ShipsFromSteps(0, s, env, dt);
    forall j | 0 <= j < |r.ships| && Controlled(r.ships[j])
      ensures InInset(r.ships[j].position, r.width, r.height)
    {
      assert r.ships[j] == ShipStep(s.ships[j], env, dt, s.width, s.height).ship;
    }
  }
}
