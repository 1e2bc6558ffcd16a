# Space shooter: the engine tick and its controllers, in Dafny

This project models the game core of a browser space shooter:

- `GameEngine.update`: one tick of the world, made of seven steps in order:
  1. player ships move, are clamped to a 20-unit inset, fire and regenerate their shields;
  2. enemies chase the nearest player ship, shooters fire, and enemies wrap around the field;
  3. projectiles move and leave the field;
  4. particles age;
  5. power-ups do nothing;
  6. four collision passes run;
  7. the spawner tops the wave up.
- The status decision `gameLoop` takes after every tick (wave complete, game over, best score), and the ships a new game starts with.
- The application controller: the game-status state machine, upgrade-point accounting and the upgrade purchase rule.

Modules, one per file:

| file | module | what it holds |
|---|---|---|
| types.dfy | Types | the records and enums of the game, and `Env`: everything a tick reads from outside (input snapshot, clock, random draws, trigonometry) |
| seqs.dfy | Seqs | `splice(i, 1)` and `filter` on sequences |
| ships.dfy | Ships | step 1 as functions |
| enemies.dfy | Enemies | step 2, including `findNearestPlayer` |
| cleanup.dfy | Cleanup | steps 3 and 4 |
| collisions.dfy | Collisions | step 6: the four passes with the exact `forEach`/`splice` behaviour |
| spawner.dfy | Spawner | step 7 and the enemy stat table |
| engine.dfy | Engine | the whole tick `Tick`, and lemmas about it |
| world.dfy | World | `class GameEngine`: the same tick as imperative methods over fields, each proved equal to its specification function |
| canvas.dfy | Canvas | the post-tick decision, the frame loop class and `createInitialShips` |
| quirks.dfy | Quirks | two concrete worlds that show the `splice`-in-`forEach` consequences |
| app.dfy | App | the controller class, the purchase rule and lemmas about points |

The engine works in place. Its `forEach` loops mutate ships and enemies and push or splice the shared arrays. So `World.GameEngine` keeps the world in fields, and each sub-step is a method with index loops. Each method's postcondition ties the new state to a function in the value-level modules, for example `State() == Collisions.PlayerHits(old(State()), draws)`. The properties of the game are then proved about those functions.

Collision loops follow JavaScript `forEach` exactly:

- the length is read once at the start;
- index k is visited only while it is below the array's current length;
- a callback keeps the element it read even after that element has been spliced out.

A spliced player projectile therefore keeps hitting enemies. Each further hit splices whatever now sits at the projectile's old index. A power-up under two ships reaches both. The model keeps these behaviours, and `Quirks` exhibits both of them.

Distances are compared squared: `dist < r1 + r2` becomes `dx² + dy² < (r1 + r2)²`. `Collisions.OverlapIsDistanceTest` proves the two tests agree whenever the radii sum is non-negative. Coordinates, health and times are `real`.

## Model

| member | source | states |
|---|---|---|
| Seqs.Splice | src/lib/gameEngine.ts:196 | `splice(i, 1)`: one element fewer when i is in range, the prefix kept, the rest shifted left by one; nothing removed at or past the end |
| Seqs.FilterKeepsExactly | src/lib/gameEngine.ts:160-167 | an element is in the filtered list exactly when it was in the list and passes the test |
| Seqs.FilterConcat | src/lib/gameEngine.ts:160-167 | filtering distributes over concatenation, so survivors keep their relative order |
| Ships.Clamp | src/lib/gameEngine.ts:86-87 | the clamped value lies in [lo, hi] when lo <= hi, and a value already inside is unchanged |
| Ships.Thrust | src/lib/gameEngine.ts:66-71 | each held direction key adds the speed along its axis, so opposite keys cancel and no key gives zero thrust |
| Ships.PlayerShot | src/lib/gameEngine.ts:304-319 | a player projectile starts at the ship's position, with owner = ship id and damage = weaponDamage x 10 |
| Ships.Fly | src/lib/gameEngine.ts:64-95 | after thrust, damping and integration, the ship lies inside the 20-unit inset when the field is at least 40 x 40; only velocity, position and rotation change, and only player 1 turns |
| Ships.Regenerate | src/lib/gameEngine.ts:114-117 | regeneration never lifts the shield past its maximum or lowers it, and leaves a full shield alone |
| Ships.ShipStep | src/lib/gameEngine.ts:58-118 | non-player ships and ships without controls are untouched; a controlled ship ends in the inset; it fires iff its button is held and `now - lastShotTime > 1000 / fireRate`; a shot carries the ship's id and weaponDamage x 10 and sets lastShotTime to now; shield bounded by its max and non-decreasing; identity, health and upgrades unchanged |
| Ships.ShipsFrom | src/lib/gameEngine.ts:57-119 | the ship loop keeps the number of ships, leaves the ships before the loop index alone, and changes neither score, settings, enemies, particles nor power-ups |
| Ships.ShipsFromSteps | src/lib/gameEngine.ts:57-118 | after the loop every ship from the start index on is that ship moved, regenerated and cooled by one `ShipStep` |
| Ships.ShipsFromShots | src/lib/gameEngine.ts:97-112 | the projectiles after the loop are the old ones followed by the ships' shots in ship order |
| Ships.UpdateShips | src/lib/gameEngine.ts:57-119 | `updateShips` as a whole: every ship becomes its own `ShipStep`, in place and in number, the shots are appended in ship order, and score, settings, enemies, particles and power-ups are unchanged |
| Ships.ShipsStayInside | src/lib/gameEngine.ts:86-87 | after the ship step every controlled ship is inside the 20-unit inset |
| Enemies.NearestPlayer | src/lib/gameEngine.ts:284-302 | None iff there is no player ship; otherwise a player ship whose distance is minimal, and strictly closer than every player ship before it, so the first minimal one |
| Enemies.Speed | src/lib/gameEngine.ts:131 | the speed table: 100 for fast, 50 for heavy, 75 for every other type, so always between 50 and 100 |
| Enemies.EnemyShot | src/lib/gameEngine.ts:321-340 | an enemy projectile starts at the enemy, is not a player projectile, is owned by the enemy and carries damage 15 |
| Enemies.Wrap | src/lib/gameEngine.ts:152-155 | below -50 re-enters at extent + 50, past extent + 50 re-enters at -50, in between unchanged; the result lies within 50 of the field |
| Enemies.Steer | src/lib/gameEngine.ts:126-135 | at a positive distance the velocity is the type speed along the direction to the target; at distance 0 nothing changes; only velocity and rotation change |
| Enemies.Chase | src/lib/gameEngine.ts:124-145 | with no player ship nothing happens; a shooter fires iff its target is within 300 and 2000 ms have passed, setting lastShotTime; position, health, kind and points unchanged |
| Enemies.Drift | src/lib/gameEngine.ts:147-155 | the enemy moves and wraps, ending within 50 units of the field; only its position changes |
| Enemies.EnemyStep | src/lib/gameEngine.ts:122-156 | one enemy: without a player ship it keeps its velocity and never fires; otherwise it takes its type speed toward the target; fires exactly under the shooter rule; ends within 50 units of the field; stats unchanged |
| Enemies.EnemiesFrom | src/lib/gameEngine.ts:121-157 | the enemy loop keeps the number of enemies, leaves the enemies before the loop index alone, and changes neither ships, score, settings, particles nor power-ups |
| Enemies.EnemiesFromSteps | src/lib/gameEngine.ts:122-156 | after the loop every enemy from the start index on is that enemy steered, chased and drifted by one `EnemyStep` |
| Enemies.EnemiesFromShots | src/lib/gameEngine.ts:137-145 | the projectiles after the loop are the old ones followed by the enemies' shots in enemy order |
| Enemies.UpdateEnemies | src/lib/gameEngine.ts:121-157 | `updateEnemies` as a whole: every enemy becomes its own `EnemyStep` against the unchanged ships, the shots are appended in enemy order, and score, settings, particles and power-ups are unchanged |
| Cleanup.MoveProjectiles | src/lib/gameEngine.ts:161-162 | every projectile advanced by velocity x dt, in order |
| Cleanup.UpdateProjectiles | src/lib/gameEngine.ts:159-168 | the projectile list never grows and every survivor lies strictly inside the 50-unit margin |
| Cleanup.ProjectileSurvivesIff | src/lib/gameEngine.ts:159-168 | a projectile survives iff its moved position is strictly inside (-50, width + 50) x (-50, height + 50) |
| Cleanup.ProjectilesKeepOrder | src/lib/gameEngine.ts:160-167 | the projectile step distributes over concatenation: survivors keep their relative order |
| Cleanup.AgeParticles | src/lib/gameEngine.ts:172-174 | every particle moved and its life lowered by dt, in order |
| Cleanup.UpdateParticles | src/lib/gameEngine.ts:170-177 | the particle list never grows and every survivor has life left |
| Cleanup.ParticleSurvivesIff | src/lib/gameEngine.ts:170-177 | a particle survives iff `life - dt > 0` |
| Cleanup.ParticlesKeepOrder | src/lib/gameEngine.ts:171-176 | surviving particles keep their relative order |
| Collisions.OverlapIsDistanceTest | src/lib/gameEngine.ts:277-282 | the squared overlap test agrees with `distance < r1 + r2` for every non-negative distance and non-negative radius sum |
| Collisions.Sparks | src/lib/gameEngine.ts:343-357 | n particles at the hit position, each with the given life and max life (5 x 0.5 s per hit, 15 x 1 s per explosion) |
| Collisions.HitSparks | src/lib/gameEngine.ts:342-358 | five particles at the hit position, each living 0.5 s |
| Collisions.Explosion | src/lib/gameEngine.ts:360-376 | fifteen particles at the enemy's position, each living 1 s |
| Collisions.TakeHit | src/lib/gameEngine.ts:221-228 | shield first: a positive shield takes the whole hit, floored at 0, with no spill to health; otherwise health takes it, floored at 0; only one of them changes and neither rises |
| Collisions.ApplyPowerUp | src/lib/gameEngine.ts:392-407 | health +25 capped at max, shield +50 capped at max, weaponDamage +0.2, speed +0.1; each kind changes its own field only |
| Collisions.Drop | src/lib/gameEngine.ts:203-206 | a kill drops one power-up at the enemy's position iff the roll is below 0.2 |
| Collisions.HitVisit | src/lib/gameEngine.ts:188-210 | a miss changes nothing; a hit splices index k, the projectile's outer index, whatever sits there now, and adds five sparks at the enemy; a hit that leaves health replaces only enemy e by itself minus the damage and drops nothing; a kill adds exactly the enemy's points, splices enemy e out, adds the explosion and appends exactly the drawn drop |
| Collisions.HitEnemiesFrom | src/lib/gameEngine.ts:188-211 | the inner enemy loop: ships and settings unchanged, no list grows except particles and power-ups, score never falls when points are non-negative |
| Collisions.PlayerHitsFrom | src/lib/gameEngine.ts:185-212 | pass 1 as a whole: the same bounds, and the score never falls |
| Collisions.PlayerHits | src/lib/gameEngine.ts:185-212 | pass 1 over every projectile present at its start: ships and settings unchanged, enemies and projectiles never grow, and with non-negative points the score never falls |
| Collisions.ShotVisit | src/lib/gameEngine.ts:218-232 | an enemy projectile hitting a player ship deals 10 shield-first, ignoring its damage field, splices index k and adds five sparks at the ship; a miss (or a non-player ship) changes nothing |
| Collisions.ShotShipsFrom | src/lib/gameEngine.ts:218-233 | the inner ship loop of pass 2: ships stay in place and sound ships stay sound, with no health or shield gained |
| Collisions.EnemyShotsFrom | src/lib/gameEngine.ts:215-234 | pass 2 as a whole: the same, with enemies, score and power-ups unchanged |
| Collisions.EnemyShots | src/lib/gameEngine.ts:215-234 | pass 2 over every projectile present at its start: ships only wear, projectiles never grow, enemies, score and power-ups unchanged |
| Collisions.ContactVisit | src/lib/gameEngine.ts:238-260 | a miss changes nothing; an enemy touching a player ship deals 20 shield-first, adds five sparks at the ship and moves only enemy j, 30 units along the unit vector away from the ship, or not at all when the centres coincide; nothing is removed |
| Collisions.ContactShipsFrom | src/lib/gameEngine.ts:238-261 | the inner ship loop of pass 3: enemies change only position, ships only wear |
| Collisions.ContactsFrom | src/lib/gameEngine.ts:237-262 | pass 3 as a whole: the same |
| Collisions.Contacts | src/lib/gameEngine.ts:237-262 | pass 3 over every enemy present at its start: nothing removed, enemies change only position, ships only wear |
| Collisions.PickupVisit | src/lib/gameEngine.ts:266-272 | a power-up under a player ship is applied to it and index k, the power-up's outer index, is spliced; a miss changes nothing; sound ships stay sound; positions and ids unchanged |
| Collisions.PickupShipsFrom | src/lib/gameEngine.ts:266-273 | the inner ship loop of pass 4: the same, over all ships |
| Collisions.PickupsFrom | src/lib/gameEngine.ts:265-274 | pass 4 as a whole: the same, and power-ups never grow |
| Collisions.Pickups | src/lib/gameEngine.ts:265-274 | pass 4 over every power-up present at its start: ships stay placed and sound, power-ups never grow, everything else unchanged |
| Collisions.CheckCollisions | src/lib/gameEngine.ts:183-275 | the four passes in order keep every ship placed and every sound ship sound, add no enemy, and with non-negative points never lower the score |
| Quirks.SplicedShotHitsAgain | src/lib/gameEngine.ts:185-212 | one player shot over two enemies hurts both, and its second splice removes an unrelated enemy projectile |
| Quirks.PowerUpReachesBothShips | src/lib/gameEngine.ts:265-274 | one health pack under two ships heals both |
| Spawner.TargetCount | src/lib/gameEngine.ts:410 | `min(3 + wave, 12)`: at most 12, and at least 1 from wave -2 on |
| Spawner.StartHealth | src/lib/gameEngine.ts:452-453 | 30 heavy, 10 fast, 20 otherwise |
| Spawner.KillPoints | src/lib/gameEngine.ts:456 | 30 heavy, 25 shooter, 15 fast, 10 basic |
| Spawner.EntryPoint | src/lib/gameEngine.ts:421-445 | per side, the point on the edge line 50 units outside at the drawn fraction; always within 50 of the field and outside it |
| Spawner.NewEnemy | src/lib/gameEngine.ts:417-460 | a new enemy of a listed type with health = maxHealth and points from the table, zero velocity, rotation 0, lastShotTime 0, outside the field and on one of the four edge lines 50 units out |
| Spawner.SpawnEnemies | src/lib/gameEngine.ts:409-415 | exactly one enemy is appended iff the count is below the target, otherwise nothing; nothing else changes; from wave -2 on the field is never left empty |
| Engine.Move | src/lib/gameEngine.ts:43-52 | steps 1 to 5 keep the settings and the score |
| Engine.Tick | src/lib/gameEngine.ts:43-55 | a tick keeps wave, mode, status and field size, and from wave -2 on always ends with at least one enemy |
| Engine.TickKeepsShipsSound | src/lib/gameEngine.ts:43-55 | for dt >= 0, a tick keeps every ship's 0 <= health <= max and 0 <= shield <= max |
| Engine.TickKeepsShipsInside | src/lib/gameEngine.ts:43-55 | after a whole tick every controlled ship is inside the 20-unit inset, since no collision moves a ship |
| Engine.TickScoreNeverFalls | src/lib/gameEngine.ts:199-200 | with non-negative points, a tick never lowers the score and the points stay non-negative |
| World.GameEngine.Update | src/lib/gameEngine.ts:43-55 | the imperative tick leaves exactly the state `Engine.Tick` describes |
| World.GameEngine.constructor | src/lib/gameEngine.ts:44 | the engine object holds exactly the state it is given, as `update`'s shallow copy does |
| World.GameEngine.Fly | src/lib/gameEngine.ts:64-95 | the field-by-field movement computes `Ships.Fly` |
| World.GameEngine.Accelerate | src/lib/gameEngine.ts:66-71 | the four key tests give the acceleration `Ships.Thrust` |
| World.GameEngine.StepShip | src/lib/gameEngine.ts:58-118 | one ship's visit: updated in place and its shot pushed, as `Ships.ShipAt` |
| World.GameEngine.UpdateShips | src/lib/gameEngine.ts:57-119 | the ship loop computes `Ships.UpdateShips` |
| World.GameEngine.FindNearestPlayer | src/lib/gameEngine.ts:284-302 | the running-minimum scan returns `Enemies.NearestPlayer` |
| World.GameEngine.Steer | src/lib/gameEngine.ts:126-135 | the in-place steering computes `Enemies.Steer` |
| World.GameEngine.ChaseNearest | src/lib/gameEngine.ts:124-145 | the chase and shot of enemy j, in place |
| World.GameEngine.DriftAt | src/lib/gameEngine.ts:147-155 | the move and wrap of enemy j, in place |
| World.GameEngine.StepEnemy | src/lib/gameEngine.ts:122-156 | one enemy's visit, as `Enemies.EnemyAt` |
| World.GameEngine.UpdateEnemies | src/lib/gameEngine.ts:121-157 | the enemy loop computes `Enemies.UpdateEnemies` |
| World.GameEngine.UpdateProjectiles | src/lib/gameEngine.ts:159-168 | the filter loop computes `Cleanup.UpdateProjectiles` |
| World.GameEngine.UpdateParticles | src/lib/gameEngine.ts:170-177 | the filter loop computes `Cleanup.UpdateParticles` |
| World.GameEngine.PushSparks | src/lib/gameEngine.ts:342-358 | the push loop appends exactly `Collisions.Sparks` |
| World.GameEngine.HitEnemy | src/lib/gameEngine.ts:188-210 | one projectile-enemy visit with its splices, as `Collisions.HitVisit` |
| World.GameEngine.ResolvePlayerHits | src/lib/gameEngine.ts:185-212 | the nested `forEach` loops of pass 1 compute `Collisions.PlayerHits` |
| World.GameEngine.HitShip | src/lib/gameEngine.ts:218-232 | one projectile-ship visit, as `Collisions.ShotVisit` |
| World.GameEngine.ResolveEnemyShots | src/lib/gameEngine.ts:215-234 | pass 2 computes `Collisions.EnemyShots` |
| World.GameEngine.HitShips | src/lib/gameEngine.ts:218-233 | the inner ship loop for one enemy shot computes `Collisions.ShotShipsFrom` |
| World.GameEngine.Ram | src/lib/gameEngine.ts:238-260 | one enemy-ship visit, as `Collisions.ContactVisit` |
| World.GameEngine.RamShips | src/lib/gameEngine.ts:238-261 | the inner ship loop of pass 3 |
| World.GameEngine.ResolveContacts | src/lib/gameEngine.ts:237-262 | pass 3 computes `Collisions.Contacts` |
| World.GameEngine.PickUp | src/lib/gameEngine.ts:266-272 | one power-up-ship visit, as `Collisions.PickupVisit` |
| World.GameEngine.ResolvePickups | src/lib/gameEngine.ts:265-274 | pass 4 computes `Collisions.Pickups` |
| World.GameEngine.PickUpAll | src/lib/gameEngine.ts:266-273 | the inner ship loop for one power-up computes `Collisions.PickupShipsFrom` |
| World.GameEngine.CheckCollisions | src/lib/gameEngine.ts:183-275 | the four passes in order compute `Collisions.CheckCollisions` |
| World.GameEngine.SpawnEnemies | src/lib/gameEngine.ts:409-460 | the spawner with its side switch and stat expressions computes `Spawner.SpawnEnemies` |
| Canvas.Decide | src/components/GameCanvas.tsx:80-111 | wave complete iff no enemy, wave < 10 and a handler: UPGRADING, the handler gets wave + 1 and the player ships filtered from the ticked list in their order, game over skipped; the fallback iff the same without a handler; otherwise GAME_OVER iff no player ship has health > 0; the best score is replaced only when strictly exceeded |
| Canvas.AliveIffSome | src/components/GameCanvas.tsx:102-103 | the living-player list is empty exactly when no player ship has health left |
| Canvas.WaveCompleteUnreachable | src/components/GameCanvas.tsx:81 | on a tick's result from wave -2 on, neither the wave-complete handler nor the fallback can fire, because the spawner runs last |
| Canvas.Elapsed | src/components/GameCanvas.tsx:72 | the step is the elapsed milliseconds over 1000, with no clamp, and non-negative when time moves forward |
| Canvas.RunEngine | src/components/GameCanvas.tsx:78 | running a fresh engine object on the previous state yields `Engine.Tick` |
| Canvas.GameLoop.Frame | src/components/GameCanvas.tsx:69-115 | lastTime becomes the timestamp; a PLAYING state is ticked and decided on; any other state is returned unchanged with no handler call |
| Canvas.GameLoop.constructor | src/components/GameCanvas.tsx:27-32 | the loop starts with lastTime 0, the given state and the stored best score |
| Canvas.CreateInitialShips | src/components/GameCanvas.tsx:153-221 | one ship in single player, two in local multiplayer; each full at 100 health and shield with base upgrades, still, ids player1/player2 with playerIds 1/2, their positions, headings and key maps |
| App.Raise | src/App.tsx:85-86 | one upgrade field raised by d, the others unchanged |
| App.Cost | src/App.tsx:79 | the cost is `floor(10 + 5v)`, at least 10 for v >= 0 |
| App.Upgraded | src/App.tsx:84-100 | the field gains 0.2; the level becomes floor of a quarter of the raised total, old level included; the other fields are unchanged; a shield-capacity purchase sets maxShield = floor(100 x capacity) and cuts the shield to it |
| App.Find | src/App.tsx:75-76 | `find`: None iff no ship has the id, else the first index with it |
| App.UpgradeAll | src/App.tsx:83-103 | every ship with the id is upgraded, the rest untouched, in order |
| App.Purchase | src/App.tsx:74-109 | an unknown id or too few points changes nothing; otherwise the points fall by the cost of the first matching ship and every matching ship is upgraded |
| App.PurchaseKeepsPointsNonNegative | src/App.tsx:81-82 | a purchase never drives points below zero, and spends only when a ship has the id |
| App.PurchaseCostsAtLeastTen | src/App.tsx:78-82 | with non-negative upgrade values every purchase that changes the ships costs at least 10 points |
| App.LevelPurchaseRecomputed | src/App.tsx:89-92 | buying level charges for it, but the level is recomputed as floor((total + 0.2) / 4), and the other fields are unchanged |
| App.Handle | src/App.tsx:20-118 | each handler's effect: start, restart and retry reset score, wave and points and play; main menu also clears ships; game over sets points to floor(score / 100); wave complete adds floor(score / 50) and opens the upgrade screen; pause, resume and continue only set the status; an upgrade is a `Purchase` |
| App.PointsNeverNegative | src/App.tsx:20-118 | after any run of handlers fed non-negative scores, upgrade points stay non-negative |
| App.AppController.constructor | src/App.tsx:12-17 | the controller starts at the menu, single player, score 0, wave 1, no points, no ships |
| App.AppController.HandleStartGame | src/App.tsx:20-27 | the setters leave the state `Handle` gives for a start |
| App.AppController.HandleGameOver | src/App.tsx:29-39 | the setters leave the state `Handle` gives for game over |
| App.AppController.HandlePause | src/App.tsx:41-43 | as `Handle` for pause |
| App.AppController.HandleResume | src/App.tsx:45-47 | as `Handle` for resume |
| App.AppController.HandleRestart | src/App.tsx:49-55 | as `Handle` for restart |
| App.AppController.HandleMainMenu | src/App.tsx:57-63 | as `Handle` for the main menu |
| App.AppController.HandleWaveComplete | src/App.tsx:65-72 | as `Handle` for a completed wave |
| App.AppController.FindShip | src/App.tsx:75-76 | the search returns the index of the first ship with the given id, or none (`Find`) |
| App.AppController.UpgradeEach | src/App.tsx:83-103 | the mapping loop raises the chosen field of every ship with that id and copies the others (`UpgradeAll`) |
| App.AppController.HandleUpgrade | src/App.tsx:74-109 | the find loop, the price check and the mapping loop leave the state of `Purchase` |
| App.AppController.HandleContinueFromUpgrade | src/App.tsx:111-114 | as `Handle` for continue |
| App.AppController.HandleRetry | src/App.tsx:116-118 | a retry is a start in the current mode |

## Left out

- Input capture: DOM key and mouse listeners and the lower-casing of key names are not modelled. A tick reads an input snapshot (`Input`: the held keys, the pointer position and the button flag) from `Env`.
- Clock: `Date.now()` becomes one value `now` per tick. The source reads the clock separately for each shooter and ship, and those readings can differ by a few milliseconds.
- Randomness: `Math.random()` becomes draws given in `Env`, for the enemy type, the side, the position along the edge, the drop roll and the power-up kind. No distribution is modelled, including the 20% drop chance.
- Trigonometry and square root: `atan2`, `cos`, `sin` and the unit vector `(dx / dist, dy / dist)` are uninterpreted functions in `Maths`. Nothing is proved about directions or speeds along them.
- Enemies.EnemyShot: at distance 0 the source divides by zero and gets NaN velocities. The model leaves the velocity unspecified there.
- Floating point: IEEE doubles are modelled as exact reals, so rounding, infinities and NaN are not modelled. A zero fire rate never cools down, which is the +Infinity case.
- Particle cosmetics: colour, size and random velocity are not modelled. Sparks get zero velocity; only their count, position and life matter.
- Ids built from the clock: projectile, particle and power-up ids are dropped. A spawned enemy's id is the clock value `clockId` from `Env`.
- Aliasing: `update` makes a shallow copy, so the source mutates the caller's ship and enemy objects. `handleUpgrade` also mutates the previous ship objects' shield fields. The model works on values and does not represent this sharing.
- Rendering, the menus and the upgrade screen are presentation only. The upgrade screen displays a cost `floor(10 + floor(10v) x 5)` that differs from the cost charged; the model follows the charged cost.
- Canvas.GameLoop.Frame: `requestAnimationFrame` scheduling, `useKV` persistence of the best score, toasts, and the body of the two-second fallback timer are not modelled. Only whether the fallback is scheduled is recorded.
- The application never passes `onWaveComplete` to the canvas. `Canvas.Decide` takes its presence as a flag, so both configurations are covered.
- The initial ships have fireRate 3, not 1. The model follows the code.
