/**
 * The game canvas around the engine: the frame loop that turns animation
 * timestamps into ticks, the decision taken on every tick's result (wave
 * complete, game over), and the ships a new game starts with.
 */
module Canvas {
  import opened Types
  import opened Seqs
  import Engine
  import World

  /** What `onWaveComplete` receives: the score, the next wave and the player ships. */
  datatype WaveEvent = WaveEvent(score: int, wave: int, playerShips: seq<Ship>)

  /**
   * The state a frame leaves, the handler calls it makes (`onWaveComplete`,
   * `onGameOver` with the score), whether it scheduled the two-second
   * fallback that bumps the wave, and the best score afterwards.
   */
  datatype Outcome = Outcome(
    state: GameState,
    waveComplete: Option<WaveEvent>,
    fallbackScheduled: bool,
    gameOver: Option<int>,
    bestScore: int)

  /** The last wave that ends in an upgrade screen is wave 9. */
  const LastUpgradeWave: int := 10

  function IsPlayer(): Ship -> bool
  {
    (s: Ship) => s.isPlayer
  }

  function IsAlive(): Ship -> bool
  {
    (s: Ship) => s.isPlayer && s.health > 0.0
  }

  /** A wave is over when the tick leaves no enemy and the wave is below 10. */
  predicate WaveOver(s: GameState)
  {
    |s.enemies| == 0 && s.wave < LastUpgradeWave
  }

  /** No player ship has any health left. */
  predicate AllDown(s: GameState)
  {
    forall i :: 0 <= i < |s.ships| ==> !(s.ships[i].isPlayer && s.ships[i].health > 0.0)
  }

  /** The decision `gameLoop` takes on the state one tick produced. */
  function Decide(next: GameState, hasWaveHandler: bool, bestScore: int): (r: Outcome)
    // A finished wave with a handler goes to the upgrade screen, passing wave + 1
    // and exactly the player ships; the game-over test is then skipped.
    ensures r.waveComplete.Some? <==> WaveOver(next) && hasWaveHandler
    ensures r.waveComplete.Some? ==>
              r.state == next.(gameStatus := Upgrading) && r.gameOver.None? && r.bestScore == bestScore
              && r.waveComplete.value.score == next.score && r.waveComplete.value.wave == next.wave + 1
              && r.waveComplete.value.playerShips == Filter(next.ships, IsPlayer())
              && (forall x :: x in r.waveComplete.value.playerShips <==> x in next.ships && x.isPlayer)
    // Without a handler, only the fallback timer is scheduled.
    ensures r.fallbackScheduled <==> WaveOver(next) && !hasWaveHandler
    // Otherwise the game is over exactly when no player ship has health left.
    ensures r.waveComplete.None? ==> (r.gameOver.Some? <==> AllDown(next))
    ensures r.gameOver.Some? ==>
              r.state == next.(gameStatus := GameOver) && r.gameOver.value == next.score
              && r.bestScore == (if next.score > bestScore then next.score else bestScore)
    ensures r.waveComplete.None? && r.gameOver.None? ==> r.state == next && r.bestScore == bestScore
  {
    if WaveOver(next) && hasWaveHandler then
      FilterKeepsAll(next.ships, IsPlayer());
      Outcome(next.(gameStatus := Upgrading), Some(WaveEvent(next.score, next.wave + 1, Filter(next.ships, IsPlayer()))),
              false, None, bestScore)
    else
      var fallback := WaveOver(next);
      var alive := Filter(next.ships, IsAlive());
      AliveIffSome(next.ships);
      if |alive| == 0 then
        var best := if next.score > bestScore then next.score else bestScore;
        Outcome(next.(gameStatus := GameOver), None, fallback, Some(next.score), best)
      else
        Outcome(next, None, fallback, None, bestScore)
  }

  /** Membership in a filter, for every element at once. */
  lemma FilterKeepsAll(s: seq<Ship>, keep: Ship -> bool)
    ensures forall x :: x in Filter(s, keep) <==> x in s && keep(x)
  {
    forall x {
      FilterKeepsExactly(s, keep, x);
    }
  }

  /** The list of living player ships is empty exactly when all are down. */
  lemma AliveIffSome(ships: seq<Ship>)
    ensures |Filter(ships, IsAlive())| == 0 <==>
              forall i :: 0 <= i < |ships| ==> !(ships[i].isPlayer && ships[i].health > 0.0)
  {
    FilterKeepsAll(ships, IsAlive());
    var alive := Filter(ships, IsAlive());
    if |alive| != 0 {
      assert alive[0] in alive;
    } else {
      forall i | 0 <= i < |ships|
        ensures !(ships[i].isPlayer && ships[i].health > 0.0)
      {
        assert ships[i] in ships;
      }
    }
  }

  /**
   * The engine's spawner runs last in every tick, so from wave -2 on the
   * wave-complete branch can never be taken on a tick's result: neither the
   * handler nor the fallback timer ever fires.
   */
  lemma WaveCompleteUnreachable(prev: GameState, env: Env, dt: real, hasWaveHandler: bool, bestScore: int)
    requires prev.wave >= -2
    ensures var r := Decide(Engine.Tick(prev, env, dt), hasWaveHandler, bestScore);
            r.waveComplete.None? && !r.fallbackScheduled
  {
    var next := Engine.Tick(prev, env, dt);
    assert |next.enemies| >= 1;
    assert !WaveOver(next);
  }

  /** `deltaTime`: milliseconds since the previous frame, in seconds. */
  function Elapsed(timestamp: real, lastTime: real): (dt: real)
    ensures timestamp >= lastTime ==> dt >= 0.0
    ensures dt * 1000.0 == timestamp - lastTime
  {
    (timestamp - lastTime) / 1000.0
  }

  /** `engineRef.current.update(prevState, deltaTime)` on a fresh engine object. */
  method RunEngine(prev: GameState, env: Env, dt: real) returns (next: GameState)
    ensures next == Engine.Tick(prev, env, dt)
  {
    var engine := new World.GameEngine(prev);
    engine.Update(env, dt);
    next := engine.State();
  }

  /** The frame loop: its previous timestamp, the state it shows and the best score. */
  class GameLoop {
    var lastTime: real
    var state: Option<GameState>
    var bestScore: int

    constructor (initial: GameState, best: int)
      ensures lastTime == 0.0 && state == Some(initial) && bestScore == best
    {
      lastTime := 0.0;
      state := Some(initial);
      bestScore := best;
    }

    /**
     * `gameLoop(timestamp)`: the step is the time since the last frame in
     * seconds, with no clamp; only a PLAYING state is ticked and decided on.
     */
    method Frame(timestamp: real, env: Env, hasWaveHandler: bool)
      returns (waveComplete: Option<WaveEvent>, gameOver: Option<int>)
      modifies this
      ensures lastTime == timestamp
      ensures old(state).Some? && old(state).value.gameStatus == Playing ==>
                var out := Decide(Engine.Tick(old(state).value, env, Elapsed(timestamp, old(lastTime))),
                                  hasWaveHandler, old(bestScore));
                state == Some(out.state) && bestScore == out.bestScore
                && waveComplete == out.waveComplete && gameOver == out.gameOver
      ensures !(old(state).Some? && old(state).value.gameStatus == Playing) ==>
                state == old(state) && bestScore == old(bestScore) && waveComplete.None? && gameOver.None?
    {
      var deltaTime := Elapsed(timestamp, lastTime);
      lastTime := timestamp;
      waveComplete, gameOver := None, None;
      if state.None? || state.value.gameStatus != Playing {
        return;
      }
      var next := RunEngine(state.value, env, deltaTime);
      var out := Decide(next, hasWaveHandler, bestScore);
      state := Some(out.state);
      bestScore := out.bestScore;
      waveComplete, gameOver := out.waveComplete, out.gameOver;
    }
  }

  /** Every new game's ships start whole, shielded and with the base upgrades. */
  predicate Fresh(s: Ship)
  {
    s.isPlayer && s.health == 100.0 && s.maxHealth == 100.0 && s.shield == 100.0 && s.maxShield == 100.0
    && s.upgrades == Upgrades(1.0, 3.0, 1.0, 1.0, 1.0) && s.velocity == Vec(0.0, 0.0)
    && s.lastShotTime == 0.0 && s.controls.Some?
  }

  /**
   * `createInitialShips`: player 1 always, player 2 in local multiplayer.
   * `pi` is the value of Math.PI, player 2's initial heading.
   */
  method CreateInitialShips(mode: GameMode, pi: real) returns (ships: seq<Ship>)
    ensures |ships| == (if mode == LocalMultiplayer then 2 else 1)
    ensures forall i :: 0 <= i < |ships| ==> Fresh(ships[i])
    ensures ships[0].id == "player1" && ships[0].position == Vec(200.0, 300.0) && ships[0].rotation == 0.0
    ensures ships[0].controls == Some(Controls(1, KeyMap("w", "s", "a", "d", "mouse")))
    ensures |ships| == 2 ==>
              ships[1].id == "player2" && ships[1].position == Vec(600.0, 300.0) && ships[1].rotation == pi
              && ships[1].controls == Some(Controls(2, KeyMap("arrowup", "arrowdown", "arrowleft", "arrowright", " ")))
  {
    ships := [];
    ships := ships + [Ship(
      id := "player1",
      position := Vec(200.0, 300.0),
      velocity := Vec(0.0, 0.0),
      rotation := 0.0,
      health := 100.0,
      maxHealth := 100.0,
      shield := 100.0,
      maxShield := 100.0,
      upgrades := Upgrades(weaponDamage := 1.0, fireRate := 3.0, speed := 1.0, shieldCapacity := 1.0, level := 1.0),
      lastShotTime := 0.0,
      isPlayer := true,
      controls := Some(Controls(1, KeyMap("w", "s", "a", "d", "mouse"))))];
    if mode == LocalMultiplayer {
      ships := ships + [Ship(
        id := "player2",
        position := Vec(600.0, 300.0),
        velocity := Vec(0.0, 0.0),
        rotation := pi,
        health := 100.0,
        maxHealth := 100.0,
        shield := 100.0,
        maxShield := 100.0,
        upgrades := Upgrades(weaponDamage := 1.0, fireRate := 3.0, speed := 1.0, shieldCapacity := 1.0, level := 1.0),
        lastShotTime := 0.0,
        isPlayer := true,
        controls := Some(Controls(2, KeyMap("arrowup", "arrowdown", "arrowleft", "arrowright", " "))))];
    }
  }
}
