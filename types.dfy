/**
 * The plain records that make up one frame of the space shooter's world,
 * and the values the engine reads from outside the world: the input
 * snapshot, the clock, the random draws and the transcendental functions.
 */
module Types {

  datatype Option<+T> = None | Some(value: T)

  /** A point or a velocity on the playfield. */
  datatype Vec = Vec(x: real, y: real)

  function Add(a: Vec, b: Vec): Vec { Vec(a.x + b.x, a.y + b.y) }

  function Scale(a: Vec, k: real): Vec { Vec(a.x * k, a.y * k) }

  function Max(a: real, b: real): real { if a >= b then a else b }

  function Min(a: real, b: real): real { if a <= b then a else b }

  /** Squared Euclidean distance; the engine only ever compares distances. */
  function Dist2(a: Vec, b: Vec): real
  {
    (a.x - b.x) * (a.x - b.x) + (a.y - b.y) * (a.y - b.y)
  }

  datatype EnemyType = Basic | Fast | Heavy | Shooter

  datatype PowerUpType = HealthPack | ShieldPack | WeaponPack | SpeedPack

  datatype GameMode = SinglePlayer | LocalMultiplayer

  datatype GameStatus = Menu | Playing | Paused | Upgrading | GameOver

  /** The key names bound to one player's directions and fire button. */
  datatype KeyMap = KeyMap(up: string, down: string, left: string, right: string, shoot: string)

  datatype Controls = Controls(playerId: int, keys: KeyMap)

  datatype Upgrades = Upgrades(weaponDamage: real, fireRate: real, speed: real,
                               shieldCapacity: real, level: real)

  datatype Ship = Ship(
    id: string,
    position: Vec,
    velocity: Vec,
    rotation: real,
    health: real,
    maxHealth: real,
    shield: real,
    maxShield: real,
    upgrades: Upgrades,
    lastShotTime: real,
    isPlayer: bool,
    controls: Option<Controls>)

  datatype Enemy = Enemy(
    id: string,
    position: Vec,
    velocity: Vec,
    rotation: real,
    health: real,
    maxHealth: real,
    kind: EnemyType,
    lastShotTime: real,
    points: int)

  datatype Projectile = Projectile(
    position: Vec,
    velocity: Vec,
    damage: real,
    ownerId: string,
    isPlayerProjectile: bool)

  /** A cosmetic spark: only its position, motion and remaining life are kept. */
  datatype Particle = Particle(position: Vec, velocity: Vec, life: real, maxLife: real)

  datatype PowerUp = PowerUp(position: Vec, kind: PowerUpType, value: real)

  datatype GameState = GameState(
    ships: seq<Ship>,
    enemies: seq<Enemy>,
    projectiles: seq<Projectile>,
    particles: seq<Particle>,
    powerUps: seq<PowerUp>,
    wave: int,
    score: int,
    gameMode: GameMode,
    gameStatus: GameStatus,
    width: real,
    height: real)

  /** The parts of a state no engine step ever changes. */
  predicate SameSettings(a: GameState, b: GameState)
  {
    a.wave == b.wave && a.gameMode == b.gameMode && a.gameStatus == b.gameStatus
    && a.width == b.width && a.height == b.height
  }

  /** The keyboard and pointer state the engine samples during a tick. */
  datatype Input = Input(keys: set<string>, mouse: Vec, mousePressed: bool)

  /** A value of Math.random(). */
  type Fraction = r: real | 0.0 <= r < 1.0

  /** Math.floor(r * n) for a random fraction r: an index below n. */
  function Pick(r: Fraction, n: nat): (i: nat)
    requires n > 0
    ensures i < n
  {
    var f := (r * (n as real)).Floor;
    assert 0 <= f by { assert 0.0 <= r * (n as real); }
    assert f < n by { assert r * (n as real) < n as real; }
    f
  }

  /**
   * The random draws that decide gameplay. A drop roll is made after the kill
   * at visit (k, e) of the collision pass: k the projectile, e the enemy index.
   */
  datatype Draws = Draws(
    dropRoll: (nat, nat) -> Fraction,
    dropKind: (nat, nat) -> Fraction,
    spawnKind: Fraction,
    spawnSide: Fraction,
    spawnAt: Fraction)

  /**
   * Math.atan2, Math.cos and Math.sin, and the unit vector (dx, dy) / |(dx, dy)|
   * built with Math.sqrt. None of them is interpreted.
   */
  datatype Maths = Maths(
    atan2: (real, real) -> real,
    cos: real -> real,
    sin: real -> real,
    direction: (real, real) -> Vec)

  /**
   * Everything one tick reads from outside the world: the input snapshot, the
   * clock in milliseconds, the clock-derived id of an enemy spawned this tick,
   * the maths and the random draws.
   */
  datatype Env = Env(input: Input, now: real, clockId: string, maths: Maths, draws: Draws)
}
