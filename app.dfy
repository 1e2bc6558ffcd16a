/**
 * The application controller: the game status state machine driven by the
 * menu and canvas handlers, the upgrade points a game earns, and the rule by
 * which those points buy ship upgrades.
 */
module App {
  import opened Types

  /** A key of the upgrade record; `level` is a key like the others. */
  datatype UpgradeField = WeaponDamage | FireRate | Speed | ShieldCapacity | Level

  function Get(u: Upgrades, f: UpgradeField): real
  {
    match f
    case WeaponDamage => u.weaponDamage
    case FireRate => u.fireRate
    case Speed => u.speed
    case ShieldCapacity => u.shieldCapacity
    case Level => u.level
  }

  /** The record with one field raised by `d`. */
  function Raise(u: Upgrades, f: UpgradeField, d: real): (r: Upgrades)
    ensures Get(r, f) == Get(u, f) + d
    ensures forall g :: g != f ==> Get(r, g) == Get(u, g)
  {
    match f
    case WeaponDamage => u.(weaponDamage := u.weaponDamage + d)
    case FireRate => u.(fireRate := u.fireRate + d)
    case Speed => u.(speed := u.speed + d)
    case ShieldCapacity => u.(shieldCapacity := u.shieldCapacity + d)
    case Level => u.(level := u.level + d)
  }

  /** The sum over all numeric values of the record, the level included. */
  function Total(u: Upgrades): real
  {
    u.weaponDamage + u.fireRate + u.speed + u.shieldCapacity + u.level
  }

  /** What the next step of an upgrade costs: floor(10 + 5v) at current value v. */
  function Cost(v: real): (c: int)
    ensures c as real <= 10.0 + v * 5.0 < c as real + 1.0
    ensures v >= 0.0 ==> c >= 10
  {
    (10.0 + v * 5.0).Floor
  }

  /**
   * One ship bought an upgrade: the field goes up by 0.2, then the level is
   * recomputed as floor of a quarter of the raised record's total (the old
   * level counted in it); a shield-capacity purchase also resets the shield
   * maximum to floor(100 x capacity) and cuts the shield down to it.
   */
  function Upgraded(s: Ship, f: UpgradeField): (r: Ship)
    ensures var raised := Raise(s.upgrades, f, 0.2);
            r.upgrades == raised.(level := (Total(raised) / 4.0).Floor as real)
    ensures forall g :: g != f && g != Level ==> Get(r.upgrades, g) == Get(s.upgrades, g)
    ensures f != Level ==> Get(r.upgrades, f) == Get(s.upgrades, f) + 0.2
    ensures f == ShieldCapacity ==>
              r.maxShield == (100.0 * r.upgrades.shieldCapacity).Floor as real
              && r.shield == Min(s.shield, r.maxShield)
    ensures f != ShieldCapacity ==> r.maxShield == s.maxShield && r.shield == s.shield
    ensures r == s.(upgrades := r.upgrades, maxShield := r.maxShield, shield := r.shield)
  {
    var raised := Raise(s.upgrades, f, 0.2);
    var upgrades := raised.(level := (Total(raised) / 4.0).Floor as real);
    if f == ShieldCapacity then
      var maxShield := (100.0 * upgrades.shieldCapacity).Floor as real;
      s.(upgrades := upgrades, maxShield := maxShield, shield := Min(s.shield, maxShield))
    else
      s.(upgrades := upgrades)
  }

  /** `ships.find(s => s.id === shipId)`: the first index with that id. */
  function Find(ships: seq<Ship>, id: string): (r: Option<nat>)
    ensures r.None? <==> forall i :: 0 <= i < |ships| ==> ships[i].id != id
    ensures r.Some? ==> r.value < |ships| && ships[r.value].id == id
                        && forall i :: 0 <= i < r.value ==> ships[i].id != id
  {
    if ships == [] then None
    else if ships[0].id == id then Some(0)
    else
      var rest := Find(ships[1..], id);
      if rest.None? then None else Some(rest.value + 1)
  }

  /** Every ship with the id upgraded, the rest untouched, in order. */
  function UpgradeAll(ships: seq<Ship>, id: string, f: UpgradeField): (r: seq<Ship>)
    ensures |r| == |ships|
    ensures forall i :: 0 <= i < |ships| ==>
              r[i] == (if ships[i].id == id then Upgraded(ships[i], f) else ships[i])
  {
    seq(|ships|, i requires 0 <= i < |ships| => if ships[i].id == id then Upgraded(ships[i], f) else ships[i])
  }

  /** The ships and the points a purchase leaves. */
  datatype Shop = Shop(ships: seq<Ship>, points: int)

  /**
   * `handleUpgrade`: priced from the first ship with the id, paid only if the
   * points cover it, applied to every ship with the id.
   */
  function Purchase(ships: seq<Ship>, points: int, id: string, f: UpgradeField): (r: Shop)
    ensures Find(ships, id).None? ==> r == Shop(ships, points)
    ensures var i := Find(ships, id);
            i.Some? ==>
              var cost := Cost(Get(ships[i.value].upgrades, f));
              if points >= cost then r == Shop(UpgradeAll(ships, id, f), points - cost)
              else r == Shop(ships, points)
  {
    var i := Find(ships, id);
    if i.None? then Shop(ships, points)
    else
      var cost := Cost(Get(ships[i.value].upgrades, f));
      if points >= cost then Shop(UpgradeAll(ships, id, f), points - cost) else Shop(ships, points)
  }

  /** A purchase never drives the points below zero, and needs a ship with the id. */
  lemma PurchaseKeepsPointsNonNegative(ships: seq<Ship>, points: int, id: string, f: UpgradeField)
    requires points >= 0
    ensures Purchase(ships, points, id, f).points >= 0
    ensures Purchase(ships, points, id, f).points != points ==>
              exists i :: 0 <= i < |ships| && ships[i].id == id
  {
    var i := Find(ships, id);
    if i.Some? {
      assert ships[i.value].id == id;
    }
  }

  /** With non-negative upgrade values every successful purchase costs at least 10 points. */
  lemma PurchaseCostsAtLeastTen(ships: seq<Ship>, points: int, id: string, f: UpgradeField)
    requires forall i :: 0 <= i < |ships| ==> Get(ships[i].upgrades, f) >= 0.0
    ensures var r := Purchase(ships, points, id, f);
            r.ships != ships ==> r.points <= points - 10
  {
    var i := Find(ships, id);
    if i.Some? {
      assert Get(ships[i.value].upgrades, f) >= 0.0;
    }
  }

  /**
   * Buying `level` charges for it, but its own 0.2 is overwritten by the
   * recomputed level: only its share in the total remains.
   */
  lemma LevelPurchaseRecomputed(s: Ship)
    ensures var r := Upgraded(s, Level);
            r.upgrades.level == ((Total(s.upgrades) + 0.2) / 4.0).Floor as real
            && r.upgrades.(level := s.upgrades.level) == s.upgrades
  {
    var raised := Raise(s.upgrades, Level, 0.2);
    assert Total(raised) == Total(s.upgrades) + 0.2;
  }

  // ---------------------------------------------------------------------
  // The controller state machine.
  // ---------------------------------------------------------------------

  /** The controller's state: what the screen shows and what the game carries. */
  datatype Controller = Controller(
    gameStatus: GameStatus,
    gameMode: GameMode,
    currentScore: int,
    currentWave: int,
    upgradePoints: int,
    ships: seq<Ship>)

  /** The handlers, one constructor each, with their arguments. */
  datatype Event =
    | StartGame(mode: GameMode)
    | GameOverAt(finalScore: int)
    | Pause
    | Resume
    | Restart
    | MainMenu
    | WaveComplete(score: int, wave: int, playerShips: seq<Ship>)
    | Upgrade(shipId: string, field: UpgradeField)
    | ContinueFromUpgrade
    | Retry

  /** The controller after one handler. */
  function Handle(c: Controller, e: Event): (r: Controller)
    // Starting, restarting and retrying begin a fresh game at wave 1.
    ensures e.StartGame? || e.Restart? || e.Retry? ==>
              r == c.(gameStatus := Playing, currentScore := 0, currentWave := 1, upgradePoints := 0,
                      gameMode := r.gameMode)
    ensures e.StartGame? ==> r.gameMode == e.mode
    ensures e.Restart? || e.Retry? ==> r.gameMode == c.gameMode
    // The main menu resets the same way and also forgets the ships.
    ensures e.MainMenu? ==>
              r == c.(gameStatus := Menu, currentScore := 0, currentWave := 1, upgradePoints := 0, ships := [])
    // Game over pays floor(score / 100) points, replacing what was left.
    ensures e.GameOverAt? ==>
              r == c.(gameStatus := GameOver, currentScore := e.finalScore,
                      upgradePoints := e.finalScore / 100)
    // A completed wave adds floor(score / 50) and opens the upgrade screen.
    ensures e.WaveComplete? ==>
              r == c.(gameStatus := Upgrading, currentScore := e.score, currentWave := e.wave,
                      ships := e.playerShips, upgradePoints := c.upgradePoints + e.score / 50)
    ensures e.Pause? ==> r == c.(gameStatus := Paused)
    ensures e.Resume? || e.ContinueFromUpgrade? ==> r == c.(gameStatus := Playing)
    // Only a purchase touches the ships outside a reset or a completed wave.
    ensures e.Upgrade? ==>
              var shop := Purchase(c.ships, c.upgradePoints, e.shipId, e.field);
              r == c.(ships := shop.ships, upgradePoints := shop.points)
  {
    match e
    case StartGame(mode) =>
      c.(gameMode := mode, gameStatus := Playing, currentScore := 0, currentWave := 1, upgradePoints := 0)
    case GameOverAt(finalScore) =>
      c.(currentScore := finalScore, upgradePoints := finalScore / 100, gameStatus := GameOver)
    case Pause => c.(gameStatus := Paused)
    case Resume => c.(gameStatus := Playing)
    case Restart => c.(gameStatus := Playing, currentScore := 0, currentWave := 1, upgradePoints := 0)
    case MainMenu =>
      c.(gameStatus := Menu, currentScore := 0, currentWave := 1, upgradePoints := 0, ships := [])
    case WaveComplete(score, wave, playerShips) =>
      c.(currentScore := score, currentWave := wave, ships := playerShips,
         upgradePoints := c.upgradePoints + score / 50, gameStatus := Upgrading)
    case Upgrade(shipId, field) =>
      var shop := Purchase(c.ships, c.upgradePoints, shipId, field);
      c.(ships := shop.ships, upgradePoints := shop.points)
    case ContinueFromUpgrade => c.(gameStatus := Playing)
    case Retry =>
      c.(gameStatus := Playing, currentScore := 0, currentWave := 1, upgradePoints := 0)
  }

  /** The controller after a run of handlers, in order. */
  function Run(c: Controller, es: seq<Event>): Controller
    decreases |es|
  {
    if es == [] then c else Run(Handle(c, es[0]), es[1..])
  }

  /** Scores the handlers receive are never negative. */
  predicate HonestScores(es: seq<Event>)
  {
    forall i :: 0 <= i < |es| ==>
      (es[i].GameOverAt? ==> es[i].finalScore >= 0) && (es[i].WaveComplete? ==> es[i].score >= 0)
  }

  /** Upgrade points are never negative after any run of handlers fed non-negative scores. */
  lemma {:induction false} PointsNeverNegative(c: Controller, es: seq<Event>)
    requires c.upgradePoints >= 0 && HonestScores(es)
    ensures Run(c, es).upgradePoints >= 0
    decreases |es|
  {
    if es != [] {
      var e := es[0];
      if e.Upgrade? {
        PurchaseKeepsPointsNonNegative(c.ships, c.upgradePoints, e.shipId, e.field);
      }
      assert HonestScores(es[1..]) by {
        forall i | 0 <= i < |es[1..]|
          ensures (es[1..][i].GameOverAt? ==> es[1..][i].finalScore >= 0)
                  && (es[1..][i].WaveComplete? ==> es[1..][i].score >= 0)
        {
          assert es[1..][i] == es[i + 1];
        }
      }
      PointsNeverNegative(Handle(c, e), es[1..]);
    }
  }

  /** The App component's state, changed by its handlers one setter at a time. */
  class AppController {
    var gameStatus: GameStatus
    var gameMode: GameMode
    var currentScore: int
    var currentWave: int
    var upgradePoints: int
    var ships: seq<Ship>

    function State(): Controller
      reads this
    {
      Controller(gameStatus, gameMode, currentScore, currentWave, upgradePoints, ships)
    }

    /** The initial state: the main menu, single player, wave 1, nothing earned. */
    constructor ()
      ensures State() == Controller(Menu, SinglePlayer, 0, 1, 0, [])
    {
      gameStatus := Menu;
      gameMode := SinglePlayer;
      currentScore := 0;
      currentWave := 1;
      upgradePoints := 0;
      ships := [];
    }

    method HandleStartGame(mode: GameMode)
      modifies this
      ensures State() == Handle(old(State()), StartGame(mode))
    {
      gameMode := mode;
      gameStatus := Playing;
      currentScore := 0;
      currentWave := 1;
      upgradePoints := 0;
    }

    method HandleGameOver(finalScore: int)
      modifies this
      ensures State() == Handle(old(State()), GameOverAt(finalScore))
    {
      currentScore := finalScore;
      upgradePoints := finalScore / 100;
      gameStatus := GameOver;
    }

    method HandlePause()
      modifies this
      ensures State() == Handle(old(State()), Pause)
    {
      gameStatus := Paused;
    }

    method HandleResume()
      modifies this
      ensures State() == Handle(old(State()), Resume)
    {
      gameStatus := Playing;
    }

    method HandleRestart()
      modifies this
      ensures State() == Handle(old(State()), Restart)
    {
      gameStatus := Playing;
      currentScore := 0;
      currentWave := 1;
      upgradePoints := 0;
    }

    method HandleMainMenu()
      modifies this
      ensures State() == Handle(old(State()), MainMenu)
    {
      gameStatus := Menu;
      currentScore := 0;
      currentWave := 1;
      upgradePoints := 0;
      ships := [];
    }

    method HandleWaveComplete(score: int, wave: int, playerShips: seq<Ship>)
      modifies this
      ensures State() == Handle(old(State()), WaveComplete(score, wave, playerShips))
    {
      currentScore := score;
      currentWave := wave;
      ships := playerShips;
      upgradePoints := upgradePoints + score / 50;
      gameStatus := Upgrading;
    }

    /** `ships.find(s => s.id === shipId)`, as a left-to-right scan. */
    method FindShip(shipId: string) returns (found: Option<nat>)
      ensures found == Find(ships, shipId)
    {
      found := None;
      var k := 0;
      while k < |ships| && found.None?
        invariant 0 <= k <= |ships|
        invariant found.None? ==> forall i :: 0 <= i < k ==> ships[i].id != shipId
        invariant found.Some? ==> found == Find(ships, shipId)
        decreases |ships| - k, if found.None? then 1 else 0
      {
        if ships[k].id == shipId {
          found := Some(k);
          FindFirst(ships, shipId, k);
        }
        k := k + 1;
      }
    }

    /** The `map` of `handleUpgrade`: every ship with the id upgraded, in order. */
    method UpgradeEach(shipId: string, field: UpgradeField) returns (updated: seq<Ship>)
      ensures updated == UpgradeAll(ships, shipId, field)
    {
      updated := [];
      for i := 0 to |ships|
        invariant |updated| == i
        invariant forall j :: 0 <= j < i ==>
                    updated[j] == (if ships[j].id == shipId then Upgraded(ships[j], field) else ships[j])
      {
        if ships[i].id == shipId {
          updated := updated + [Upgraded(ships[i], field)];
        } else {
          updated := updated + [ships[i]];
        }
      }
    }

    /** `handleUpgrade`: find, price, pay, then map over the ships. */
    method HandleUpgrade(shipId: string, field: UpgradeField)
      modifies this
      ensures State() == Handle(old(State()), Upgrade(shipId, field))
    {
      ghost var shop := Purchase(ships, upgradePoints, shipId, field);
      assert Handle(State(), Upgrade(shipId, field)) == State().(ships := shop.ships, upgradePoints := shop.points);
      var found := FindShip(shipId);
      if found.None? {
        assert shop == Shop(ships, upgradePoints);
        return;
      }
      var cost := Cost(Get(ships[found.value].upgrades, field));
      if upgradePoints >= cost {
        var updated := UpgradeEach(shipId, field);
        assert shop == Shop(updated, upgradePoints - cost);
        upgradePoints := upgradePoints - cost;
        ships := updated;
      } else {
        assert shop == Shop(ships, upgradePoints);
      }
    }

    method HandleContinueFromUpgrade()
      modifies this
      ensures State() == Handle(old(State()), ContinueFromUpgrade)
    {
      gameStatus := Playing;
    }

    method HandleRetry()
      modifies this
      ensures State() == Handle(old(State()), Retry)
    {
      HandleStartGame(gameMode);
    }
  }

  /** The first match found by a left-to-right scan is what `Find` returns. */
  lemma {:induction false} FindFirst(ships: seq<Ship>, id: string, k: nat)
    requires k < |ships| && ships[k].id == id
    requires forall i :: 0 <= i < k ==> ships[i].id != id
    ensures Find(ships, id) == Some(k)
    decreases k
  {
    if k > 0 {
      FindFirst(ships[1..], id, k - 1);
    }
  }
}
