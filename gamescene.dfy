// The scene the game runs: coins spent on towers, test enemies spawned on a
// timer that walk to the end and cost a life each, game over once the lives
// run out, and towers looking for the first enemy in reach. Sprites are the
// scene's rectangles; their tweens and the HUD texts are not modelled.
module Scenes {
  import opened Common
  import opened GameStates

  /** The two tower buttons of the scene. */
  datatype SceneTower = Cannon | Ice

  /** The price list for the scene's towers. */
  function TowerCost(t: SceneTower): (c: int)
    ensures c > 0
  {
    match t
    case Cannon => 100
    case Ice => 150
  }

  const InitialGameState := GameState(100, 10, 1, 0, false)

  const StartingCoins := 100
  const StartingLives := 10

  /** How far a scene tower reaches. */
  const TargetRange := 150.0

  /** A rectangle on the scene: a tower or an enemy. */
  class Sprite {
    var pos: Point
    var destroyed: bool

    constructor (pos: Point)
      ensures this.pos == pos && !destroyed
    {
      this.pos := pos;
      destroyed := false;
    }
  }

  /** The first of `es`, in list order, within reach of `at`. */
  function FirstInRange(at: Point, es: seq<Sprite>): (r: Option<Sprite>)
    reads set e | e in es
    decreases |es|
  {
    if es == [] then None
    else if WithinDist(at, es[0].pos, TargetRange) then Some(es[0])
    else FirstInRange(at, es[1..])
  }

  /** The target is the earliest enemy in reach, and there is none only when no enemy is in reach. */
  lemma {:induction false} FirstInRangeMeaning(at: Point, es: seq<Sprite>)
    ensures FirstInRange(at, es).None? <==> forall i :: 0 <= i < |es| ==> !WithinDist(at, es[i].pos, TargetRange)
    ensures FirstInRange(at, es).Some? ==>
      exists k :: 0 <= k < |es| && es[k] == FirstInRange(at, es).value && WithinDist(at, es[k].pos, TargetRange)
        && forall i :: 0 <= i < k ==> !WithinDist(at, es[i].pos, TargetRange)
    decreases |es|
  {
    if es != [] && !WithinDist(at, es[0].pos, TargetRange) {
      FirstInRangeMeaning(at, es[1..]);
      if FirstInRange(at, es).Some? {
        var k :| 0 <= k < |es[1..]| && es[1..][k] == FirstInRange(at, es[1..]).value
          && WithinDist(at, es[1..][k].pos, TargetRange)
          && forall i :: 0 <= i < k ==> !WithinDist(at, es[1..][i].pos, TargetRange);
        assert es[k + 1] == FirstInRange(at, es).value;
        assert forall i :: 0 <= i < k + 1 ==> !WithinDist(at, es[i].pos, TargetRange) by {
          forall i | 0 <= i < k + 1
            ensures !WithinDist(at, es[i].pos, TargetRange)
          {
            if i > 0 {
              assert es[i] == es[1..][i - 1];
            }
          }
        }
      } else {
        forall i | 0 <= i < |es|
          ensures !WithinDist(at, es[i].pos, TargetRange)
        {
          if i > 0 {
            assert es[i] == es[1..][i - 1];
          }
        }
      }
    } else if es != [] {
      assert es[0] == FirstInRange(at, es).value;
    }
  }

  class GameScene {
    var gameState: GameState
    var enemies: seq<Sprite>
    var towers: seq<Sprite>
    /** The scores shown by the game-over alerts. */
    var alerts: seq<int>
    /** Coins spent on towers so far. */
    ghost var spent: int
    /** Enemies that reached the end so far. */
    ghost var reached: int

    /**
     * The coins are what is left of the starting coins after the towers
     * bought, never negative; the lives are the starting lives less one
     * per enemy that got through; and the game is over exactly when no
     * life is left.
     */
    ghost predicate Valid()
      reads this
    {
      && gameState.coins == StartingCoins - spent && spent >= 0 && gameState.coins >= 0
      && gameState.lives == StartingLives - reached && reached >= 0
      && (gameState.isGameOver <==> gameState.lives <= 0)
    }

    /** A fresh scene starts from a copy of the initial game state. */
    constructor ()
      ensures gameState == InitialGameState && enemies == [] && towers == [] && alerts == []
      ensures Valid()
    {
      gameState := InitialGameState;
      enemies := [];
      towers := [];
      alerts := [];
      spent := 0;
      reached := 0;
    }

    /**
     * `buildTower`: with enough coins and the game not over, the price is
     * paid and one tower is placed at the centre; otherwise nothing changes.
     */
    method BuildTower(towerType: SceneTower) returns (built: bool)
      requires Valid()
      modifies this`gameState, this`towers, this`spent
      ensures Valid()
      ensures built <==> old(gameState.coins) >= TowerCost(towerType) && !old(gameState.isGameOver)
      ensures !built ==> unchanged(this)
      ensures built ==>
        gameState == old(gameState).(coins := old(gameState.coins) - TowerCost(towerType))
        && |towers| == |old(towers)| + 1 && towers[..|old(towers)|] == old(towers)
        && fresh(towers[|towers| - 1]) && towers[|towers| - 1].pos == Point(400.0, 300.0)
    {
      var cost := TowerCost(towerType);
      if gameState.coins >= cost && !gameState.isGameOver {
        gameState := gameState.(coins := gameState.coins - cost);
        spent := spent + cost;
        var tower := new Sprite(Point(400.0, 300.0));
        towers := towers + [tower];
        return true;
      }
      return false;
    }

    /** `spawnTestEnemy`: once the game is over nothing spawns; otherwise a new enemy enters on the right. */
    method SpawnTestEnemy()
      modifies this`enemies
      ensures old(gameState.isGameOver) ==> enemies == old(enemies)
      ensures !old(gameState.isGameOver) ==>
        |enemies| == |old(enemies)| + 1 && enemies[..|old(enemies)|] == old(enemies)
        && fresh(enemies[|enemies| - 1]) && enemies[|enemies| - 1].pos == Point(800.0, 100.0)
    {
      if gameState.isGameOver {
        return;
      }
      var enemy := new Sprite(Point(800.0, 100.0));
      enemies := enemies + [enemy];
    }

    /**
     * `enemyReachedEnd` (the end of an enemy's walk): the enemy is destroyed
     * and dropped from the list, one life is lost, and the game is over
     * once no life is left, announced again on every later arrival.
     */
    method EnemyReachedEnd(enemy: Sprite)
      requires Valid()
      modifies enemy, this`enemies, this`gameState, this`reached, this`alerts
      ensures Valid()
      ensures enemy.destroyed && enemy.pos == old(enemy.pos)
      ensures enemies == Without(old(enemies), enemy)
      ensures gameState == old(gameState).(lives := old(gameState.lives) - 1, isGameOver := gameState.isGameOver)
      ensures gameState.isGameOver <==> old(gameState.lives) <= 1
      ensures alerts == old(alerts) + (if gameState.isGameOver then [gameState.score] else [])
    {
      enemy.destroyed := true;
      enemies := Without(enemies, enemy);
      gameState := gameState.(lives := gameState.lives - 1);
      reached := reached + 1;
      if gameState.lives <= 0 {
        GameOver();
      }
    }

    /** `gameOver`: marks the game over and shows the score. */
    method GameOver()
      modifies this`gameState, this`alerts
      ensures gameState == old(gameState).(isGameOver := true)
      ensures alerts == old(alerts) + [gameState.score]
    {
      gameState := gameState.(isGameOver := true);
      alerts := alerts + [gameState.score];
    }

    /** `findTargetInRange`: the first enemy, in list order, within 150 of the tower. */
    method FindTargetInRange(tower: Sprite) returns (r: Option<Sprite>)
      ensures r == FirstInRange(tower.pos, enemies)
    {
      var i := 0;
      while i < |enemies|
        invariant 0 <= i <= |enemies|
        invariant FirstInRange(tower.pos, enemies) == FirstInRange(tower.pos, enemies[i..])
      {
        if WithinDist(tower.pos, enemies[i].pos, TargetRange) {
          return Some(enemies[i]);
        }
        assert enemies[i..][1..] == enemies[i + 1..];
        i := i + 1;
      }
      return None;
    }
  }
}
