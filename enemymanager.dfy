// src/game/managers/EnemyManager.ts: the registry of live enemies. Enemy
// configurations arrive already parsed; the events the manager emits are kept
// as an appended trace. The enemy's own `reachedEnd` and `died` events reach
// the manager as calls of the two handlers.
module EnemyManagers {
  import opened Common
  import opened Enemies

  /** One entry of the enemy configuration file. */
  datatype EnemyConfig = EnemyConfig(health: real, speed: real, bounty: int)

  datatype ManagerEvent =
    | EnemySpawned(enemy: Enemy)
    | EnemyReachedEnd(enemy: Enemy)
    | EnemyDied(kind: EnemyType, bounty: int)

  /** Why `createEnemy` produced no enemy: null for an unknown type, a thrown TypeError for a missing start point. */
  datatype CreateError = UnknownType | NoStartPoint

  /** The type switch on the lower-cased name; anything unknown is a slow enemy. */
  function StringToEnemyType(name: string): (k: EnemyType)
    ensures k == Fast <==> Lower(name) == "fast"
    ensures k == Tank <==> Lower(name) == "tank"
    ensures k == Swarm <==> Lower(name) == "swarm"
    ensures k == Slow <==> Lower(name) != "fast" && Lower(name) != "tank" && Lower(name) != "swarm"
  {
    match Lower(name)
    case "slow" => Slow
    case "fast" => Fast
    case "tank" => Tank
    case "swarm" => Swarm
    case _ => Slow
  }

  /** Lower-casing the name first does not change the type it maps to. */
  lemma StringToEnemyTypeCaseInsensitive(name: string)
    ensures StringToEnemyType(Lower(name)) == StringToEnemyType(name)
  {
    LowerIdempotent(name);
  }

  lemma UpperCaseNamesAreKnown()
    ensures StringToEnemyType("TANK") == Tank
    ensures StringToEnemyType("Swarm") == Swarm
    ensures StringToEnemyType("boss") == Slow
  {
    assert Lower("TANK") == "tank";
    assert Lower("Swarm") == "swarm";
    assert Lower("boss") == "boss";
  }

  /**
   * `x ?? path.waypoints[0].x` and the same for y. Reading the first waypoint
   * of an empty path throws, which is reported as no start point.
   */
  function StartPoint(path: seq<Point>, x: Option<real>, y: Option<real>): (p: Option<Point>)
    ensures p.None? <==> path == [] && (x.None? || y.None?)
    ensures p.Some? && x.Some? ==> p.value.x == x.value
    ensures p.Some? && x.None? ==> p.value.x == path[0].x
    ensures p.Some? && y.Some? ==> p.value.y == y.value
    ensures p.Some? && y.None? ==> p.value.y == path[0].y
  {
    if path == [] && (x.None? || y.None?) then None
    else
      var px := if x.Some? then x.value else path[0].x;
      var py := if y.Some? then y.value else path[0].y;
      Some(Point(px, py))
  }

  class EnemyManager {
    var enemies: seq<Enemy>
    var configs: map<string, EnemyConfig>
    var events: seq<ManagerEvent>

    constructor ()
      ensures enemies == [] && configs == map[] && events == []
    {
      enemies := [];
      configs := map[];
      events := [];
    }

    /** Stores every parsed entry, later entries replacing earlier ones of the same type. */
    method LoadEnemyConfigs(loaded: map<string, EnemyConfig>)
      modifies this`configs
      ensures configs == old(configs) + loaded
    {
      configs := configs + loaded;
    }

    /**
     * What `createEnemy(name, path, x, y)` left: for a configured type with a
     * start point, one new active enemy of that type, with the configured
     * health and speed, at the start of `path`, registered last and announced
     * by ENEMY_SPAWNED; otherwise nothing changed.
     */
    twostate predicate Spawned(name: string, path: seq<Point>, x: Option<real>, y: Option<real>)
      reads this, enemies
    {
      if name in configs && StartPoint(path, x, y).Some? then
        |enemies| == |old(enemies)| + 1
        && var e := enemies[|enemies| - 1];
        fresh(e) && enemies == old(enemies) + [e] && events == old(events) + [EnemySpawned(e)]
        && e.data == EnemyData(StringToEnemyType(name), configs[name].health, configs[name].health,
                               configs[name].speed, 0, path)
        && e.pos == StartPoint(path, x, y).value && e.active && e.Valid()
      else
        enemies == old(enemies) && events == old(events)
    }

    /**
     * Creates an enemy of a configured type at the given or the path's first
     * point, registers it and emits ENEMY_SPAWNED; an unknown type or a missing
     * start point changes nothing.
     */
    method CreateEnemy(name: string, path: seq<Point>, x: Option<real>, y: Option<real>)
      returns (r: Result<Enemy, CreateError>)
      modifies this`enemies, this`events
      ensures name !in configs ==> r == Failure(UnknownType)
      ensures name in configs && StartPoint(path, x, y).None? ==> r == Failure(NoStartPoint)
      ensures r.Failure? ==> enemies == old(enemies) && events == old(events)
      ensures r.Success? <==> name in configs && StartPoint(path, x, y).Some?
      ensures r.Success? ==>
        fresh(r.value)
        && enemies == old(enemies) + [r.value]
        && events == old(events) + [EnemySpawned(r.value)]
      ensures r.Success? ==>
        var c := configs[name];
        r.value.data == EnemyData(StringToEnemyType(name), c.health, c.health, c.speed, 0, path)
        && r.value.pos == StartPoint(path, x, y).value
        && r.value.active && r.value.Valid()
      ensures Spawned(name, path, x, y)
    {
      if name !in configs {
        return Failure(UnknownType);
      }
      var config := configs[name];
      var start := StartPoint(path, x, y);
      if start.None? {
        return Failure(NoStartPoint);
      }
      var kind := StringToEnemyType(name);
      var enemy := new Enemy(start.value, kind, config.health, config.speed, path);
      enemies := enemies + [enemy];
      events := events + [EnemySpawned(enemy)];
      return Success(enemy);
    }

    /** The `reachedEnd` handler: unregisters the enemy, then emits ENEMY_REACHED_END. */
    method HandleEnemyReachedEnd(enemy: Enemy)
      modifies this`enemies, this`events
      ensures enemies == Without(old(enemies), enemy)
      ensures events == old(events) + [EnemyReachedEnd(enemy)]
    {
      RemoveEnemy(enemy);
      events := events + [EnemyReachedEnd(enemy)];
    }

    /** The `died` handler, with the bounty of the enemy's configuration: unregisters the enemy, then emits ENEMY_DIED. */
    method HandleEnemyDied(enemy: Enemy, bounty: int)
      modifies this`enemies, this`events
      ensures enemies == Without(old(enemies), enemy)
      ensures events == old(events) + [EnemyDied(enemy.data.kind, bounty)]
    {
      var kind := enemy.data.kind;
      RemoveEnemy(enemy);
      events := events + [EnemyDied(kind, bounty)];
    }

    method RemoveEnemy(enemy: Enemy)
      modifies this`enemies
      ensures enemies == Without(old(enemies), enemy)
    {
      enemies := Without(enemies, enemy);
    }

    /** The registered enemies that are still active, in list order. */
    function GetEnemies(): (r: seq<Enemy>)
      reads this, enemies
      ensures forall i :: 0 <= i < |r| ==> r[i] in enemies && r[i].active
      ensures forall i :: 0 <= i < |enemies| && enemies[i].active ==> enemies[i] in r
    {
      ActiveOf(enemies)
    }

    function GetEnemyCount(): (n: nat)
      reads this, enemies
      ensures n <= |enemies|
      ensures n == 0 <==> forall i :: 0 <= i < |enemies| ==> !enemies[i].active
    {
      var r := GetEnemies();
      if r != [] then
        assert r[0] in enemies;
        |r|
      else |r|
    }

    /** Destroys every registered enemy that is still active, then empties the list. */
    method ClearAll()
      modifies this`enemies, enemies
      ensures enemies == []
      ensures forall e :: e in old(enemies) ==> !e.active
      ensures forall e :: e in old(enemies) && old(e.active) ==> !e.moving && !e.dying
      ensures forall e :: e in old(enemies) && !old(e.active) ==>
        e.moving == old(e.moving) && e.dying == old(e.dying)
      ensures forall e :: e in old(enemies) ==>
        e.data == old(e.data) && e.pos == old(e.pos) && e.events == old(e.events)
        && e.deathTweens == old(e.deathTweens)
    {
      var es := enemies;
      for i := 0 to |es|
        invariant enemies == es
        invariant forall j :: 0 <= j < i ==> !es[j].active
        invariant forall e :: e in es ==>
          e.data == old(e.data) && e.pos == old(e.pos) && e.events == old(e.events)
          && e.deathTweens == old(e.deathTweens)
        invariant forall e :: e in es ==>
          (e.active == old(e.active) && e.moving == old(e.moving) && e.dying == old(e.dying))
          || (old(e.active) && !e.active && !e.moving && !e.dying)
      {
        if es[i].active {
          es[i].Destroy();
        }
      }
      enemies := [];
    }

    function GetEnemyConfig(name: string): (c: Option<EnemyConfig>)
      reads this
      ensures c.Some? <==> name in configs
      ensures c.Some? ==> c.value == configs[name]
    {
      if name in configs then Some(configs[name]) else None
    }
  }
}
