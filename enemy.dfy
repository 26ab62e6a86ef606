// src/game/objects/Enemy.ts: an enemy's record (health, speed, waypoint
// index), the damage it takes, and the waypoint state machine that tweens it
// from one waypoint to the next. Tweens become explicit completion methods
// that the scene's clock calls.
module Enemies {
  import opened Common

  /** The enemy types; `Swarm` stands for `EnemyType.SWARM`, which the enum lacks, so that value is `undefined`. */
  datatype EnemyType = Slow | Fast | Tank | Swarm

  /** The source's `EnemyData` record. */
  datatype EnemyData = EnemyData(
    kind: EnemyType,
    health: real,
    maxHealth: real,
    speed: real,
    currentWaypointIndex: int,
    path: seq<Point>)

  datatype EnemyEvent = ReachedEnd | Died

  /** The waypoint index stays on the path, and a segment runs only while a next waypoint exists. */
  predicate OnPath(data: EnemyData, moving: bool)
  {
    0 <= data.currentWaypointIndex
    && (|data.path| > 0 ==> data.currentWaypointIndex <= |data.path| - 1)
    && (|data.path| == 0 ==> data.currentWaypointIndex == 0)
    && (moving ==> data.currentWaypointIndex < |data.path| - 1)
  }

  /** `enemies.filter(e => e.active)`: the enemies still in the scene, in list order. */
  function ActiveOf(es: seq<Enemy>): (r: seq<Enemy>)
    reads set e | e in es
    ensures forall i :: 0 <= i < |r| ==> r[i] in es && r[i].active
    ensures forall i :: 0 <= i < |es| && es[i].active ==> es[i] in r
    ensures |r| <= |es|
  {
    if es == [] then [] else (if es[0].active then [es[0]] else []) + ActiveOf(es[1..])
  }

  /** Filtering distributes over concatenation, so the filter keeps list order. */
  lemma {:induction false} ActiveOfAppend(s: seq<Enemy>, t: seq<Enemy>)
    ensures ActiveOf(s + t) == ActiveOf(s) + ActiveOf(t)
  {
    if s == [] {
      assert s + t == t;
    } else {
      assert (s + t)[1..] == s[1..] + t;
      ActiveOfAppend(s[1..], t);
    }
  }

  /** The fields of an enemy that its methods change. */
  datatype EnemySnap = EnemySnap(active: bool, data: EnemyData, deathTweens: nat, moving: bool, dying: bool,
                                 pos: Point, events: seq<EnemyEvent>)

  function Snap(en: Enemy): EnemySnap
    reads en
  {
    EnemySnap(en.active, en.data, en.deathTweens, en.moving, en.dying, en.pos, en.events)
  }

  /**
   * One `takeDamage(d)` since the enemy was in state `s`: health lowered by
   * exactly d, a kill restarting the death tween; speed may have been changed
   * by others.
   */
  ghost predicate HitFrom(e: Enemy, d: real, s: EnemySnap)
    reads e
  {
    var killed := e.data.health <= 0.0;
    e.data == s.data.(health := s.data.health - d, speed := e.data.speed)
    && e.deathTweens == s.deathTweens + (if killed then 1 else 0)
    && e.moving == (s.moving && !killed) && e.dying == (s.dying || killed)
    && e.pos == s.pos && e.active == s.active && e.events == s.events
  }

  /** One `takeDamage(d)` between the two states. */
  twostate predicate HitOnce(e: Enemy, d: real)
    reads e
  {
    HitFrom(e, d, old(Snap(e)))
  }

  class Enemy {
    var data: EnemyData
    var pos: Point
    /** Phaser's `active` flag: false once the game object is destroyed. */
    var active: bool
    /** A tween towards the next waypoint is running. */
    var moving: bool
    /** The death tween is running. */
    var dying: bool
    /** How many times `die` has started the death tween. */
    var deathTweens: nat
    /** The `reachedEnd` and `died` events, in emission order. */
    var events: seq<EnemyEvent>

    ghost predicate Valid()
      reads this
    {
      OnPath(data, moving)
    }

    constructor (p: Point, kind: EnemyType, health: real, speed: real, path: seq<Point>)
      ensures Valid()
      ensures data == EnemyData(kind, health, health, speed, 0, path)
      ensures pos == p && active && !dying && deathTweens == 0
      ensures moving == (|path| > 1)
      ensures events == if |path| <= 1 then [ReachedEnd] else []
    {
      data := EnemyData(kind, health, health, speed, 0, path);
      pos := p;
      active := true;
      moving := false;
      dying := false;
      deathTweens := 0;
      events := [];
      new;
      MoveToNextWaypoint();
    }

    /** Starts the next segment, or reports the end of the path. */
    method MoveToNextWaypoint()
      requires Valid() && !moving
      modifies this`moving, this`events
      ensures Valid()
      ensures data.currentWaypointIndex >= |data.path| - 1 ==> !moving && events == old(events) + [ReachedEnd]
      ensures data.currentWaypointIndex < |data.path| - 1 ==> moving && events == old(events)
    {
      if data.currentWaypointIndex >= |data.path| - 1 {
        events := events + [ReachedEnd];
      } else {
        moving := true;
      }
    }

    /** The segment tween finished: the enemy stands on the next waypoint and moves on. */
    method SegmentCompleted()
      requires Valid() && moving
      modifies this
      ensures Valid()
      ensures data == old(data).(currentWaypointIndex := old(data.currentWaypointIndex) + 1)
      ensures pos == old(data.path)[old(data.currentWaypointIndex) + 1]
      ensures active == old(active) && dying == old(dying) && deathTweens == old(deathTweens)
      ensures data.currentWaypointIndex == |data.path| - 1 ==> !moving && events == old(events) + [ReachedEnd]
      ensures data.currentWaypointIndex < |data.path| - 1 ==> moving && events == old(events)
    {
      pos := data.path[data.currentWaypointIndex + 1];
      moving := false;
      data := data.(currentWaypointIndex := data.currentWaypointIndex + 1);
      MoveToNextWaypoint();
    }

    /** Lowers health by exactly `damage`; every call that leaves health at or below 0 reports a kill and restarts the death tween. */
    method TakeDamage(damage: real) returns (killed: bool)
      modifies this
      ensures old(Valid()) ==> Valid()
      ensures data == old(data).(health := old(data.health) - damage)
      ensures killed <==> data.health <= 0.0
      ensures deathTweens == old(deathTweens) + (if killed then 1 else 0)
      ensures moving == (old(moving) && !killed)
      ensures dying == (old(dying) || killed)
      ensures pos == old(pos) && active == old(active) && events == old(events)
    {
      data := data.(health := data.health - damage);
      if data.health <= 0.0 {
        Die();
        killed := true;
      } else {
        killed := false;
      }
    }

    /** Stops every tween of the enemy and starts the death tween. */
    method Die()
      modifies this`moving, this`dying, this`deathTweens
      ensures old(Valid()) ==> Valid()
      ensures !moving && dying && deathTweens == old(deathTweens) + 1
    {
      moving := false;
      dying := true;
      deathTweens := deathTweens + 1;
    }

    /** The death tween finished: `died` is emitted and the object destroyed. */
    method DeathTweenCompleted()
      requires Valid() && dying
      modifies this`events, this`active, this`moving, this`dying
      ensures Valid()
      ensures events == old(events) + [Died]
      ensures !active && !moving && !dying
    {
      events := events + [Died];
      Destroy();
    }

    /** Kills the enemy's tweens and destroys the game object. */
    method Destroy()
      modifies this`active, this`moving, this`dying
      ensures !active && !moving && !dying
      ensures old(Valid()) ==> Valid()
    {
      active := false;
      moving := false;
      dying := false;
    }
  }
}
