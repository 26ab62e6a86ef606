// src/game/systems/TowerSystem.ts: the towers on the map, their placement,
// upgrade, sale and selection, and the per-frame update. The events the
// system emits are kept as an appended trace; a tower is identified by its
// reference rather than by its generated id.
module TowerSystems {
  import opened Common
  import opened Enemies
  import opened Projectiles
  import opened Towers

  /** Smallest allowed distance between two towers. */
  const BuildRadius: real := 30.0
  /** A click selects a tower closer than this. */
  const ClickRadius: real := 25.0

  datatype SystemEvent =
    | TowerBuilt(tower: Tower, kind: string, at: Point, cost: int)
    | TowerUpgradedBy(tower: Tower, oldLevel: int, newLevel: int, cost: int)
    | TowerSold(tower: Tower, refund: int)

  /** The first tower closer to `at` than `radius`, in list order. */
  function FirstNear(ts: seq<Tower>, at: Point, radius: real): (r: Option<Tower>)
  {
    if ts == [] then None
    else if CloserThan(at, ts[0].pos, radius) then Some(ts[0])
    else FirstNear(ts[1..], at, radius)
  }

  /** There is none exactly when no tower is that close; otherwise it is the first one that is. */
  lemma {:induction false} FirstNearMeaning(ts: seq<Tower>, at: Point, radius: real)
    ensures FirstNear(ts, at, radius).None? <==> forall i :: 0 <= i < |ts| ==> !CloserThan(at, ts[i].pos, radius)
    ensures FirstNear(ts, at, radius).Some? ==>
      exists i :: 0 <= i < |ts| && ts[i] == FirstNear(ts, at, radius).value && CloserThan(at, ts[i].pos, radius)
                  && forall j :: 0 <= j < i ==> !CloserThan(at, ts[j].pos, radius)
  {
    if ts != [] && !CloserThan(at, ts[0].pos, radius) {
      FirstNearMeaning(ts[1..], at, radius);
      if FirstNear(ts, at, radius).Some? {
        var i :| 0 <= i < |ts[1..]| && ts[1..][i] == FirstNear(ts, at, radius).value
          && CloserThan(at, ts[1..][i].pos, radius)
          && forall j :: 0 <= j < i ==> !CloserThan(at, ts[1..][j].pos, radius);
        assert ts[i + 1] == FirstNear(ts, at, radius).value;
        assert forall j :: 0 < j <= i ==> ts[j] == ts[1..][j - 1];
      }
    } else if ts != [] {
      assert ts[0] == FirstNear(ts, at, radius).value;
    }
  }

  /** A point that selects a tower is too close to it to build on. */
  lemma {:induction false} ClickedMeansOccupied(ts: seq<Tower>, at: Point)
    ensures FirstNear(ts, at, ClickRadius).Some? ==> FirstNear(ts, at, BuildRadius).Some?
  {
    if ts != [] {
      SqMonotone(ClickRadius, BuildRadius);
      ClickedMeansOccupied(ts[1..], at);
    }
  }

  /** No tower stands closer than the build radius to a tower built before it. */
  ghost predicate Spaced(ts: seq<Tower>)
  {
    forall i, j :: 0 <= i < j < |ts| ==> !CloserThan(ts[j].pos, ts[i].pos, BuildRadius)
  }

  lemma SpacedDrop(ts: seq<Tower>, k: nat)
    requires Spaced(ts) && k < |ts|
    ensures Spaced(ts[..k] + ts[k + 1..])
  {
    var r := ts[..k] + ts[k + 1..];
    forall i, j | 0 <= i < j < |r|
      ensures !CloserThan(r[j].pos, r[i].pos, BuildRadius)
    {
      var i', j' := if i < k then i else i + 1, if j < k then j else j + 1;
      assert r[i] == ts[i'] && r[j] == ts[j'];
    }
  }

  /** Spaced towers stand apart, so no tower is listed twice. */
  lemma SpacedDistinct(ts: seq<Tower>)
    requires Spaced(ts)
    ensures forall i, j :: 0 <= i < j < |ts| ==> ts[i] != ts[j]
  {
    forall i, j | 0 <= i < j < |ts|
      ensures ts[i] != ts[j]
    {
      assert DistSq(ts[j].pos, ts[j].pos) == 0.0;
    }
  }

  /**
   * What one frame's `update` did to tower `t`: a tower still cooling down
   * is untouched; a ready one now targets the closest enemy in range, as the
   * scene stood before the frame, and attacked it at `now` with its damage,
   * or has no target and kept its time stamp and events.
   */
  twostate predicate Served(t: Tower, enemies: seq<Enemy>, now: real)
    reads t
  {
    if old(t.Ready(now)) then
      t.currentTarget == old(Pick(Closest, t.pos, InRange(t.pos, t.config.range, enemies)))
      && (t.currentTarget.None? ==> t.lastAttackTime == old(t.lastAttackTime) && t.events == old(t.events))
      && (t.currentTarget.Some? ==>
            t.lastAttackTime == now && t.events == old(t.events) + [TowerAttack(t.currentTarget.value, old(t.config.damage))])
    else
      t.lastAttackTime == old(t.lastAttackTime) && t.events == old(t.events) && t.currentTarget == old(t.currentTarget)
  }

  /** Removing a tower keeps the others spaced. */
  lemma SpacedRemove(ts: seq<Tower>, t: Tower)
    requires Spaced(ts)
    ensures Spaced(RemoveFirst(ts, t))
  {
    var k := IndexOf(ts, t);
    if k > -1 {
      SpacedDrop(ts, k);
    }
  }

  class TowerSystem {
    var towers: seq<Tower>
    var configs: map<string, TowerConfig>
    var selected: Option<Tower>
    const projectileSystem: ProjectileSystem
    var events: seq<SystemEvent>

    /** Every tower fires through this system's projectiles, and towers were placed apart. */
    ghost predicate Valid()
      reads this
    {
      (forall t :: t in towers ==> t.projectileSystem == projectileSystem)
      && Spaced(towers)
    }

    constructor (projectileSystem: ProjectileSystem)
      ensures this.projectileSystem == projectileSystem
      ensures towers == [] && configs == map[] && selected.None? && events == []
      ensures Valid()
    {
      this.projectileSystem := projectileSystem;
      towers := [];
      configs := map[];
      selected := None;
      events := [];
    }

    /** Stores every loaded type, later entries replacing earlier ones. */
    method LoadTowerConfigs(loaded: map<string, TowerConfig>)
      modifies this`configs
      ensures configs == old(configs) + loaded
    {
      configs := configs + loaded;
    }

    /**
     * `buildTower`: an unknown type or a spot closer than 30 to a tower gives
     * none and changes nothing; otherwise a new level-1 tower sharing the
     * type's configuration is appended and TOWER_BUILT reports the price.
     */
    method BuildTower(kind: string, at: Point) returns (r: Option<Tower>)
      requires Valid()
      modifies this`towers, this`events
      ensures Valid()
      ensures kind !in configs || FirstNear(old(towers), at, BuildRadius).Some? ==>
        r.None? && towers == old(towers) && events == old(events)
      ensures kind in configs && FirstNear(old(towers), at, BuildRadius).None? ==>
        r.Some? && fresh(r.value)
        && r.value.pos == at && r.value.kind == kind && r.value.config == configs[kind]
        && r.value.projectileSystem == projectileSystem
        && r.value.level == 1 && r.value.currentTarget.None? && r.value.lastAttackTime == 0.0
        && towers == old(towers) + [r.value]
        && events == old(events) + [TowerBuilt(r.value, kind, at, configs[kind].cost)]
    {
      if kind !in configs {
        return None;
      }
      var config := configs[kind];
      var ok := CanBuildAt(at);
      if !ok {
        return None;
      }
      FirstNearMeaning(towers, at, BuildRadius);
      var tower := new Tower(at, kind, config, projectileSystem);
      towers := towers + [tower];
      events := events + [TowerBuilt(tower, kind, at, config.cost)];
      r := Some(tower);
    }

    /** `canBuildAt`: no tower is closer than the build radius. */
    method CanBuildAt(at: Point) returns (ok: bool)
      ensures ok <==> FirstNear(towers, at, BuildRadius).None?
    {
      FirstNearMeaning(towers, at, BuildRadius);
      for i := 0 to |towers|
        invariant forall j :: 0 <= j < i ==> !CloserThan(at, towers[j].pos, BuildRadius)
      {
        if CloserThan(at, towers[i].pos, BuildRadius) {
          return false;
        }
      }
      return true;
    }

    /**
     * `upgradeTower`: no tower gives false. Otherwise the tower upgrades
     * itself, and on success TOWER_UPGRADED is emitted with the price of the
     * level after the new one, read after the level changed.
     */
    method UpgradeTower(tower: Option<Tower>) returns (ok: bool)
      modifies this`events
      modifies if tower.Some? then {tower.value} else {}
      modifies if tower.Some? then {tower.value.config} else {}
      ensures tower.None? ==> !ok && events == old(events)
      ensures tower.Some? ==>
        var t := tower.value;
        var u := FindUpgrade(t.config.upgrades, old(t.level) + 1);
        ok == u.Some?
        && (!ok ==> t.level == old(t.level) && events == old(events) && unchanged(t, t.config))
        && (ok ==> t.level == old(t.level) + 1
                   && t.events == old(t.events) + [TowerUpgraded(old(t.level), t.level, u.value.cost)]
                   && events == old(events) + [TowerUpgradedBy(t, t.level - 1, t.level, UpgradeCost(t.config.upgrades, t.level))])
    {
      if tower.None? {
        return false;
      }
      var t := tower.value;
      ok := t.Upgrade();
      if ok {
        events := events + [TowerUpgradedBy(t, t.level - 1, t.level, t.GetUpgradeCost())];
      }
    }

    /**
     * `sellTower`: no tower gives 0. Otherwise the refund is the tower's sell
     * price; the tower leaves the list, stops being selected, is destroyed,
     * and TOWER_SOLD reports the refund.
     */
    method SellTower(tower: Option<Tower>) returns (refund: int)
      requires Valid()
      modifies this`towers, this`selected, this`events
      modifies if tower.Some? then {tower.value} else {}
      ensures Valid()
      ensures tower.None? ==>
        refund == 0 && towers == old(towers) && selected == old(selected) && events == old(events)
      ensures tower.Some? ==>
        var t := tower.value;
        refund == SellPrice(t.config.cost, t.config.upgrades, old(t.level))
        && towers == RemoveFirst(old(towers), t)
        && selected == (if old(selected) == Some(t) then None else old(selected))
        && t.destroyed && t.level == old(t.level)
        && events == old(events) + [TowerSold(t, refund)]
    {
      if tower.None? {
        return 0;
      }
      var t := tower.value;
      refund := t.GetSellPrice();
      Unlist(t);
      t.Destroy();
      events := events + [TowerSold(t, refund)];
    }

    /** Takes the tower out of the list at its first position, if it is there, and out of the selection. */
    method Unlist(t: Tower)
      requires Valid()
      modifies this`towers, this`selected
      ensures Valid()
      ensures towers == RemoveFirst(old(towers), t)
      ensures selected == if old(selected) == Some(t) then None else old(selected)
    {
      SpacedRemove(towers, t);
      var rest := RemoveFirst(towers, t);
      assert forall x :: x in rest ==> x in multiset(towers);
      towers := rest;
      if selected == Some(t) {
        selected := None;
      }
    }

    /** `selectTower`: hides the range of the tower selected before, then selects the given one and shows its range. */
    method SelectTower(tower: Option<Tower>)
      modifies this`selected
      modifies (if selected.Some? then {selected.value} else {})`rangeVisible
      modifies (if tower.Some? then {tower.value} else {})`rangeVisible
      ensures selected == tower
      ensures tower.Some? ==> tower.value.rangeVisible
      ensures old(selected).Some? && old(selected) != tower ==> !old(selected).value.rangeVisible
      ensures old(selected).Some? ==> unchanged(old(selected).value`level, old(selected).value`destroyed)
      ensures tower.Some? ==> unchanged(tower.value`level, tower.value`destroyed)
    {
      if selected.Some? {
        selected.value.HideRange();
      }
      selected := tower;
      if tower.Some? {
        tower.value.ShowRange();
      }
    }

    /** `getTowerAt`: the first tower closer than the click radius, or none. */
    method GetTowerAt(at: Point) returns (r: Option<Tower>)
      ensures r == FirstNear(towers, at, ClickRadius)
    {
      for i := 0 to |towers|
        invariant FirstNear(towers, at, ClickRadius) == FirstNear(towers[i..], at, ClickRadius)
      {
        assert towers[i..][1..] == towers[i + 1..];
        if CloserThan(at, towers[i].pos, ClickRadius) {
          return Some(towers[i]);
        }
      }
      return None;
    }

    /**
     * `update`: every tower in list order is updated with the same time. The
     * towers' hits change no enemy's position or presence, so each ready
     * tower picks from the scene as it stood when the frame began.
     */
    method Update(enemies: seq<Enemy>, now: real)
      requires Valid() && projectileSystem.Valid() && projectileSystem.Unarmed()
      requires forall e :: e in enemies ==> e.Valid()
      modifies towers, projectileSystem, projectileSystem.pool, projectileSystem.effectSystem, enemies
      ensures projectileSystem.Valid() && projectileSystem.Unarmed()
      ensures forall e :: e in enemies ==> e.Valid() && e.active == old(e.active) && e.pos == old(e.pos)
      ensures forall t :: t in towers ==> Served(t, enemies, now)
    {
      var ts := towers;
      SpacedDistinct(ts);
      for i := 0 to |ts|
        invariant ts == towers && forall t :: t in ts ==> t.projectileSystem == projectileSystem
        invariant projectileSystem.Valid() && projectileSystem.Unarmed()
        invariant (forall e :: e in enemies ==> e.Valid()) && Unmoved(enemies)
        invariant forall k :: 0 <= k < |projectileSystem.pool| ==>
          projectileSystem.pool[k] in old(projectileSystem.pool) || fresh(projectileSystem.pool[k])
        invariant forall k :: 0 <= k < i ==> Served(ts[k], enemies, now)
        invariant forall k :: i <= k < |ts| ==>
          ts[k].lastAttackTime == old(ts[k].lastAttackTime) && ts[k].events == old(ts[k].events)
          && ts[k].currentTarget == old(ts[k].currentTarget)
      {
        var t := ts[i];
        assert Pick(Closest, t.pos, InRange(t.pos, t.config.range, enemies))
            == old(Pick(Closest, t.pos, InRange(t.pos, t.config.range, enemies))) by {
          t.TargetStable(enemies);
        }
        assert forall k :: 0 <= k < |ts| && k != i ==> ts[k] != t;
        UpdateTower(t, enemies, now);
        assert Served(t, enemies, now);
      }
    }

    /** One step of the `forEach`: the tower updates itself with the frame's time. */
    method UpdateTower(t: Tower, enemies: seq<Enemy>, now: real)
      requires t.projectileSystem == projectileSystem && projectileSystem.Valid() && projectileSystem.Unarmed()
      requires forall e :: e in enemies ==> e.Valid()
      modifies t`currentTarget, t`lastAttackTime, t`events
      modifies projectileSystem, projectileSystem.pool, projectileSystem.effectSystem, enemies
      ensures projectileSystem.Valid() && projectileSystem.Unarmed()
      ensures forall k :: 0 <= k < |projectileSystem.pool| ==>
        projectileSystem.pool[k] in old(projectileSystem.pool) || fresh(projectileSystem.pool[k])
      ensures (forall e :: e in enemies ==> e.Valid()) && Unmoved(enemies)
      ensures Served(t, enemies, now)
    {
      var shot := t.Update(enemies, now);
    }

    function GetTowers(): seq<Tower>
      reads this
    {
      towers
    }

    function GetSelectedTower(): Option<Tower>
      reads this
    {
      selected
    }

    function GetTowerConfig(kind: string): (c: Option<TowerConfig>)
      reads this
      ensures c.Some? <==> kind in configs
      ensures c.Some? ==> c.value == configs[kind]
    {
      if kind in configs then Some(configs[kind]) else None
    }

    /** `clearAll`: destroys every tower, then empties the list and the selection. */
    method ClearAll()
      modifies this`towers, this`selected, towers
      ensures towers == [] && selected.None?
      ensures forall t :: t in old(towers) ==> t.destroyed && t.level == old(t.level)
      ensures Valid()
    {
      var ts := towers;
      for i := 0 to |ts|
        invariant forall j :: 0 <= j < i ==> ts[j].destroyed
        invariant forall t :: t in ts ==> t.level == old(t.level)
      {
        ts[i].Destroy();
      }
      towers := [];
      selected := None;
    }
  }
}
