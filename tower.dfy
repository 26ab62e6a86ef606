// src/game/objects/Tower.ts: a tower's cooldown, target selection, attack,
// upgrade and prices. Positions are compared through squared distances, which
// order the same way as `Phaser.Math.Distance.Between`. The rotation towards
// the target, the level label and the range circle are drawing only; the
// range circle is kept as the `rangeVisible` flag.
module Towers {
  import opened Common
  import opened Enemies
  import opened Projectiles

  datatype TargetStrategy = Closest | Strongest | First | Weakest

  datatype TowerEffect = Slowing | Poisoning | Splashing

  /** An entry of `upgrades`: the level it leads to, the stats it overrides when given, and its price. */
  datatype TowerUpgrade = TowerUpgrade(level: int, damage: Option<real>, range: Option<real>,
                                       attackSpeed: Option<real>, cost: int)

  datatype TowerEvent =
    | TowerAttack(target: Enemy, damage: real)
    | TowerUpgraded(oldLevel: int, newLevel: int, cost: int)

  /**
   * A tower type's configuration. Every tower of a type holds the same
   * object, and `upgrade` writes the new damage, range and attack speed into
   * it. Absent `upgrades` and `effects` lists are empty.
   */
  class TowerConfig {
    const name: string
    var damage: real
    var range: real
    var attackSpeed: real
    const cost: int
    const projectile: ProjectileConfig
    const upgrades: seq<TowerUpgrade>
    const effects: seq<TowerEffect>
    const splashRadius: Option<real>
    const splashDamage: Option<real>
    const slowAmount: Option<real>
    const slowDuration: Option<real>
    const poisonDamage: Option<real>
    const poisonDuration: Option<real>
    const poisonStacks: Option<bool>

    constructor (name: string, damage: real, range: real, attackSpeed: real, cost: int,
                 projectile: ProjectileConfig, upgrades: seq<TowerUpgrade>, effects: seq<TowerEffect>,
                 splashRadius: Option<real>, splashDamage: Option<real>,
                 slowAmount: Option<real>, slowDuration: Option<real>,
                 poisonDamage: Option<real>, poisonDuration: Option<real>, poisonStacks: Option<bool>)
      ensures this.name == name && this.damage == damage && this.range == range
      ensures this.attackSpeed == attackSpeed && this.cost == cost && this.projectile == projectile
      ensures this.upgrades == upgrades && this.effects == effects
      ensures this.splashRadius == splashRadius && this.splashDamage == splashDamage
      ensures this.slowAmount == slowAmount && this.slowDuration == slowDuration
      ensures this.poisonDamage == poisonDamage && this.poisonDuration == poisonDuration
      ensures this.poisonStacks == poisonStacks
    {
      this.name := name;
      this.damage := damage;
      this.range := range;
      this.attackSpeed := attackSpeed;
      this.cost := cost;
      this.projectile := projectile;
      this.upgrades := upgrades;
      this.effects := effects;
      this.splashRadius := splashRadius;
      this.splashDamage := splashDamage;
      this.slowAmount := slowAmount;
      this.slowDuration := slowDuration;
      this.poisonDamage := poisonDamage;
      this.poisonDuration := poisonDuration;
      this.poisonStacks := poisonStacks;
    }
  }

  /**
   * `getTowerEffects`: the effect parameters of the listed effects, each
   * copied from the configuration (possibly still absent there); the others
   * stay absent. The object is always passed on, even when empty.
   */
  function TowerEffects(c: TowerConfig): HitEffects
    reads c
  {
    var slow := Slowing in c.effects;
    var splash := Splashing in c.effects;
    var poison := Poisoning in c.effects;
    HitEffects(
      if slow then c.slowAmount else None,
      if slow then c.slowDuration else None,
      if splash then c.splashRadius else None,
      if splash then c.splashDamage else None,
      if poison then c.poisonDamage else None,
      if poison then c.poisonDuration else None,
      if poison then c.poisonStacks else None)
  }

  /** A tower slows, poisons or splashes with what it carries only when its type lists that effect. */
  lemma EffectsNeedListing(c: TowerConfig, now: real)
    ensures SlowOf(Some(TowerEffects(c)), now).Some? ==>
      Slowing in c.effects && SlowOf(Some(TowerEffects(c)), now).value.amount == c.slowAmount.value
    ensures PoisonOf(Some(TowerEffects(c)), now).Some? ==>
      Poisoning in c.effects && PoisonOf(Some(TowerEffects(c)), now).value.damagePerSecond == c.poisonDamage.value
    ensures Truthy(TowerEffects(c).splashRadius) ==> Splashing in c.effects
    ensures Slowing in c.effects && Truthy(c.slowAmount) && Truthy(c.slowDuration) ==>
      SlowOf(Some(TowerEffects(c)), now).Some?
  {
  }

  /** `upgrades.find(u => u.level === level)`. */
  function FindUpgrade(ups: seq<TowerUpgrade>, level: int): (r: Option<TowerUpgrade>)
    ensures r.None? <==> forall i :: 0 <= i < |ups| ==> ups[i].level != level
    ensures r.Some? ==> exists i :: (0 <= i < |ups| && ups[i] == r.value && r.value.level == level
                                     && forall j :: 0 <= j < i ==> ups[j].level != level)
  {
    if ups == [] then None
    else if ups[0].level == level then Some(ups[0])
    else
      var r := FindUpgrade(ups[1..], level);
      if r.Some? then
        var i :| 0 <= i < |ups[1..]| && ups[1..][i] == r.value && r.value.level == level
          && forall j :: 0 <= j < i ==> ups[1..][j].level != level;
        assert ups[i + 1] == r.value;
        r
      else r
  }

  /** `getUpgradeCost`: the price of the entry for the next level, or 0 when there is none. */
  function UpgradeCost(ups: seq<TowerUpgrade>, level: int): (c: int)
    ensures FindUpgrade(ups, level + 1).Some? ==> c == FindUpgrade(ups, level + 1).value.cost
    ensures FindUpgrade(ups, level + 1).None? ==> c == 0
  {
    var u := FindUpgrade(ups, level + 1);
    if u.Some? then u.value.cost else 0
  }

  /** The summed price of the upgrades whose level is at most `level`. */
  function CostsUpTo(ups: seq<TowerUpgrade>, level: int): int
  {
    if ups == [] then 0
    else (if ups[0].level <= level then ups[0].cost else 0) + CostsUpTo(ups[1..], level)
  }

  /** `getSellPrice`: half of the base cost plus the upgrades up to the current level, rounded down. */
  function SellPrice(cost: int, ups: seq<TowerUpgrade>, level: int): (p: int)
    ensures 2 * p <= cost + CostsUpTo(ups, level) < 2 * p + 2
  {
    ((cost + CostsUpTo(ups, level)) as real * 0.5).Floor
  }

  /** With prices that are not negative, a higher level never sells for less. */
  lemma {:induction false} CostsUpToMonotone(ups: seq<TowerUpgrade>, l1: int, l2: int)
    requires l1 <= l2
    requires forall i :: 0 <= i < |ups| ==> ups[i].cost >= 0
    ensures 0 <= CostsUpTo(ups, l1) <= CostsUpTo(ups, l2)
  {
    if ups != [] {
      CostsUpToMonotone(ups[1..], l1, l2);
    }
  }

  lemma SellPriceMonotone(cost: int, ups: seq<TowerUpgrade>, l1: int, l2: int)
    requires l1 <= l2
    requires forall i :: 0 <= i < |ups| ==> ups[i].cost >= 0
    ensures SellPrice(cost, ups, l1) <= SellPrice(cost, ups, l2)
  {
    CostsUpToMonotone(ups, l1, l2);
  }

  /** Index k holds a smallest key and no earlier index ties it. */
  predicate FirstMin(keys: seq<real>, k: int)
  {
    0 <= k < |keys|
    && (forall j :: 0 <= j < |keys| ==> keys[k] <= keys[j])
    && forall j :: 0 <= j < k ==> keys[k] < keys[j]
  }

  /** Index k holds a largest key, above `floor`, and no earlier index ties it. */
  predicate FirstMaxAbove(keys: seq<real>, floor: real, k: int)
  {
    0 <= k < |keys| && floor < keys[k]
    && (forall j :: 0 <= j < |keys| ==> keys[j] <= keys[k])
    && forall j :: 0 <= j < k ==> keys[j] < keys[k]
  }

  function DistKeys(at: Point, es: seq<Enemy>): seq<real>
    reads es
  {
    seq(|es|, i requires 0 <= i < |es| reads es => DistSq(at, es[i].pos))
  }

  function HealthKeys(es: seq<Enemy>): seq<real>
    reads es
  {
    seq(|es|, i requires 0 <= i < |es| reads es => es[i].data.health)
  }

  function ProgressKeys(es: seq<Enemy>): seq<real>
    reads es
  {
    seq(|es|, i requires 0 <= i < |es| reads es => es[i].data.currentWaypointIndex as real)
  }

  /** The active enemies within `range` of `at`, in list order. */
  function InRange(at: Point, range: real, es: seq<Enemy>): seq<Enemy>
    reads es
  {
    if es == [] then []
    else
      var last := es[|es| - 1];
      InRange(at, range, es[..|es| - 1]) + if last.active && WithinDist(at, last.pos, range) then [last] else []
  }

  /** The candidates are exactly the active enemies within range. */
  lemma {:induction false} InRangeMembers(at: Point, range: real, es: seq<Enemy>, e: Enemy)
    ensures e in InRange(at, range, es) <==> e in es && e.active && WithinDist(at, e.pos, range)
  {
    if es != [] {
      InRangeMembers(at, range, es[..|es| - 1], e);
      assert es == es[..|es| - 1] + [es[|es| - 1]];
    }
  }

  /** The index a left-to-right scan keeps when it replaces its pick only on a strictly smaller key. */
  function ArgMin(keys: seq<real>): (k: nat)
    requires keys != []
    ensures k < |keys|
  {
    if |keys| == 1 then 0
    else
      var k := ArgMin(keys[..|keys| - 1]);
      if keys[|keys| - 1] < keys[k] then |keys| - 1 else k
  }

  /** That scan finds the first smallest key. */
  lemma {:induction false} ArgMinIsFirstMin(keys: seq<real>)
    requires keys != []
    ensures FirstMin(keys, ArgMin(keys))
  {
    if |keys| > 1 {
      var init := keys[..|keys| - 1];
      ArgMinIsFirstMin(init);
      assert forall j :: 0 <= j < |init| ==> init[j] == keys[j];
    }
  }

  /**
   * The scan that starts from `floor` and replaces its pick only on a
   * strictly larger key; it keeps none when no key exceeds `floor`.
   */
  function ArgMaxAbove(keys: seq<real>, floor: real): (k: Option<nat>)
    ensures k.Some? ==> k.value < |keys|
  {
    if keys == [] then None
    else
      var k := ArgMaxAbove(keys[..|keys| - 1], floor);
      var best := if k.Some? then keys[k.value] else floor;
      if keys[|keys| - 1] > best then Some(|keys| - 1) else k
  }

  /** That scan finds the first largest key above `floor`, and finds none exactly when every key is at most `floor`. */
  lemma {:induction false} ArgMaxAboveIsFirstMax(keys: seq<real>, floor: real)
    ensures ArgMaxAbove(keys, floor).None? <==> forall j :: 0 <= j < |keys| ==> keys[j] <= floor
    ensures ArgMaxAbove(keys, floor).Some? ==> FirstMaxAbove(keys, floor, ArgMaxAbove(keys, floor).value)
    ensures ArgMaxAbove(keys, floor).None? ==> forall k :: !FirstMaxAbove(keys, floor, k)
  {
    if keys != [] {
      var init := keys[..|keys| - 1];
      ArgMaxAboveIsFirstMax(init, floor);
      assert forall j :: 0 <= j < |init| ==> init[j] == keys[j];
    }
  }

  /** The enemy strategy `s` picks among the candidates `c`, as the scans of `findTarget` meet them. */
  function Pick(s: TargetStrategy, at: Point, c: seq<Enemy>): Option<Enemy>
    reads c
  {
    match s
    case Closest => if c == [] then None else Some(c[ArgMin(DistKeys(at, c))])
    case Weakest => if c == [] then None else Some(c[ArgMin(HealthKeys(c))])
    case Strongest =>
      var k := ArgMaxAbove(HealthKeys(c), 0.0);
      if k.None? then None else Some(c[k.value])
    case First =>
      var k := ArgMaxAbove(ProgressKeys(c), -1.0);
      if k.None? then None else Some(c[k.value])
  }

  /** No enemy of `es` moved or left the scene. */
  twostate predicate Unmoved(es: seq<Enemy>)
    reads es
  {
    forall e :: e in es ==> e.active == old(e.active) && e.pos == old(e.pos)
  }

  /** Candidate k is the one strategy `s` is after: the first at the smallest distance or health, or the first at the largest health or progress above the scan's start value. */
  ghost predicate Best(s: TargetStrategy, at: Point, c: seq<Enemy>, k: int)
    reads c
  {
    match s
    case Closest => FirstMin(DistKeys(at, c), k)
    case Weakest => FirstMin(HealthKeys(c), k)
    case Strongest => FirstMaxAbove(HealthKeys(c), 0.0, k)
    case First => FirstMaxAbove(ProgressKeys(c), -1.0, k)
  }

  /**
   * The pick is the best candidate, and there is none only when no candidate
   * qualifies: never for CLOSEST and WEAKEST with candidates, and for
   * STRONGEST exactly when every candidate has health at most 0.
   */
  lemma PickIsBest(s: TargetStrategy, at: Point, c: seq<Enemy>)
    ensures Pick(s, at, c).None? <==> forall k :: !Best(s, at, c, k)
    ensures Pick(s, at, c).Some? ==> exists k :: Best(s, at, c, k) && Pick(s, at, c).value == c[k]
    ensures Pick(s, at, c).Some? ==> Pick(s, at, c).value in c
    ensures s == Closest || s == Weakest ==> (Pick(s, at, c).None? <==> c == [])
    ensures s == Strongest ==> (Pick(s, at, c).None? <==> forall j :: 0 <= j < |c| ==> c[j].data.health <= 0.0)
  {
    match s
    case Closest =>
      if c != [] {
        ArgMinIsFirstMin(DistKeys(at, c));
        assert Best(s, at, c, ArgMin(DistKeys(at, c)));
      }
    case Weakest =>
      if c != [] {
        ArgMinIsFirstMin(HealthKeys(c));
        assert Best(s, at, c, ArgMin(HealthKeys(c)));
      }
    case Strongest =>
      var keys := HealthKeys(c);
      ArgMaxAboveIsFirstMax(keys, 0.0);
      assert forall j :: 0 <= j < |c| ==> keys[j] == c[j].data.health;
      if ArgMaxAbove(keys, 0.0).Some? {
        assert Best(s, at, c, ArgMaxAbove(keys, 0.0).value);
      }
    case First =>
      var keys := ProgressKeys(c);
      ArgMaxAboveIsFirstMax(keys, -1.0);
      if ArgMaxAbove(keys, -1.0).Some? {
        assert Best(s, at, c, ArgMaxAbove(keys, -1.0).value);
      }
  }

  class Tower {
    const pos: Point
    const kind: string
    var level: int
    var currentTarget: Option<Enemy>
    var lastAttackTime: real
    const config: TowerConfig
    const projectileSystem: ProjectileSystem
    var rangeVisible: bool
    var destroyed: bool
    /** TOWER_ATTACK and TOWER_UPGRADED, as emitted on the scene. */
    var events: seq<TowerEvent>

    constructor (pos: Point, kind: string, config: TowerConfig, projectileSystem: ProjectileSystem)
      ensures this.pos == pos && this.kind == kind && this.config == config
      ensures this.projectileSystem == projectileSystem
      ensures level == 1 && currentTarget.None? && lastAttackTime == 0.0
      ensures !rangeVisible && !destroyed && events == []
    {
      this.pos := pos;
      this.kind := kind;
      this.config := config;
      this.projectileSystem := projectileSystem;
      level := 1;
      currentTarget := None;
      lastAttackTime := 0.0;
      rangeVisible := false;
      destroyed := false;
      events := [];
    }

    /**
     * The cooldown `(1 / attackSpeed) * 1000` has passed since the last
     * attack. An attack speed of 0 makes the cooldown Infinity: never ready.
     */
    predicate Ready(now: real)
      reads this, config
    {
      config.attackSpeed != 0.0 && !(now - lastAttackTime < (1.0 / config.attackSpeed) * 1000.0)
    }

    /**
     * `update`: while cooling down it does nothing; otherwise it looks for
     * the CLOSEST target in range, attacks it and remembers it, or forgets
     * its target when there is none.
     */
    method Update(enemies: seq<Enemy>, now: real) returns (shot: Option<Projectile>)
      requires projectileSystem.Valid() && projectileSystem.Unarmed()
      requires forall e :: e in enemies ==> e.Valid()
      modifies this`currentTarget, this`lastAttackTime, this`events
      modifies projectileSystem, projectileSystem.pool, projectileSystem.effectSystem, enemies
      ensures projectileSystem.Valid() && projectileSystem.Unarmed()
      ensures forall i :: 0 <= i < |projectileSystem.pool| ==> projectileSystem.pool[i] in old(projectileSystem.pool) || fresh(projectileSystem.pool[i])
      ensures forall e :: e in enemies ==> e.Valid()
      ensures forall e :: e in enemies ==> e.active == old(e.active) && e.pos == old(e.pos)
      ensures !old(Ready(now)) ==>
        shot.None? && currentTarget == old(currentTarget) && lastAttackTime == old(lastAttackTime)
        && events == old(events) && unchanged(projectileSystem)
      ensures old(Ready(now)) ==>
        var t := currentTarget;
        t == old(Pick(Closest, pos, InRange(pos, config.range, enemies)))
        && (t.None? ==> shot.None? && lastAttackTime == old(lastAttackTime) && events == old(events)
                        && unchanged(projectileSystem))
        && (t.Some? ==> Attacked(shot, t.value, now, old(config.damage), old(events))
                        && Launched(projectileSystem, shot.value, t.value, old(config.damage), Some(TowerEffects(config)), now))
    {
      if !Ready(now) {
        return None;
      }
      shot := Respond(enemies, now);
    }

    /** A ready tower looks for the closest target in range and attacks it, or forgets its target. */
    method Respond(enemies: seq<Enemy>, now: real) returns (shot: Option<Projectile>)
      requires projectileSystem.Valid() && projectileSystem.Unarmed()
      requires forall e :: e in enemies ==> e.Valid()
      modifies this`currentTarget, this`lastAttackTime, this`events
      modifies projectileSystem, projectileSystem.pool, projectileSystem.effectSystem, enemies
      ensures projectileSystem.Valid() && projectileSystem.Unarmed()
      ensures forall i :: 0 <= i < |projectileSystem.pool| ==> projectileSystem.pool[i] in old(projectileSystem.pool) || fresh(projectileSystem.pool[i])
      ensures forall e :: e in enemies ==> e.Valid()
      ensures forall e :: e in enemies ==> e.active == old(e.active) && e.pos == old(e.pos)
      ensures var t := currentTarget;
        t == old(Pick(Closest, pos, InRange(pos, config.range, enemies)))
        && (t.None? ==> shot.None? && lastAttackTime == old(lastAttackTime) && events == old(events)
                        && unchanged(projectileSystem))
        && (t.Some? ==> Attacked(shot, t.value, now, old(config.damage), old(events))
                        && Launched(projectileSystem, shot.value, t.value, old(config.damage), Some(TowerEffects(config)), now))
    {
      var target := FindTarget(enemies, Closest);
      assert target == old(Pick(Closest, pos, InRange(pos, config.range, enemies)));
      assert unchanged(projectileSystem, projectileSystem.effectSystem, projectileSystem.pool, enemies);
      if target.Some? {
        PickIsBest(Closest, pos, InRange(pos, config.range, enemies));
        InRangeMembers(pos, config.range, enemies, target.value);
        label found:
        shot := Engage(target.value, now, enemies);
        assert Launched@found(projectileSystem, shot.value, target.value, old(config.damage), Some(TowerEffects(config)), now);
      } else {
        currentTarget := None;
        shot := None;
      }
    }

    /** The found branch of `update`: the target is remembered, then attacked. */
    method Engage(target: Enemy, now: real, ghost enemies: seq<Enemy>) returns (shot: Option<Projectile>)
      requires projectileSystem.Valid() && projectileSystem.Unarmed() && target.Valid()
      requires forall e :: e in enemies ==> e.Valid()
      modifies this`currentTarget, this`lastAttackTime, this`events
      modifies projectileSystem, projectileSystem.pool, projectileSystem.effectSystem, target
      ensures projectileSystem.Valid() && projectileSystem.Unarmed() && target.Valid()
      ensures forall i :: 0 <= i < |projectileSystem.pool| ==> projectileSystem.pool[i] in old(projectileSystem.pool) || fresh(projectileSystem.pool[i])
      ensures currentTarget == Some(target)
      ensures Attacked(shot, target, now, old(config.damage), old(events))
      ensures Launched(projectileSystem, shot.value, target, old(config.damage), Some(TowerEffects(config)), now)
      ensures forall e :: e in enemies ==> e.Valid() && e.active == old(e.active) && e.pos == old(e.pos)
    {
      currentTarget := Some(target);
      var pr := Attack(target, now);
      shot := Some(pr);
    }

    /** What an attack on `t` at `now` left: the projectile fired at it, the time stamped and TOWER_ATTACK emitted. */
    ghost predicate Attacked(shot: Option<Projectile>, t: Enemy, now: real, damage: real, ev0: seq<TowerEvent>)
      reads this, if shot.Some? then {shot.value} else {}
    {
      shot.Some? && shot.value.target == Some(t) && shot.value.damage == damage
      && shot.value.config == config.projectile && shot.value.pos == pos
      && lastAttackTime == now && events == ev0 + [TowerAttack(t, damage)]
    }

    /**
     * Hits change only health and speed, so while no enemy moves or leaves
     * the scene this tower's candidates, and the closest of them, stay the same.
     */
    twostate lemma {:induction false} TargetStable(es: seq<Enemy>)
      requires Unmoved(es) && config.range == old(config.range)
      ensures InRange(pos, config.range, es) == old(InRange(pos, config.range, es))
      ensures Pick(Closest, pos, InRange(pos, config.range, es)) == old(Pick(Closest, pos, InRange(pos, config.range, es)))
    {
      if es != [] {
        TargetStable(es[..|es| - 1]);
      }
      var c := InRange(pos, config.range, es);
      forall e | e in c
        ensures e in es
      {
        InRangeMembers(pos, config.range, es, e);
      }
      assert DistKeys(pos, c) == old(DistKeys(pos, c));
    }

    /**
     * `findTarget`: collects the active enemies within range, in list order,
     * then picks one by the strategy; no candidate gives no target.
     */
    method FindTarget(enemies: seq<Enemy>, strategy: TargetStrategy) returns (r: Option<Enemy>)
      ensures r == Pick(strategy, pos, InRange(pos, config.range, enemies))
    {
      var range := config.range;
      var inRange: seq<Enemy> := [];
      for i := 0 to |enemies|
        invariant inRange == InRange(pos, range, enemies[..i])
      {
        var e := enemies[i];
        assert enemies[..i + 1][..i] == enemies[..i];
        if e.active && WithinDist(pos, e.pos, range) {
          inRange := inRange + [e];
        }
      }
      assert enemies[..|enemies|] == enemies;
      if inRange == [] {
        return None;
      }
      match strategy
      case Closest => r := FindClosestEnemy(inRange);
      case Strongest => r := FindStrongestEnemy(inRange);
      case First => r := FindFirstEnemy(inRange);
      case Weakest => r := FindWeakestEnemy(inRange);
    }

    /** `findClosestEnemy`: no enemy stands for the `Infinity` start value, and only a strictly smaller distance replaces the pick. */
    method FindClosestEnemy(es: seq<Enemy>) returns (r: Option<Enemy>)
      ensures r == Pick(Closest, pos, es)
    {
      ghost var keys := DistKeys(pos, es);
      r := None;
      var minDistance := 0.0;
      ghost var k := 0;
      for i := 0 to |es|
        invariant r.None? <==> i == 0
        invariant r.Some? ==> k == ArgMin(keys[..i]) && r.value == es[k] && minDistance == keys[k]
      {
        var distance := DistSq(pos, es[i].pos);
        assert keys[..i + 1][..i] == keys[..i];
        if r.None? || distance < minDistance {
          minDistance := distance;
          r := Some(es[i]);
          k := i;
        }
      }
      assert keys[..|es|] == keys;
    }

    /** `findStrongestEnemy`: the scan starts at health 0 and only a strictly larger health replaces the pick. */
    method FindStrongestEnemy(es: seq<Enemy>) returns (r: Option<Enemy>)
      ensures r == Pick(Strongest, pos, es)
    {
      ghost var keys := HealthKeys(es);
      r := None;
      var maxHealth := 0.0;
      ghost var k := 0;
      for i := 0 to |es|
        invariant ArgMaxAbove(keys[..i], 0.0) == if r.None? then None else Some(k)
        invariant r.Some? ==> k < i && r.value == es[k]
        invariant maxHealth == if r.None? then 0.0 else keys[k]
      {
        assert keys[..i + 1][..i] == keys[..i];
        if es[i].data.health > maxHealth {
          maxHealth := es[i].data.health;
          r := Some(es[i]);
          k := i;
        }
      }
      assert keys[..|es|] == keys;
    }

    /** `findFirstEnemy`: the scan starts at waypoint index -1 and only a strictly larger index replaces the pick. */
    method FindFirstEnemy(es: seq<Enemy>) returns (r: Option<Enemy>)
      ensures r == Pick(First, pos, es)
    {
      ghost var keys := ProgressKeys(es);
      r := None;
      var maxProgress := -1;
      ghost var k := 0;
      for i := 0 to |es|
        invariant ArgMaxAbove(keys[..i], -1.0) == if r.None? then None else Some(k)
        invariant r.Some? ==> k < i && r.value == es[k]
        invariant maxProgress as real == if r.None? then -1.0 else keys[k]
      {
        var progress := es[i].data.currentWaypointIndex;
        assert keys[..i + 1][..i] == keys[..i];
        if progress > maxProgress {
          maxProgress := progress;
          r := Some(es[i]);
          k := i;
        }
      }
      assert keys[..|es|] == keys;
    }

    /** `findWeakestEnemy`: no enemy stands for the `Infinity` start value, and only a strictly smaller health replaces the pick. */
    method FindWeakestEnemy(es: seq<Enemy>) returns (r: Option<Enemy>)
      ensures r == Pick(Weakest, pos, es)
    {
      ghost var keys := HealthKeys(es);
      r := None;
      var minHealth := 0.0;
      ghost var k := 0;
      for i := 0 to |es|
        invariant r.None? <==> i == 0
        invariant r.Some? ==> k == ArgMin(keys[..i]) && r.value == es[k] && minHealth == keys[k]
      {
        assert keys[..i + 1][..i] == keys[..i];
        if r.None? || es[i].data.health < minHealth {
          minHealth := es[i].data.health;
          r := Some(es[i]);
          k := i;
        }
      }
      assert keys[..|es|] == keys;
    }

    /**
     * `attack`: fires a projectile of the tower's kind with the current
     * damage and the listed effects at the target, stamps the time and
     * emits TOWER_ATTACK.
     */
    method Attack(target: Enemy, now: real) returns (pr: Projectile)
      requires projectileSystem.Valid() && projectileSystem.Unarmed() && target.Valid()
      modifies this`lastAttackTime, this`events
      modifies projectileSystem, projectileSystem.pool, projectileSystem.effectSystem, target
      ensures projectileSystem.Valid() && projectileSystem.Unarmed() && target.Valid()
      ensures forall i :: 0 <= i < |projectileSystem.pool| ==> projectileSystem.pool[i] in old(projectileSystem.pool) || fresh(projectileSystem.pool[i])
      ensures Attacked(Some(pr), target, now, old(config.damage), old(events))
      ensures Launched(projectileSystem, pr, target, old(config.damage), Some(TowerEffects(config)), now)
      ensures target.active == old(target.active) && target.pos == old(target.pos)
    {
      var damage := config.damage;
      pr := projectileSystem.CreateProjectile(pos, config.projectile, damage, Some(target),
                                              Some(TowerEffects(config)), now);
      lastAttackTime := now;
      events := events + [TowerAttack(target, damage)];
    }

    /**
     * `upgrade`: without an entry for the next level nothing changes;
     * otherwise the level goes up by one, the entry's given stats overwrite
     * the shared configuration's, and TOWER_UPGRADED is emitted with its price.
     */
    method Upgrade() returns (ok: bool)
      modifies this`level, this`events, config`damage, config`range, config`attackSpeed
      ensures var u := FindUpgrade(config.upgrades, old(level) + 1);
        (u.None? ==> !ok && level == old(level) && unchanged(config) && events == old(events))
        && (u.Some? ==>
              ok && level == old(level) + 1
              && config.damage == (if u.value.damage.Some? then u.value.damage.value else old(config.damage))
              && config.range == (if u.value.range.Some? then u.value.range.value else old(config.range))
              && config.attackSpeed == (if u.value.attackSpeed.Some? then u.value.attackSpeed.value else old(config.attackSpeed))
              && events == old(events) + [TowerUpgraded(old(level), level, u.value.cost)])
    {
      var nextLevel := level + 1;
      var upgrade := FindUpgrade(config.upgrades, nextLevel);
      if upgrade.None? {
        return false;
      }
      var oldLevel := level;
      level := nextLevel;
      if upgrade.value.damage.Some? {
        config.damage := upgrade.value.damage.value;
      }
      if upgrade.value.range.Some? {
        config.range := upgrade.value.range.value;
      }
      if upgrade.value.attackSpeed.Some? {
        config.attackSpeed := upgrade.value.attackSpeed.value;
      }
      events := events + [TowerUpgraded(oldLevel, nextLevel, upgrade.value.cost)];
      return true;
    }

    function GetUpgradeCost(): int
      reads this, config
    {
      UpgradeCost(config.upgrades, level)
    }

    function GetSellPrice(): int
      reads this, config
    {
      SellPrice(config.cost, config.upgrades, level)
    }

    method ShowRange()
      modifies this`rangeVisible
      ensures rangeVisible
    {
      rangeVisible := true;
    }

    method HideRange()
      modifies this`rangeVisible
      ensures !rangeVisible
    {
      rangeVisible := false;
    }

    method Destroy()
      modifies this`destroyed
      ensures destroyed
    {
      destroyed := true;
    }
  }
}
