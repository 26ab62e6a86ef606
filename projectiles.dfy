// src/game/systems/ProjectileSystem.ts: the list of flying projectiles, the
// free list they return to, instant hits, hit and miss dispatch, and splash
// damage. The homing flight of src/game/objects/Projectile.ts is not modelled:
// `update` receives, per projectile, whether its flight reported a hit this
// frame. `Phaser.Math.Distance.Between` is a parameter that yields the
// Euclidean distance.
module Projectiles {
  import opened Common
  import opened Enemies
  import opened Effects

  datatype ProjectileKind = Bullet | Rocket | Laser | Instant

  /** The tower's `ProjectileConfig`; `speed` only drives the flight. */
  datatype ProjectileConfig = ProjectileConfig(kind: ProjectileKind, speed: Option<real>)

  /** The optional `effects` argument of `createProjectile`. */
  datatype HitEffects = HitEffects(
    slowAmount: Option<real>,
    slowDuration: Option<real>,
    splashRadius: Option<real>,
    splashDamage: Option<real>,
    poisonDamage: Option<real>,
    poisonDuration: Option<real>,
    poisonStacks: Option<bool>)

  /** JavaScript truthiness of an optional number (NaN is not modelled). */
  predicate Truthy(n: Option<real>)
  {
    n.Some? && n.value != 0.0
  }

  /** The slow record a hit applies: both amount and duration must be truthy; it ends `duration` seconds after `now`. */
  function SlowOf(fx: Option<HitEffects>, now: real): (r: Option<Effect>)
    ensures r.Some? ==> r.value.SlowEffect? && r.value.amount != 0.0
  {
    if fx.Some? && Truthy(fx.value.slowAmount) && Truthy(fx.value.slowDuration) then
      var d := fx.value.slowDuration.value;
      Some(SlowEffect(fx.value.slowAmount.value, d, now + d * 1000.0))
    else None
  }

  /** The poison record a hit applies; `poisonStacks` turns into one stack, otherwise the record does not stack. */
  function PoisonOf(fx: Option<HitEffects>, now: real): (r: Option<Effect>)
    ensures r.Some? ==> r.value.PoisonEffect? && r.value.lastTick.None?
  {
    if fx.Some? && Truthy(fx.value.poisonDamage) && Truthy(fx.value.poisonDuration) then
      var d := fx.value.poisonDuration.value;
      var stacks := if fx.value.poisonStacks == Some(true) then Some(1) else None;
      Some(PoisonEffect(fx.value.poisonDamage.value, d, now + d * 1000.0, stacks, None))
    else None
  }

  /** `1 - (distance / radius) * 0.5`. */
  function Falloff(d: real, radius: real): real
    requires radius > 0.0
  {
    1.0 - (d / radius) * 0.5
  }

  /** The damage a splash deals at distance d: `baseDamage * splashDamage * falloff`. */
  function SplashAmount(base: real, mult: real, d: real, radius: real): real
    requires radius > 0.0
  {
    (base * mult) * Falloff(d, radius)
  }

  /** Inside the radius the falloff runs from 1 at the centre down to 1/2 at the rim, never rising with distance. */
  lemma FalloffRange(d1: real, d2: real, radius: real)
    requires radius > 0.0 && 0.0 <= d1 <= d2 <= radius
    ensures 0.5 <= Falloff(d2, radius) <= Falloff(d1, radius) <= 1.0
    ensures Falloff(0.0, radius) == 1.0 && Falloff(radius, radius) == 0.5
  {
    assert d2 / radius - d1 / radius == (d2 - d1) / radius;
    assert d2 / radius <= radius / radius;
  }

  /** With a non-negative base and multiplier, a nearer enemy never takes less splash damage. */
  lemma SplashNearerTakesMore(base: real, mult: real, d1: real, d2: real, radius: real)
    requires radius > 0.0 && 0.0 <= d1 <= d2 <= radius && base * mult >= 0.0
    ensures SplashAmount(base, mult, d1, radius) >= SplashAmount(base, mult, d2, radius) >= 0.0
  {
    FalloffRange(d1, d2, radius);
    var x := base * mult;
    var f1, f2 := Falloff(d1, radius), Falloff(d2, radius);
    assert x * f1 - x * f2 == x * (f1 - f2);
    MulNonNeg(x, f1 - f2);
    MulNonNeg(x, f2);
  }

  lemma MulNonNeg(x: real, y: real)
    requires x >= 0.0 && y >= 0.0
    ensures x * y >= 0.0
  {
  }

  /**
   * What a splash at `at` did to an enemy other than the centre: an active
   * enemy within the radius took its share once, any other was left alone.
   */
  twostate predicate Splashed(e: Enemy, at: Point, base: real, mult: real, radius: real, dist: (Point, Point) -> real)
    requires radius > 0.0
    reads e
  {
    if old(e.active) && WithinDist(at, e.pos, radius) then
      HitOnce(e, SplashAmount(base, mult, dist(at, e.pos), radius)) && e.data.speed == old(e.data.speed)
    else unchanged(e)
  }

  class Projectile {
    var pos: Point
    var config: ProjectileConfig
    var damage: real
    var target: Option<Enemy>
    /** What `(projectile as any).effects` reads: no code ever assigns it. */
    const effects: Option<HitEffects>
    var active: bool
    var visible: bool
    var destroyed: bool

    constructor (p: Point, config: ProjectileConfig, damage: real, target: Option<Enemy>)
      ensures pos == p && this.config == config && this.damage == damage && this.target == target
      ensures effects.None? && active && visible && !destroyed
    {
      pos := p;
      this.config := config;
      this.damage := damage;
      this.target := target;
      effects := None;
      active := true;
      visible := true;
      destroyed := false;
    }

    method Destroy()
      modifies this`active, this`visible, this`destroyed
      ensures !active && !visible && destroyed
    {
      active := false;
      visible := false;
      destroyed := true;
    }

    /**
     * `update`, without the homing move: `arrived` is whether the flight came
     * within 20 units of the target. A projectile whose target is gone
     * destroys itself.
     */
    method Update(arrived: bool) returns (hit: bool)
      modifies this`active, this`visible, this`destroyed
      ensures var s := old(ShotOf(this, arrived));
        hit == s.hit
        && (s.lost ==> !active && !visible && destroyed)
        && (!s.lost ==> active == old(active) && visible == old(visible) && destroyed == old(destroyed))
    {
      if config.kind == Instant {
        return true;
      }
      if target.None? || !target.value.active {
        Destroy();
        return false;
      }
      hit := arrived;
    }
  }

  /**
   * The enemy, first seen as `s0`, has taken `d` damage in all since: only its
   * health changed among its data, its position, activity and events stayed,
   * and a valid enemy stayed valid.
   */
  ghost predicate Damaged(e: Enemy, s0: EnemySnap, d: real)
    reads e
  {
    e.data == s0.data.(health := s0.data.health - d)
    && e.pos == s0.pos && e.active == s0.active && e.events == s0.events
    && (OnPath(s0.data, s0.moving) ==> e.Valid())
  }

  datatype ProjectileEvent =
    | Fired(projectile: Projectile)
    | Hit(projectile: Projectile, target: Enemy)
    | Missed(projectile: Projectile)

  /**
   * A projectile as `update` finds it, with the outcome of its flight this
   * frame: `hit` is what `Projectile.update` returns, `lost` that it
   * destroyed itself because its target is gone.
   */
  datatype Shot = Shot(p: Projectile, active: bool, visible: bool, destroyed: bool,
                       hit: bool, lost: bool, target: Option<Enemy>, targetActive: bool, damage: real)

  /**
   * `Projectile.update`: an instant projectile reports a hit at once; any
   * other first gives up when its target is missing or inactive, and
   * otherwise reports a hit when `arrived`, the outcome of its homing
   * flight, says it came within 20 units.
   */
  function ShotOf(p: Projectile, arrived: bool): (s: Shot)
    reads p, if p.target.Some? then {p.target.value} else {}
    ensures s.hit <==> p.config.kind == Instant || (s.targetActive && arrived)
    ensures s.lost <==> p.config.kind != Instant && !s.targetActive
    ensures s.targetActive <==> p.target.Some? && p.target.value.active
    ensures !(s.hit && s.lost)
  {
    var live := p.target.Some? && p.target.value.active;
    var instant := p.config.kind == Instant;
    Shot(p, p.active, p.visible, p.destroyed, instant || (live && arrived), !instant && !live,
         p.target, live, p.damage)
  }

  /** The frame's outcomes of the projectiles `ps`, given what each flight reported. */
  function Shots(ps: seq<Projectile>, arrived: seq<bool>): seq<Shot>
    requires |ps| == |arrived|
    reads (set p | p in ps), Aimed(ps)
  {
    seq(|ps|, j requires 0 <= j < |ps| reads (set p | p in ps), Aimed(ps) =>
      AimedAt(ps, j); ShotOf(ps[j], arrived[j]))
  }

  function ShotReads(p: Projectile): set<object>
    reads p
  {
    {p} + if p.target.Some? then {p.target.value} else {}
  }

  /** The enemies the shots aim at. */
  function ShotTargets(shots: seq<Shot>): set<Enemy>
  {
    set j | 0 <= j < |shots| && shots[j].target.Some? :: shots[j].target.value
  }

  lemma AimedAt(ps: seq<Projectile>, j: nat)
    requires j < |ps|
    ensures ps[j].target.Some? ==> ps[j].target.value in Aimed(ps)
  {
  }

  lemma ShotTargetAt(shots: seq<Shot>, j: nat)
    requires j < |shots|
    ensures shots[j].target.Some? ==> shots[j].target.value in ShotTargets(shots)
  {
  }

  /** The enemies the projectiles `ps` aim at. */
  function Aimed(ps: seq<Projectile>): set<Enemy>
    reads set p | p in ps
  {
    set j | 0 <= j < |ps| && ps[j].target.Some? :: ps[j].target.value
  }

  /** The projectile's own flags after its turn in `update`. */
  predicate Settled(s: Shot)
    reads s.p
  {
    if Leaves(s) then !s.p.active && !s.p.visible && s.p.destroyed == s.destroyed
    else if s.lost then !s.p.active && !s.p.visible && s.p.destroyed
    else Untouched(s)
  }

  predicate Untouched(s: Shot)
    reads s.p
  {
    s.p.active == s.active && s.p.visible == s.visible && s.p.destroyed == s.destroyed
  }

  /** An inactive projectile, and one whose flight hit, leaves the list for the pool. */
  predicate Leaves(s: Shot)
  {
    !s.active || s.hit
  }

  function ShotEvents(s: Shot): seq<ProjectileEvent>
  {
    if !s.active || !s.hit then []
    else if s.target.Some? && s.targetActive then [Hit(s.p, s.target.value)]
    else [Missed(s.p)]
  }

  function ShotDamage(s: Shot, e: Enemy): real
  {
    if s.active && s.hit && s.target == Some(e) && s.targetActive then s.damage else 0.0
  }

  /** The projectiles that stay in flight, in list order. */
  function Staying(shots: seq<Shot>): seq<Projectile>
  {
    if shots == [] then []
    else (if Leaves(shots[0]) then [] else [shots[0].p]) + Staying(shots[1..])
  }

  /** The projectiles pushed to the pool; the loop runs from the back of the list. */
  function Returned(shots: seq<Shot>): seq<Projectile>
  {
    if shots == [] then []
    else Returned(shots[1..]) + (if Leaves(shots[0]) then [shots[0].p] else [])
  }

  /** The hit and miss events, from the back of the list. */
  function Reported(shots: seq<Shot>): seq<ProjectileEvent>
  {
    if shots == [] then [] else Reported(shots[1..]) + ShotEvents(shots[0])
  }

  /** The damage the hits deal to enemy e. */
  function DamageFrom(shots: seq<Shot>, e: Enemy): real
  {
    if shots == [] then 0.0 else ShotDamage(shots[0], e) + DamageFrom(shots[1..], e)
  }

  function Projectiles(shots: seq<Shot>): seq<Projectile>
  {
    if shots == [] then [] else [shots[0].p] + Projectiles(shots[1..])
  }

  /** Every projectile of the frame either stays in flight or goes to the pool, never both and never lost. */
  lemma {:induction false} StayingOrReturned(shots: seq<Shot>)
    ensures multiset(Staying(shots)) + multiset(Returned(shots)) == multiset(Projectiles(shots))
    ensures forall j :: 0 <= j < |Staying(shots)| ==> Staying(shots)[j] in Projectiles(shots)
  {
    if shots != [] {
      StayingOrReturned(shots[1..]);
    }
    forall j | 0 <= j < |Staying(shots)|
      ensures Staying(shots)[j] in Projectiles(shots)
    {
      assert Staying(shots)[j] in multiset(Staying(shots));
    }
  }

  /** Exactly one event for each active projectile whose flight hit. */
  lemma {:induction false} ReportedCount(shots: seq<Shot>)
    ensures |Reported(shots)| == |ReportedShots(shots)|
  {
    if shots != [] {
      ReportedCount(shots[1..]);
    }
  }

  function ReportedShots(shots: seq<Shot>): seq<Shot>
  {
    if shots == [] then []
    else (if shots[0].active && shots[0].hit then [shots[0]] else []) + ReportedShots(shots[1..])
  }

  /** Only hits on an active target hurt it; an enemy no projectile aims at takes nothing. */
  lemma {:induction false} DamageOnlyToTargets(shots: seq<Shot>, e: Enemy)
    requires forall j :: 0 <= j < |shots| ==> shots[j].target != Some(e)
    ensures DamageFrom(shots, e) == 0.0
  {
    if shots != [] {
      DamageOnlyToTargets(shots[1..], e);
    }
  }

  /** How one turn of `update`, at index i, extends the frame's outcome from the turns after it. */
  lemma UpdateTurn(ps: seq<Projectile>, shots: seq<Shot>, i: nat, pool0: seq<Projectile>, ev0: seq<ProjectileEvent>)
    requires |ps| == |shots| && i < |ps| && shots[i].p == ps[i]
    ensures var q := ps[..i + 1] + Staying(shots[i + 1..]);
      if Leaves(shots[i]) then
        q[..i] + q[i + 1..] == ps[..i] + Staying(shots[i..])
        && pool0 + Returned(shots[i + 1..]) + [ps[i]] == pool0 + Returned(shots[i..])
      else
        q == ps[..i] + Staying(shots[i..])
        && pool0 + Returned(shots[i + 1..]) == pool0 + Returned(shots[i..])
    ensures ev0 + Reported(shots[i + 1..]) + ShotEvents(shots[i]) == ev0 + Reported(shots[i..])
    ensures forall e :: DamageFrom(shots[i..], e) == ShotDamage(shots[i], e) + DamageFrom(shots[i + 1..], e)
  {
    assert shots[i..][1..] == shots[i + 1..];
    assert shots[i..][0] == shots[i];
    var rest := Staying(shots[i + 1..]);
    var q := ps[..i + 1] + rest;
    if Leaves(shots[i]) {
      assert q[..i] == ps[..i];
      assert q[i + 1..] == rest;
      ConcatAssoc(pool0, Returned(shots[i + 1..]), [ps[i]]);
    } else {
      assert ps[..i + 1] == ps[..i] + [ps[i]];
      ConcatAssoc(ps[..i], [ps[i]], rest);
    }
    ConcatAssoc(ev0, Reported(shots[i + 1..]), ShotEvents(shots[i]));
  }

  /** The array after `pop()`. */
  function Popped<T>(s: seq<T>): seq<T>
  {
    if s == [] then [] else s[..|s| - 1]
  }

  /** What a launch starts from: the system's two lists and trace, the effect store and the target. */
  datatype LaunchStart = LaunchStart(
    pool: seq<Projectile>,
    projectiles: seq<Projectile>,
    events: seq<ProjectileEvent>,
    effects: map<Enemy, seq<Effect>>,
    effectEvents: seq<EffectEvent>,
    target: EnemySnap)

  ghost function StartOf(ps: ProjectileSystem, t: Enemy): LaunchStart
    reads ps, ps.effectSystem, t
  {
    LaunchStart(ps.pool, ps.projectiles, ps.events, ps.effectSystem.enemyEffects, ps.effectSystem.events, Snap(t))
  }

  /**
   * What firing `pr` at `t` through `ps` left, starting from `s`: the pool's
   * last projectile (or another one) aimed with `damage`, then either in
   * flight with PROJECTILE_FIRED and the target and effects untouched, or, for
   * an instant projectile, fired, hit at once with the slow the effects carry,
   * and back in the pool.
   */
  ghost predicate LaunchedFrom(ps: ProjectileSystem, pr: Projectile, t: Enemy, damage: real,
                               fx: Option<HitEffects>, now: real, s: LaunchStart)
    reads ps, pr, t, ps.effectSystem
  {
    (s.pool != [] ==> pr == s.pool[|s.pool| - 1])
    && pr.target == Some(t) && pr.damage == damage
    && if pr.config.kind != Instant then
      ps.projectiles == s.projectiles + [pr] && ps.pool == Popped(s.pool)
      && ps.events == s.events + [Fired(pr)] && pr.active && pr.visible
      && ps.effectSystem.enemyEffects == s.effects && ps.effectSystem.events == s.effectEvents
      && Snap(t) == s.target
    else
      ps.projectiles == s.projectiles && ps.pool == Popped(s.pool) + [pr]
      && ps.events == s.events + [Fired(pr), Hit(pr, t)] && !pr.active && !pr.visible
      && t.Valid() && HitFrom(t, damage, s.target)
      && (SlowOf(fx, now).Some? ==>
            AppliedEffect(ps.effectSystem, t, SlowOf(fx, now).value, s.effects, s.effectEvents,
                          s.target.active, s.target.data.speed))
      && (SlowOf(fx, now).None? ==>
            ps.effectSystem.enemyEffects == s.effects && ps.effectSystem.events == s.effectEvents
            && t.data.speed == s.target.data.speed)
  }

  /** A launch between the two states; an empty pool means a new projectile. */
  twostate predicate Launched(ps: ProjectileSystem, new pr: Projectile, t: Enemy, damage: real,
                              fx: Option<HitEffects>, now: real)
    reads ps, pr, t, ps.effectSystem
  {
    (old(ps.pool) == [] ==> fresh(pr))
    && LaunchedFrom(ps, pr, t, damage, fx, now, old(StartOf(ps, t)))
  }

  class ProjectileSystem {
    var projectiles: seq<Projectile>
    var pool: seq<Projectile>
    var events: seq<ProjectileEvent>
    const effectSystem: EffectSystem

    /** The list and the pool hold distinct projectiles and never share one. */
    ghost predicate Valid()
      reads this, effectSystem
    {
      effectSystem.Valid()
      && NoDuplicates(projectiles) && NoDuplicates(pool)
      && forall i :: 0 <= i < |pool| ==> pool[i] !in projectiles
    }

    /** No projectile carries hit effects, since nothing ever sets them. */
    ghost predicate Unarmed()
      reads this
    {
      (forall i :: 0 <= i < |projectiles| ==> projectiles[i].effects.None?)
      && (forall i :: 0 <= i < |pool| ==> pool[i].effects.None?)
    }

    constructor (effectSystem: EffectSystem)
      requires effectSystem.Valid()
      ensures Valid() && Unarmed()
      ensures projectiles == [] && pool == [] && events == [] && this.effectSystem == effectSystem
    {
      projectiles := [];
      pool := [];
      events := [];
      this.effectSystem := effectSystem;
    }

    /**
     * Takes the most recently pooled projectile (or makes a new one), aims it,
     * puts it in flight and emits PROJECTILE_FIRED; an instant projectile with
     * a target hits at once.
     */
    method CreateProjectile(p: Point, config: ProjectileConfig, damage: real, target: Option<Enemy>,
                            fx: Option<HitEffects>, now: real)
      returns (pr: Projectile)
      requires Valid() && Unarmed()
      requires target.Some? ==> target.value.Valid()
      modifies this, pool, effectSystem, if target.Some? then {target.value} else {}
      ensures Valid() && Unarmed()
      ensures old(pool) != [] ==> pr == old(pool)[|old(pool)| - 1]
      ensures old(pool) == [] ==> fresh(pr)
      ensures pr.pos == p && pr.config == config && pr.damage == damage && pr.target == target
      ensures config.kind != Instant || target.None? ==>
        projectiles == old(projectiles) + [pr] && pool == Popped(old(pool))
        && events == old(events) + [Fired(pr)] && pr.active && pr.visible
        && unchanged(effectSystem) && (target.Some? ==> unchanged(target.value))
      ensures config.kind == Instant && target.Some? ==>
        var t := target.value;
        projectiles == old(projectiles)
        && pool == Popped(old(pool)) + [pr]
        && events == old(events) + [Fired(pr), Hit(pr, t)]
        && !pr.active && !pr.visible
        && t.Valid() && HitOnce(t, damage)
        && (SlowOf(fx, now).Some? ==>
              AppliedEffect(effectSystem, t, SlowOf(fx, now).value, old(effectSystem.enemyEffects),
                            old(effectSystem.events), old(t.active), old(t.data.speed)))
        && (SlowOf(fx, now).None? ==> unchanged(effectSystem) && t.data.speed == old(t.data.speed))
    {
      pr := TakeProjectile(p, config, damage, target);
      if config.kind == Instant && target.Some? {
        FireInstant(pr, target.value, fx, now);
      } else {
        Fire(pr);
      }
    }

    /** Puts an instant projectile in flight, emits PROJECTILE_FIRED, and lets it hit at once. */
    method FireInstant(pr: Projectile, t: Enemy, fx: Option<HitEffects>, now: real)
      requires Valid() && Unarmed() && pr !in projectiles && pr !in pool && pr.effects.None? && t.Valid()
      modifies this`projectiles, this`pool, this`events, pr`visible, pr`active, t, effectSystem
      ensures Valid() && Unarmed()
      ensures projectiles == old(projectiles) && pool == old(pool) + [pr]
      ensures events == old(events) + [Fired(pr), Hit(pr, t)]
      ensures !pr.active && !pr.visible
      ensures t.Valid() && HitOnce(t, old(pr.damage))
      ensures SlowOf(fx, now).Some? ==>
        AppliedEffect(effectSystem, t, SlowOf(fx, now).value, old(effectSystem.enemyEffects),
                      old(effectSystem.events), old(t.active), old(t.data.speed))
      ensures SlowOf(fx, now).None? ==> unchanged(effectSystem) && t.data.speed == old(t.data.speed)
    {
      ghost var before := projectiles;
      Fire(pr);
      assert (before + [pr])[..|before|] == before;
      HandleInstantHit(pr, t, fx, now, old(effectSystem.enemyEffects), old(effectSystem.events), old(t.active), old(t.data.speed));
      ConcatAssoc(old(events), [Fired(pr)], [Hit(pr, t)]);
      assert [Fired(pr)] + [Hit(pr, t)] == [Fired(pr), Hit(pr, t)];
    }

    /** Puts the projectile in flight and emits PROJECTILE_FIRED. */
    method Fire(pr: Projectile)
      requires Valid() && Unarmed() && pr !in projectiles && pr !in pool && pr.effects.None?
      modifies this`projectiles, this`events
      ensures Valid() && Unarmed()
      ensures projectiles == old(projectiles) + [pr] && events == old(events) + [Fired(pr)]
    {
      NoDuplicatesSnoc(projectiles, pr);
      projectiles := projectiles + [pr];
      events := events + [Fired(pr)];
    }

    /** `projectilePool.pop()` re-aimed, or a new projectile when the pool is empty. */
    method TakeProjectile(p: Point, config: ProjectileConfig, damage: real, target: Option<Enemy>)
      returns (pr: Projectile)
      requires Valid() && Unarmed()
      modifies this`pool, pool
      ensures Valid() && Unarmed() && pr !in projectiles && pr !in pool
      ensures old(pool) != [] ==> pr == old(pool)[|old(pool)| - 1]
      ensures old(pool) == [] ==> fresh(pr)
      ensures pool == Popped(old(pool))
      ensures pr.pos == p && pr.config == config && pr.damage == damage && pr.target == target
      ensures pr.active && pr.visible && pr.effects.None?
    {
      if pool != [] {
        pr := pool[|pool| - 1];
        NoDuplicatesPrefix(pool, |pool| - 1);
        NoDuplicatesAt(pool, |pool| - 1);
        pool := pool[..|pool| - 1];
        pr.pos := p;
        pr.config := config;
        pr.damage := damage;
        pr.target := target;
        pr.visible := true;
        pr.active := true;
      } else {
        pr := new Projectile(p, config, damage, target);
      }
    }

    /** An instant hit: damage, then the slow if configured, then PROJECTILE_HIT, then back to the pool. */
    method HandleInstantHit(pr: Projectile, target: Enemy, fx: Option<HitEffects>, now: real,
                            ghost m0: map<Enemy, seq<Effect>>, ghost ev0: seq<EffectEvent>, ghost active0: bool, ghost speed0: real)
      requires Valid() && |projectiles| > 0 && projectiles[|projectiles| - 1] == pr && target.Valid()
      requires effectSystem.enemyEffects == m0 && effectSystem.events == ev0
      requires target.active == active0 && target.data.speed == speed0
      modifies this`projectiles, this`pool, this`events, pr`visible, pr`active, target, effectSystem
      ensures Valid() && target.Valid()
      ensures HitOnce(target, old(pr.damage))
      ensures SlowOf(fx, now).Some? ==> AppliedEffect(effectSystem, target, SlowOf(fx, now).value, m0, ev0, active0, speed0)
      ensures SlowOf(fx, now).None? ==> unchanged(effectSystem) && target.data.speed == speed0
      ensures events == old(events) + [Hit(pr, target)]
      ensures projectiles == old(projectiles[..|projectiles| - 1]) && pool == old(pool) + [pr]
      ensures !pr.active && !pr.visible
    {
      RemoveFirstLast(projectiles);
      InstantStrike(target, pr.damage, fx, now);
      events := events + [Hit(pr, target)];
      RemoveProjectile(pr);
      // `if (killed) return;` is the method's end either way
    }

    /** The enemy's part of an instant hit: the damage, then the slow if configured. */
    method InstantStrike(target: Enemy, damage: real, fx: Option<HitEffects>, now: real)
      requires effectSystem.Valid() && target.Valid()
      modifies target, effectSystem
      ensures effectSystem.Valid() && target.Valid()
      ensures HitOnce(target, damage)
      ensures SlowOf(fx, now).Some? ==>
        AppliedEffect(effectSystem, target, SlowOf(fx, now).value, old(effectSystem.enemyEffects),
                      old(effectSystem.events), old(target.active), old(target.data.speed))
      ensures SlowOf(fx, now).None? ==> unchanged(effectSystem) && target.data.speed == old(target.data.speed)
    {
      ghost var m0, ev0, active0, speed0 := effectSystem.enemyEffects, effectSystem.events, target.active, target.data.speed;
      var killed := target.TakeDamage(damage);
      assert effectSystem.enemyEffects == m0 && effectSystem.events == ev0;
      assert target.active == active0 && target.data.speed == speed0;
      ApplyIfAny(target, SlowOf(fx, now));
    }

    /**
     * A projectile reached its target: splash or plain damage, then the slow
     * and the poison the projectile carries, PROJECTILE_HIT, and the pool.
     */
    method HandleProjectileHit(pr: Projectile, target: Enemy, now: real, scene: seq<Enemy>, dist: (Point, Point) -> real)
      requires Valid() && pr in projectiles && target.Valid()
      requires NoDuplicates(scene)
      requires forall a, b :: IsDistance(a, b, dist(a, b))
      modifies this`projectiles, this`pool, this`events, pr`visible, pr`active, target
      modifies if pr.effects.Some? then {effectSystem} else {}, if pr.effects.Some? then scene else []
      ensures Valid() && target.Valid()
      ensures events == old(events) + [Hit(pr, target)]
      ensures projectiles == RemoveFirst(old(projectiles), pr) && pool == old(pool) + [pr]
      ensures !pr.active && !pr.visible
      ensures pr.effects.None? ==>
        HitOnce(target, old(pr.damage)) && target.data.speed == old(target.data.speed)
    {
      Strike(pr, target, now, scene, dist);
      events := events + [Hit(pr, target)];
      RemoveProjectile(pr);
    }

    /** The damage of a hit, then the effects the projectile carries. */
    method Strike(pr: Projectile, target: Enemy, now: real, scene: seq<Enemy>, dist: (Point, Point) -> real)
      requires effectSystem.Valid() && target.Valid()
      requires NoDuplicates(scene)
      requires forall a, b :: IsDistance(a, b, dist(a, b))
      modifies target, if pr.effects.Some? then {effectSystem} else {}, if pr.effects.Some? then scene else []
      ensures effectSystem.Valid() && target.Valid()
      ensures pr.effects.None? ==>
        HitOnce(target, pr.damage) && target.data.speed == old(target.data.speed)
    {
      DealDamage(pr, target, scene, dist);
      ApplyCarried(target, pr.effects, now);
    }

    /**
     * `update`: walks the list from the back. An inactive projectile goes back
     * to the pool; an active one flies, and on a hit either goes to hit
     * handling (a live target) or emits PROJECTILE_MISSED and goes back to the
     * pool. `arrived[i]` is the outcome of the flight of `projectiles[i]`.
     */
    method Update(arrived: seq<bool>, now: real, scene: seq<Enemy>, dist: (Point, Point) -> real)
      requires Valid() && Unarmed() && |arrived| == |projectiles|
      requires forall e :: e in Aimed(projectiles) ==> e.Valid()
      requires NoDuplicates(scene)
      requires forall a, b :: IsDistance(a, b, dist(a, b))
      modifies this`projectiles, this`pool, this`events
      modifies projectiles`active, projectiles`visible, projectiles`destroyed, Aimed(projectiles)
      ensures Ended(old(Shots(projectiles, arrived)), old(pool), old(events))
      ensures var shots := old(Shots(projectiles, arrived));
        forall j :: 0 <= j < |shots| && shots[j].target.Some? ==>
          var e := shots[j].target.value;
          Damaged(e, old(Snap(e)), DamageFrom(shots, e))
    {
      ghost var ps := projectiles;
      ghost var shots := Shots(ps, arrived);
      ghost var targets := Aimed(ps);
      ghost var blank := EnemySnap(false, EnemyData(Slow, 0.0, 0.0, 0.0, 0, []), 0, false, false, Point(0.0, 0.0), []);
      ghost var snaps := seq(|ps|, j requires 0 <= j < |ps| reads if 0 <= j < |ps| then ShotReads(ps[j]) else {} =>
        if ps[j].target.Some? then Snap(ps[j].target.value) else blank);
      assert forall j :: 0 <= j < |ps| && shots[j].target.Some? ==>
        shots[j].target.value in targets && snaps[j] == Snap(shots[j].target.value);
      ProgressStart(arrived, ps, shots, snaps);
      assert ShotTargets(shots) <= targets by {
        forall e | e in ShotTargets(shots) ensures e in targets {
          var j :| 0 <= j < |shots| && shots[j].target.Some? && shots[j].target.value == e;
        }
      }
      RunTurns(arrived, now, scene, dist, ps, shots, snaps, old(pool), old(events));
      ProgressDone(arrived, ps, shots, snaps, old(pool), old(events));
    }

    /** Before the loop nothing has had its turn. */
    lemma ProgressStart(arrived: seq<bool>, ps: seq<Projectile>, shots: seq<Shot>, snaps: seq<EnemySnap>)
      requires Valid() && Unarmed() && ps == projectiles && |arrived| == |ps|
      requires shots == Shots(ps, arrived) && |snaps| == |ps|
      requires forall j :: 0 <= j < |ps| && shots[j].target.Some? ==>
        shots[j].target.value in Aimed(ps) && snaps[j] == Snap(shots[j].target.value)
      requires forall e :: e in Aimed(ps) ==> e.Valid()
      ensures Progress(|ps|, ps, arrived, shots, snaps, pool, events)
    {
      assert ps[..|ps|] == ps && shots[|ps|..] == [];
    }

    /**
     * The state `update` leaves, given the frame's outcomes `shots` and the pool
     * and events it started with: the projectiles that stay, in order; the
     * ones that left appended to the pool, last first; the events of each
     * turn, last projectile first; every projectile's flags as its outcome says.
     */
    ghost predicate Ended(shots: seq<Shot>, pool0: seq<Projectile>, ev0: seq<ProjectileEvent>)
      reads this, effectSystem, set j | 0 <= j < |shots| :: shots[j].p
    {
      Valid() && Unarmed()
      && projectiles == Staying(shots) && pool == pool0 + Returned(shots) && events == ev0 + Reported(shots)
      && forall j :: 0 <= j < |shots| ==> Settled(shots[j])
    }

    /** After the loop every projectile has had its turn. */
    lemma ProgressDone(arrived: seq<bool>, ps: seq<Projectile>, shots: seq<Shot>, snaps: seq<EnemySnap>,
                       pool0: seq<Projectile>, ev0: seq<ProjectileEvent>)
      requires Progress(0, ps, arrived, shots, snaps, pool0, ev0)
      ensures Ended(shots, pool0, ev0)
      ensures forall j :: 0 <= j < |shots| && shots[j].target.Some? ==>
        Damaged(shots[j].target.value, snaps[j], DamageFrom(shots, shots[j].target.value))
    {
      assert ps[..0] == [] && shots[0..] == shots;
    }

    /** The `update` loop, from the last projectile down to the first. */
    method RunTurns(arrived: seq<bool>, now: real, scene: seq<Enemy>, dist: (Point, Point) -> real,
                    ghost ps: seq<Projectile>, ghost shots: seq<Shot>, ghost snaps: seq<EnemySnap>,
                    ghost pool0: seq<Projectile>, ghost ev0: seq<ProjectileEvent>)
      requires Progress(|arrived|, ps, arrived, shots, snaps, pool0, ev0)
      requires NoDuplicates(scene)
      requires forall a, b :: IsDistance(a, b, dist(a, b))
      modifies this`projectiles, this`pool, this`events, ps`active, ps`visible, ps`destroyed, ShotTargets(shots)
      ensures Progress(0, ps, arrived, shots, snaps, pool0, ev0)
    {
      var i: nat := |arrived|;
      while i > 0
        invariant Progress(i, ps, arrived, shots, snaps, pool0, ev0)
      {
        i := i - 1;
        ShotTargetAt(shots, i);
        Turn(i, arrived[i], now, scene, dist, ps, arrived, shots, snaps, pool0, ev0);
      }
    }

    /**
     * How far `update` has got: the projectiles `ps[i..]` had their turn, with
     * the outcomes `shots[i..]`; `ps[..i]` are untouched; every target, first
     * seen as `snaps[j]`, has taken the damage of the hits so far.
     */
    ghost predicate Progress(i: nat, ps: seq<Projectile>, arrived: seq<bool>, shots: seq<Shot>,
                             snaps: seq<EnemySnap>, pool0: seq<Projectile>, ev0: seq<ProjectileEvent>)
      reads this, effectSystem, ps, ShotTargets(shots)
    {
      Valid() && Unarmed()
      && i <= |ps| == |arrived| == |shots| == |snaps| && NoDuplicates(ps)
      && (forall j :: 0 <= j < |ps| ==> shots[j].p == ps[j] && ps[j].target == shots[j].target)
      && projectiles == ps[..i] + Staying(shots[i..])
      && pool == pool0 + Returned(shots[i..])
      && events == ev0 + Reported(shots[i..])
      && (forall j :: 0 <= j < i ==> (ShotTargetAt(shots, j); ShotOf(ps[j], arrived[j]) == shots[j]))
      && (forall j :: i <= j < |ps| ==> Settled(shots[j]))
      && forall j :: 0 <= j < |ps| && shots[j].target.Some? ==>
           var e := shots[j].target.value;
           ShotTargetAt(shots, j);
           OnPath(snaps[j].data, snaps[j].moving) && Damaged(e, snaps[j], DamageFrom(shots[i..], e))
    }

    /** One turn of the `update` loop, stated over the frame's outcome. */
    method Turn(i: nat, arrived_i: bool, now: real, scene: seq<Enemy>, dist: (Point, Point) -> real,
                ghost ps: seq<Projectile>, ghost arrived: seq<bool>, ghost shots: seq<Shot>,
                ghost snaps: seq<EnemySnap>, ghost pool0: seq<Projectile>, ghost ev0: seq<ProjectileEvent>)
      requires Progress(i + 1, ps, arrived, shots, snaps, pool0, ev0) && arrived[i] == arrived_i
      requires NoDuplicates(scene)
      requires forall a, b :: IsDistance(a, b, dist(a, b))
      modifies this`projectiles, this`pool, this`events, ps`active, ps`visible, ps`destroyed
      modifies if shots[i].target.Some? then {shots[i].target.value} else {}
      ensures Progress(i, ps, arrived, shots, snaps, pool0, ev0)
    {
      var pr := projectiles[i];
      ghost var s := shots[i];
      NoDuplicatesAt(ps, i);
      UpdateTurn(ps, shots, i, pool0, ev0);
      ghost var owed := if s.target.Some? then DamageFrom(shots[i + 1..], s.target.value) else 0.0;
      UpdateOne(pr, i, arrived_i, now, scene, dist, s, snaps[i], owed);
      forall j | 0 <= j < |ps| && shots[j].target.Some?
        ensures Damaged(shots[j].target.value, snaps[j], DamageFrom(shots[i..], shots[j].target.value))
      {
        var e := shots[j].target.value;
        assert DamageFrom(shots[i..], e) == ShotDamage(s, e) + DamageFrom(shots[i + 1..], e);
        if shots[j].target != s.target {
          assert ShotDamage(s, e) == 0.0;
          assert old(Damaged(e, snaps[j], DamageFrom(shots[i + 1..], e)));
          assert unchanged(e);
        }
      }
      forall j | 0 <= j < i
        ensures ShotOf(ps[j], arrived[j]) == shots[j]
      {
        assert ps[j] != pr;
        assert old(ShotOf(ps[j], arrived[j])) == shots[j];
        assert ps[j].target.Some? ==> ps[j].target.value.active == old(ps[j].target.value.active);
      }
      forall j | i < j < |ps|
        ensures Settled(shots[j])
      {
        assert ps[j] != pr;
      }
    }

    /** One turn of the `update` loop, for the projectile at index i. */
    method UpdateOne(pr: Projectile, i: nat, arrived: bool, now: real, scene: seq<Enemy>, dist: (Point, Point) -> real,
                     ghost s: Shot, ghost s0: EnemySnap, ghost owed: real)
      requires Valid() && Unarmed() && i < |projectiles| && projectiles[i] == pr
      requires s == ShotOf(pr, arrived)
      requires pr.target.Some? ==> Damaged(pr.target.value, s0, owed) && OnPath(s0.data, s0.moving)
      requires NoDuplicates(scene)
      requires forall a, b :: IsDistance(a, b, dist(a, b))
      modifies this`projectiles, this`pool, this`events
      modifies pr`active, pr`visible, pr`destroyed, if pr.target.Some? then {pr.target.value} else {}
      ensures Valid() && Unarmed()
      ensures Settled(s)
      ensures events == old(events) + ShotEvents(s)
      ensures Leaves(s) ==> projectiles == old(projectiles[..i] + projectiles[i + 1..]) && pool == old(pool) + [pr]
      ensures !Leaves(s) ==> projectiles == old(projectiles) && pool == old(pool)
      ensures s.target.Some? ==> Damaged(s.target.value, s0, ShotDamage(s, s.target.value) + owed)
    {
      NoDuplicatesAt(projectiles, i);
      assert IndexOf(projectiles, pr) == i;
      if !pr.active {
        RemoveProjectile(pr);
        return;
      }
      var hit := pr.Update(arrived);
      if hit {
        var target := pr.target;
        if target.Some? && target.value.active {
          HandleProjectileHit(pr, target.value, now, scene, dist);
        } else {
          events := events + [Missed(pr)];
          RemoveProjectile(pr);
        }
      }
    }

    /** The slow and then the poison a projectile carries, each only when configured. */
    method ApplyCarried(target: Enemy, fx: Option<HitEffects>, now: real)
      requires effectSystem.Valid()
      modifies if fx.Some? then {effectSystem} else {}, target`data
      ensures effectSystem.Valid()
      ensures target.data == old(target.data).(speed := target.data.speed)
      ensures fx.None? ==> unchanged(effectSystem) && target.data == old(target.data)
    {
      ApplyIfAny(target, SlowOf(fx, now));
      ApplyIfAny(target, PoisonOf(fx, now));
    }

    /** The damage part of a hit: a splash when the projectile carries a positive radius, else the target alone. */
    method DealDamage(pr: Projectile, target: Enemy, scene: seq<Enemy>, dist: (Point, Point) -> real)
      requires target.Valid()
      requires NoDuplicates(scene)
      requires forall a, b :: IsDistance(a, b, dist(a, b))
      modifies target, if pr.effects.Some? then scene else []
      ensures target.Valid()
      ensures HitOnce(target, pr.damage) && target.data.speed == old(target.data.speed)
    {
      var fx := pr.effects;
      if fx.Some? && Truthy(fx.value.splashRadius) && fx.value.splashRadius.value > 0.0 {
        // an absent multiplier is NaN damage in JavaScript; the model reads it as 0
        var mult := if fx.value.splashDamage.Some? then fx.value.splashDamage.value else 0.0;
        HandleSplashDamage(pr, target, pr.damage, fx.value.splashRadius.value, mult, scene, dist);
      } else {
        var killed := target.TakeDamage(pr.damage);
      }
    }

    /** `effectSystem.applyEffect(target, e)` when a record was built, nothing otherwise. */
    method ApplyIfAny(target: Enemy, e: Option<Effect>)
      requires effectSystem.Valid()
      requires e.Some? && e.value.SlowEffect? ==> e.value.amount != 0.0
      modifies if e.Some? then {effectSystem} else {}, target`data
      ensures effectSystem.Valid()
      ensures target.data == old(target.data).(speed := target.data.speed)
      ensures e.Some? ==>
        AppliedEffect(effectSystem, target, e.value, old(effectSystem.enemyEffects),
                      old(effectSystem.events), old(target.active), old(target.data.speed))
      ensures e.None? ==> unchanged(effectSystem) && target.data == old(target.data)
    {
      if e.Some? {
        effectSystem.ApplyEffect(target, e.value);
      }
    }

    /**
     * The centre takes the base damage; every other active enemy of the scene
     * within the radius takes the splash share, scaled down with its distance.
     */
    method HandleSplashDamage(pr: Projectile, center: Enemy, base: real, radius: real, mult: real,
                              scene: seq<Enemy>, dist: (Point, Point) -> real)
      requires center.Valid() && radius > 0.0
      requires NoDuplicates(scene)
      requires forall a, b :: IsDistance(a, b, dist(a, b))
      modifies center, scene
      ensures center.Valid() && HitOnce(center, base) && center.data.speed == old(center.data.speed)
      ensures forall i :: 0 <= i < |scene| && scene[i] != center ==> Splashed(scene[i], pr.pos, base, mult, radius, dist)
    {
      var killed := center.TakeDamage(base);
      var splash := base * mult;
      for i := 0 to |scene|
        invariant center.Valid() && HitOnce(center, base) && center.data.speed == old(center.data.speed)
        invariant forall j :: 0 <= j < i && scene[j] != center ==> Splashed(scene[j], pr.pos, base, mult, radius, dist)
        invariant forall j :: i <= j < |scene| && scene[j] != center ==> unchanged(scene[j])
      {
        var e := scene[i];
        NoDuplicatesAt(scene, i);
        if e.active && e != center {
          var d := dist(pr.pos, e.pos);
          IsDistanceWithin(pr.pos, e.pos, d, radius);
          if d <= radius {
            var f := 1.0 - (d / radius) * 0.5;
            killed := e.TakeDamage(splash * f);
          }
        }
      }
    }

    /** Takes the projectile out of the list if it is there and always pushes it to the pool. */
    method RemoveProjectile(pr: Projectile)
      requires Valid()
      modifies this`projectiles, this`pool, pr`visible, pr`active
      ensures projectiles == RemoveFirst(old(projectiles), pr)
      ensures pool == old(pool) + [pr]
      ensures !pr.active && !pr.visible
      ensures pr in old(projectiles) ==> Valid()
    {
      NoDuplicatesRemoveFirst(projectiles, pr);
      var index := IndexOf(projectiles, pr);
      if index > -1 {
        projectiles := projectiles[..index] + projectiles[index + 1..];
      }
      pr.visible := false;
      pr.active := false;
      if pr in old(projectiles) {
        NoDuplicatesSnoc(pool, pr);
      }
      pool := pool + [pr];
    }

    /** Destroys every projectile in flight and in the pool and empties both. */
    method Clear()
      modifies this`projectiles, this`pool, projectiles, pool
      ensures projectiles == [] && pool == []
      ensures forall i :: 0 <= i < |old(projectiles)| ==> old(projectiles)[i].destroyed && !old(projectiles)[i].active
      ensures forall i :: 0 <= i < |old(pool)| ==> old(pool)[i].destroyed && !old(pool)[i].active
    {
      var flying, pooled := projectiles, pool;
      for i := 0 to |flying|
        invariant projectiles == flying && pool == pooled
        invariant forall j :: 0 <= j < i ==> flying[j].destroyed && !flying[j].active
      {
        flying[i].Destroy();
      }
      projectiles := [];
      for i := 0 to |pooled|
        invariant projectiles == [] && pool == pooled
        invariant forall j :: 0 <= j < |flying| ==> flying[j].destroyed && !flying[j].active
        invariant forall j :: 0 <= j < i ==> pooled[j].destroyed && !pooled[j].active
      {
        pooled[i].Destroy();
      }
      pool := [];
    }
  }
}
