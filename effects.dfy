// src/game/systems/EffectSystem.ts: slow and poison records kept per enemy,
// stacked, replaced, ticked and expired. The Map<Enemy, EnemyEffect[]> is a
// `map` field; the 100 ms timer that drives `updateEffects` is the caller,
// which passes the scene time `now` and the map's iteration order.
module Effects {
  import opened Common
  import opened Enemies

  datatype Effect =
    | SlowEffect(amount: real, duration: real, endTime: real)
    | PoisonEffect(damagePerSecond: real, duration: real, endTime: real, stacks: Option<int>, lastTick: Option<real>)

  datatype EffectEventKind = EffectApplied | EffectTick | EffectExpired

  datatype EffectEvent = EffectEvent(kind: EffectEventKind, effect: Effect, enemy: Enemy)

  predicate NonZeroSlows(effects: seq<Effect>)
  {
    forall i :: 0 <= i < |effects| ==> effects[i].SlowEffect? ==> effects[i].amount != 0.0
  }

  function SlowCount(effects: seq<Effect>): nat
  {
    if effects == [] then 0
    else (if effects[0].SlowEffect? then 1 else 0) + SlowCount(effects[1..])
  }

  /** An effect list as the system keeps it: at most one slow, and slows that can be divided out. */
  predicate WellFormed(effects: seq<Effect>)
  {
    NonZeroSlows(effects) && SlowCount(effects) <= 1
  }

  /** `effects.find(e => e.type === 'poison')`, as an index (-1 for none). */
  function FirstPoison(effects: seq<Effect>): (k: int)
    ensures -1 <= k < |effects|
    ensures k >= 0 ==> effects[k].PoisonEffect? && forall j :: 0 <= j < k ==> !effects[j].PoisonEffect?
    ensures k < 0 ==> forall j :: 0 <= j < |effects| ==> !effects[j].PoisonEffect?
  {
    if effects == [] then -1
    else if effects[0].PoisonEffect? then 0
    else var k := FirstPoison(effects[1..]); if k < 0 then -1 else k + 1
  }

  /** `effects.find(e => e.type === 'slow')`, as an index (-1 for none). */
  function FirstSlow(effects: seq<Effect>): (k: int)
    ensures -1 <= k < |effects|
    ensures k >= 0 ==> effects[k].SlowEffect? && forall j :: 0 <= j < k ==> !effects[j].SlowEffect?
    ensures k < 0 ==> forall j :: 0 <= j < |effects| ==> !effects[j].SlowEffect?
  {
    if effects == [] then -1
    else if effects[0].SlowEffect? then 0
    else var k := FirstSlow(effects[1..]); if k < 0 then -1 else k + 1
  }

  /** `effects.filter(e => e.type !== 'slow')`. */
  function WithoutSlows(effects: seq<Effect>): (r: seq<Effect>)
    ensures SlowCount(r) == 0
    ensures forall i :: 0 <= i < |r| ==> r[i] in effects
  {
    if effects == [] then []
    else
      var head := if effects[0].SlowEffect? then [] else [effects[0]];
      var rest := WithoutSlows(effects[1..]);
      SlowCountAppend(head, rest);
      head + rest
  }

  /** `(existing.stacks || 1)`: an absent or zero count reads as one stack. */
  function StackBase(s: Option<int>): int
  {
    if s.Some? && s.value != 0 then s.value else 1
  }

  /** What `applyEffect` does to an active enemy's list: the new list, the event, and the speed multiplier. */
  datatype Applied = Applied(effects: seq<Effect>, event: Option<EffectEvent>, speedFactor: real)

  predicate Stacks(effects: seq<Effect>, e: Effect)
  {
    e.PoisonEffect? && e.stacks.Some? && e.stacks.value > 0 && FirstPoison(effects) >= 0
  }

  function Apply(effects: seq<Effect>, e: Effect, enemy: Enemy): Applied
  {
    if Stacks(effects, e) then
      var k := FirstPoison(effects);
      var p := effects[k];
      var merged := p.(damagePerSecond := p.damagePerSecond + e.damagePerSecond,
                       endTime := MaxR(p.endTime, e.endTime),
                       stacks := Some(StackBase(p.stacks) + 1));
      Applied(effects[k := merged], Some(EffectEvent(EffectTick, merged, enemy)), 1.0)
    else if e.SlowEffect? && FirstSlow(effects) >= 0 then
      if e.amount < effects[FirstSlow(effects)].amount then
        Applied(WithoutSlows(effects) + [e], Some(EffectEvent(EffectApplied, e, enemy)), e.amount)
      else
        Applied(effects, None, 1.0)
    else
      Applied(effects + [e], Some(EffectEvent(EffectApplied, e, enemy)), if e.SlowEffect? then e.amount else 1.0)
  }

  lemma {:induction false} SlowCountAppend(a: seq<Effect>, b: seq<Effect>)
    ensures SlowCount(a + b) == SlowCount(a) + SlowCount(b)
  {
    if a == [] {
      assert a + b == b;
    } else {
      assert (a + b)[1..] == a[1..] + b;
      SlowCountAppend(a[1..], b);
    }
  }

  lemma {:induction false} SlowCountZero(effects: seq<Effect>)
    ensures SlowCount(effects) == 0 <==> forall i :: 0 <= i < |effects| ==> !effects[i].SlowEffect?
  {
    if effects != [] {
      SlowCountZero(effects[1..]);
      assert forall i :: 1 <= i < |effects| ==> effects[i] == effects[1..][i - 1];
    }
  }

  lemma {:induction false} SlowCountUpdate(effects: seq<Effect>, k: nat, x: Effect)
    requires k < |effects| && !effects[k].SlowEffect? && !x.SlowEffect?
    ensures SlowCount(effects[k := x]) == SlowCount(effects)
  {
    if k > 0 {
      SlowCountUpdate(effects[1..], k - 1, x);
      assert effects[k := x][1..] == effects[1..][k - 1 := x];
    }
  }

  /** Applying an effect keeps the list well formed: there is never a second slow. */
  lemma ApplyWellFormed(effects: seq<Effect>, e: Effect, enemy: Enemy)
    requires WellFormed(effects)
    requires e.SlowEffect? ==> e.amount != 0.0
    ensures WellFormed(Apply(effects, e, enemy).effects)
    ensures |Apply(effects, e, enemy).effects| > 0
  {
    var r := Apply(effects, e, enemy).effects;
    if Stacks(effects, e) {
      var k := FirstPoison(effects);
      SlowCountUpdate(effects, k, r[k]);
      assert r == effects[k := r[k]];
    } else if e.SlowEffect? && FirstSlow(effects) >= 0 {
      if e.amount < effects[FirstSlow(effects)].amount {
        SlowCountAppend(WithoutSlows(effects), [e]);
        assert SlowCount([e]) == 1;
      }
    } else {
      SlowCountAppend(effects, [e]);
      if e.SlowEffect? {
        SlowCountZero(effects);
        assert SlowCount(effects) == 0;
      }
      assert SlowCount([e]) <= 1;
    }
  }

  /** A stacking poison merges into the first poison record: nothing is appended. */
  lemma PoisonStacks(effects: seq<Effect>, e: Effect, enemy: Enemy)
    requires e.PoisonEffect? && e.stacks.Some? && e.stacks.value > 0
    requires FirstPoison(effects) >= 0
    ensures var k := FirstPoison(effects);
            var r := Apply(effects, e, enemy);
            |r.effects| == |effects|
            && (forall j :: 0 <= j < |effects| && j != k ==> r.effects[j] == effects[j])
            && r.effects[k].damagePerSecond == effects[k].damagePerSecond + e.damagePerSecond
            && r.effects[k].endTime == MaxR(effects[k].endTime, e.endTime)
            && r.effects[k].stacks == Some(StackBase(effects[k].stacks) + 1)
            && r.effects[k].duration == effects[k].duration
            && r.event == Some(EffectEvent(EffectTick, r.effects[k], enemy))
            && r.speedFactor == 1.0
  {
  }

  /** A poison without a stack count, or with none to merge into, becomes a parallel record at the end. */
  lemma PoisonAppends(effects: seq<Effect>, e: Effect, enemy: Enemy)
    requires e.PoisonEffect? && (e.stacks.None? || e.stacks.value <= 0 || FirstPoison(effects) < 0)
    ensures Apply(effects, e, enemy) == Applied(effects + [e], Some(EffectEvent(EffectApplied, e, enemy)), 1.0)
  {
  }

  /** A new slow replaces the existing one only when strictly stronger (smaller multiplier). */
  lemma SlowReplacement(effects: seq<Effect>, e: Effect, enemy: Enemy)
    requires e.SlowEffect? && FirstSlow(effects) >= 0
    ensures var old_ := effects[FirstSlow(effects)];
            var r := Apply(effects, e, enemy);
            (e.amount < old_.amount ==> r.effects == WithoutSlows(effects) + [e] && r.speedFactor == e.amount
                                         && r.event == Some(EffectEvent(EffectApplied, e, enemy)))
            && (e.amount >= old_.amount ==> r == Applied(effects, None, 1.0))
  {
  }

  // ---- updateEffects -------------------------------------------------------

  /** `lastTick || endTime - duration * 1000`: an unset or zero lastTick falls back to the start time. */
  function LastTick(p: Effect): real
    requires p.PoisonEffect?
  {
    if p.lastTick.Some? && p.lastTick.value != 0.0 then p.lastTick.value
    else p.endTime - p.duration * 1000.0
  }

  predicate Expired(e: Effect, now: real)
  {
    now >= e.endTime
  }

  /** A live poison whose last tick lies at least one second back. */
  predicate Due(e: Effect, now: real)
  {
    e.PoisonEffect? && !Expired(e, now) && now - LastTick(e) >= 1000.0
  }

  /** The state one visit of `updateEffects` threads through an enemy's effects. */
  datatype Tick = Tick(kept: seq<Effect>, health: real, speed: real, kills: nat, events: seq<EffectEvent>)

  function TickStep(t: Tick, e: Effect, now: real, enemy: Enemy): Tick
    requires e.SlowEffect? ==> e.amount != 0.0
  {
    if Expired(e, now) then
      t.(speed := if e.SlowEffect? then t.speed / e.amount else t.speed,
         events := t.events + [EffectEvent(EffectExpired, e, enemy)])
    else if Due(e, now) then
      var ticked := e.(lastTick := Some(now));
      var h := t.health - e.damagePerSecond;
      t.(kept := t.kept + [ticked], health := h, kills := t.kills + (if h <= 0.0 then 1 else 0),
         events := t.events + [EffectEvent(EffectTick, ticked, enemy)])
    else
      t.(kept := t.kept + [e])
  }

  function TickAll(effects: seq<Effect>, t: Tick, now: real, enemy: Enemy): Tick
    requires NonZeroSlows(effects)
    decreases |effects|
  {
    if effects == [] then t
    else TickAll(effects[1..], TickStep(t, effects[0], now, enemy), now, enemy)
  }

  /** One visit of an active enemy, starting from its health and speed. */
  function Visit(effects: seq<Effect>, health: real, speed: real, now: real, enemy: Enemy): Tick
    requires NonZeroSlows(effects)
  {
    TickAll(effects, Tick([], health, speed, 0, []), now, enemy)
  }

  // Reference definitions of what a visit keeps, deals and restores.

  /** The record as kept after the visit: a due poison carries the new tick time. */
  function Ticked(e: Effect, now: real): Effect
  {
    if Due(e, now) then e.(lastTick := Some(now)) else e
  }

  /** The unexpired effects, in order, as kept. */
  function Surviving(effects: seq<Effect>, now: real): seq<Effect>
  {
    if effects == [] then []
    else (if Expired(effects[0], now) then [] else [Ticked(effects[0], now)]) + Surviving(effects[1..], now)
  }

  /** Damage dealt: the per-second damage of every due poison, once. */
  function PoisonDamage(effects: seq<Effect>, now: real): real
  {
    if effects == [] then 0.0
    else (if Due(effects[0], now) then effects[0].damagePerSecond else 0.0) + PoisonDamage(effects[1..], now)
  }

  /** The slows that expire, in list order. */
  function ExpiredSlows(effects: seq<Effect>, now: real): (r: seq<Effect>)
    ensures forall i :: 0 <= i < |r| ==> r[i] in effects && r[i].SlowEffect? && Expired(r[i], now)
  {
    if effects == [] then []
    else (if effects[0].SlowEffect? && Expired(effects[0], now) then [effects[0]] else [])
         + ExpiredSlows(effects[1..], now)
  }

  /** A visit keeps exactly the unexpired effects, in order, with due poisons carrying the new tick time. */
  lemma {:induction false} TickAllKept(effects: seq<Effect>, t: Tick, now: real, enemy: Enemy)
    requires NonZeroSlows(effects)
    ensures TickAll(effects, t, now, enemy).kept == t.kept + Surviving(effects, now)
  {
    if effects != [] {
      var e := effects[0];
      var t1 := TickStep(t, e, now, enemy);
      TickAllKept(effects[1..], t1, now, enemy);
      var head := if Expired(e, now) then [] else [Ticked(e, now)];
      assert t1.kept == t.kept + head;
      assert Surviving(effects, now) == head + Surviving(effects[1..], now);
      ConcatAssoc(t.kept, head, Surviving(effects[1..], now));
    }
  }

  /** A visit deals each due poison's per-second damage exactly once. */
  lemma {:induction false} TickAllHealth(effects: seq<Effect>, t: Tick, now: real, enemy: Enemy)
    requires NonZeroSlows(effects)
    ensures TickAll(effects, t, now, enemy).health == t.health - PoisonDamage(effects, now)
    ensures TickAll(effects, t, now, enemy).kills >= t.kills
  {
    if effects != [] {
      TickAllHealth(effects[1..], TickStep(t, effects[0], now, enemy), now, enemy);
    }
  }

  /** A visit divides out exactly the expiring slows, one at a time, in list order. */
  lemma {:induction false} TickAllSpeed(effects: seq<Effect>, t: Tick, now: real, enemy: Enemy)
    requires NonZeroSlows(effects)
    ensures NonZeroSlows(ExpiredSlows(effects, now))
    ensures TickAll(effects, t, now, enemy).speed == Unslowed(t.speed, ExpiredSlows(effects, now))
  {
    if effects != [] {
      var e := effects[0];
      var t1 := TickStep(t, e, now, enemy);
      TickAllSpeed(effects[1..], t1, now, enemy);
      var rest := ExpiredSlows(effects[1..], now);
      if e.SlowEffect? && Expired(e, now) {
        assert ExpiredSlows(effects, now) == [e] + rest;
        assert ([e] + rest)[1..] == rest;
      } else {
        assert ExpiredSlows(effects, now) == rest;
      }
    }
  }

  /** A kill never drops the enemy's bookkeeping: the poison that killed is among the kept effects. */
  lemma {:induction false} KillKeepsEntry(effects: seq<Effect>, t: Tick, now: real, enemy: Enemy)
    requires NonZeroSlows(effects)
    requires TickAll(effects, t, now, enemy).kills > t.kills
    ensures |TickAll(effects, t, now, enemy).kept| > |t.kept|
  {
    var t1 := TickStep(t, effects[0], now, enemy);
    TickAllKept(effects[1..], t1, now, enemy);
    if t1.kills == t.kills {
      KillKeepsEntry(effects[1..], t1, now, enemy);
    }
  }

  /** After a visit at time `now` (the scene clock is past 0), nothing left is expired or due at `now`. */
  lemma {:induction false} SurvivorsQuiet(effects: seq<Effect>, now: real)
    requires now != 0.0
    ensures forall i :: 0 <= i < |Surviving(effects, now)| ==>
              !Expired(Surviving(effects, now)[i], now) && !Due(Surviving(effects, now)[i], now)
  {
    if effects != [] {
      SurvivorsQuiet(effects[1..], now);
      var e := effects[0];
      var head := if Expired(e, now) then [] else [Ticked(e, now)];
      assert Surviving(effects, now) == head + Surviving(effects[1..], now);
      if !Expired(e, now) && Due(e, now) {
        assert LastTick(Ticked(e, now)) == now;
      }
    }
  }

  /** A visit over effects that are neither expired nor due changes nothing. */
  lemma {:induction false} QuietVisit(effects: seq<Effect>, t: Tick, now: real, enemy: Enemy)
    requires NonZeroSlows(effects)
    requires forall i :: 0 <= i < |effects| ==> !Expired(effects[i], now) && !Due(effects[i], now)
    ensures TickAll(effects, t, now, enemy) == t.(kept := t.kept + effects)
  {
    if effects != [] {
      QuietVisit(effects[1..], t.(kept := t.kept + [effects[0]]), now, enemy);
      assert t.kept + [effects[0]] + effects[1..] == t.kept + effects;
    }
  }

  lemma {:induction false} SurvivingNonZero(effects: seq<Effect>, now: real)
    requires NonZeroSlows(effects)
    ensures NonZeroSlows(Surviving(effects, now))
    ensures SlowCount(Surviving(effects, now)) <= SlowCount(effects)
  {
    if effects != [] {
      SurvivingNonZero(effects[1..], now);
      var head := if Expired(effects[0], now) then [] else [Ticked(effects[0], now)];
      SlowCountAppend(head, Surviving(effects[1..], now));
      assert Surviving(effects, now) == head + Surviving(effects[1..], now);
    }
  }

  /**
   * JavaScript's Map.forEach visits an entry that is deleted and set again
   * during the pass (what a kill does) a second time. That second visit at
   * the same `now` is quiet: it keeps the same list, deals no damage and
   * emits nothing, so one visit per enemy is the whole effect of the pass.
   */
  lemma SecondVisitQuiet(effects: seq<Effect>, health: real, speed: real, now: real, enemy: Enemy)
    requires NonZeroSlows(effects) && now != 0.0
    ensures var first := Visit(effects, health, speed, now, enemy);
            NonZeroSlows(first.kept)
            && Visit(first.kept, first.health, first.speed, now, enemy)
               == Tick(first.kept, first.health, first.speed, 0, [])
  {
    var first := Visit(effects, health, speed, now, enemy);
    TickAllKept(effects, Tick([], health, speed, 0, []), now, enemy);
    assert first.kept == Surviving(effects, now);
    SurvivingNonZero(effects, now);
    SurvivorsQuiet(effects, now);
    QuietVisit(first.kept, Tick([], first.health, first.speed, 0, []), now, enemy);
  }

  lemma TickAllUnfold(effects: seq<Effect>, i: nat, t: Tick, now: real, enemy: Enemy)
    requires NonZeroSlows(effects) && i < |effects|
    ensures NonZeroSlows(effects[i..]) && NonZeroSlows(effects[i + 1..])
    ensures TickAll(effects[i..], t, now, enemy) == TickAll(effects[i + 1..], TickStep(t, effects[i], now, enemy), now, enemy)
  {
    assert effects[i..][0] == effects[i] && effects[i..][1..] == effects[i + 1..];
  }

  /** What a visit keeps is well formed again. */
  lemma VisitWellFormed(effects: seq<Effect>, health: real, speed: real, now: real, enemy: Enemy)
    requires WellFormed(effects)
    ensures WellFormed(Visit(effects, health, speed, now, enemy).kept)
  {
    TickAllKept(effects, Tick([], health, speed, 0, []), now, enemy);
    assert Visit(effects, health, speed, now, enemy).kept == Surviving(effects, now);
    SurvivingNonZero(effects, now);
  }

  // ---- clearEnemyEffects ---------------------------------------------------

  /** The speed after dividing out every slow in `effects`, one at a time. */
  function Unslowed(speed: real, effects: seq<Effect>): real
    requires NonZeroSlows(effects)
    decreases |effects|
  {
    if effects == [] then speed
    else Unslowed(if effects[0].SlowEffect? then speed / effects[0].amount else speed, effects[1..])
  }

  lemma {:induction false} UnslowedNoSlow(speed: real, effects: seq<Effect>)
    requires NonZeroSlows(effects) && SlowCount(effects) == 0
    ensures Unslowed(speed, effects) == speed
  {
    if effects != [] {
      UnslowedNoSlow(speed, effects[1..]);
    }
  }

  lemma {:induction false} UnslowedAppend(speed: real, a: seq<Effect>, b: seq<Effect>)
    requires NonZeroSlows(a) && NonZeroSlows(b) && NonZeroSlows(a + b)
    ensures Unslowed(speed, a + b) == Unslowed(Unslowed(speed, a), b)
    decreases |a|
  {
    if a == [] {
      assert a + b == b;
    } else {
      assert (a + b)[1..] == a[1..] + b;
      UnslowedAppend(if a[0].SlowEffect? then speed / a[0].amount else speed, a[1..], b);
    }
  }

  lemma MulDiv(x: real, a: real, y: real)
    requires a != 0.0 && y == x * a
    ensures y / a == x
  {
  }

  /** Dividing out the lone slow at the end of a slow-free list divides by its multiplier once. */
  lemma LoneSlowUndone(effects: seq<Effect>, e: Effect, speed: real, list: seq<Effect>)
    requires NonZeroSlows(effects) && SlowCount(effects) == 0
    requires e.SlowEffect? && e.amount != 0.0 && list == effects + [e]
    ensures NonZeroSlows(list) && Unslowed(speed, list) == speed / e.amount
  {
    assert NonZeroSlows(effects + [e]);
    UnslowedAppend(speed, effects, [e]);
    UnslowedNoSlow(speed, effects);
    assert [e][1..] == [];
    assert Unslowed(speed, [e]) == Unslowed(speed / e.amount, []);
  }

  /** A slow applied to an enemy without one is undone exactly by clearing its effects. */
  lemma SlowRoundTrip(effects: seq<Effect>, e: Effect, speed: real, enemy: Enemy)
    requires WellFormed(effects) && SlowCount(effects) == 0
    requires e.SlowEffect? && e.amount != 0.0
    ensures var r := Apply(effects, e, enemy);
            r.speedFactor == e.amount && NonZeroSlows(r.effects) && Unslowed(speed * e.amount, r.effects) == speed
  {
    SlowCountZero(effects);
    assert FirstSlow(effects) < 0;
    assert !Stacks(effects, e);
    var r := Apply(effects, e, enemy);
    assert r.effects == effects + [e] && r.speedFactor == e.amount;
    LoneSlowUndone(effects, e, speed * e.amount, r.effects);
    MulDiv(speed, e.amount, speed * e.amount);
  }

  /**
   * Replacing a slow never undoes the old multiplier: an enemy at speed 100
   * slowed by 0.5 and then by 0.25 is back at 50, not 100, once the
   * remaining slow is divided out.
   */
  lemma SlowReplacementLeavesOldFactor(enemy: Enemy)
    ensures var first := Apply([], SlowEffect(0.5, 1.0, 1000.0), enemy);
            var second := Apply(first.effects, SlowEffect(0.25, 1.0, 1000.0), enemy);
            var speed := 100.0 * first.speedFactor * second.speedFactor;
            NonZeroSlows(second.effects) && Unslowed(speed, second.effects) == 50.0
  {
    var first := Apply([], SlowEffect(0.5, 1.0, 1000.0), enemy);
    assert first.effects == [SlowEffect(0.5, 1.0, 1000.0)];
    var second := Apply(first.effects, SlowEffect(0.25, 1.0, 1000.0), enemy);
    assert WithoutSlows(first.effects) == [];
    assert second.effects == [SlowEffect(0.25, 1.0, 1000.0)];
  }

  // ---- the system ------------------------------------------------------------

  function AllEvents(visits: seq<Option<Tick>>): seq<EffectEvent>
  {
    if visits == [] then [] else VisitEvents(visits[0]) + AllEvents(visits[1..])
  }

  lemma {:induction false} AllEventsSnoc(visits: seq<Option<Tick>>, v: Option<Tick>)
    ensures AllEvents(visits + [v]) == AllEvents(visits) + VisitEvents(v)
  {
    if visits == [] {
      assert visits + [v] == [v];
    } else {
      assert (visits + [v])[1..] == visits[1..] + [v];
      AllEventsSnoc(visits[1..], v);
      ConcatAssoc(VisitEvents(visits[0]), AllEvents(visits[1..]), VisitEvents(v));
    }
  }

  function Kept(v: Option<Tick>): seq<Effect>
  {
    if v.Some? then v.value.kept else []
  }

  function Kills(v: Option<Tick>): nat
  {
    if v.Some? then v.value.kills else 0
  }

  function VisitEvents(v: Option<Tick>): seq<EffectEvent>
  {
    if v.Some? then v.value.events else []
  }

  /** The map after one entry's visit: the survivors, or no entry when none survive. */
  function Settle(m: map<Enemy, seq<Effect>>, en: Enemy, v: Option<Tick>): map<Enemy, seq<Effect>>
  {
    if Kept(v) != [] then m[en := Kept(v)] else m - {en}
  }

  /** The map after the entries of `order` were visited in turn, `visits` giving each visit. */
  function MapAfter(m: map<Enemy, seq<Effect>>, order: seq<Enemy>, visits: seq<Option<Tick>>): map<Enemy, seq<Effect>>
    requires |order| == |visits|
  {
    if order == [] then m
    else Settle(MapAfter(m, order[..|order| - 1], visits[..|visits| - 1]), order[|order| - 1], visits[|visits| - 1])
  }

  lemma MapAfterSnoc(m: map<Enemy, seq<Effect>>, order: seq<Enemy>, visits: seq<Option<Tick>>, v: Option<Tick>)
    requires |visits| < |order|
    ensures MapAfter(m, order[..|visits| + 1], visits + [v]) == Settle(MapAfter(m, order[..|visits|], visits), order[|visits|], v)
  {
    var i := |visits|;
    assert order[..i + 1][..i] == order[..i];
    assert (visits + [v])[..i] == visits;
  }

  /** An enemy that `order` does not list keeps its entry. */
  lemma {:induction false} MapAfterOther(m: map<Enemy, seq<Effect>>, order: seq<Enemy>, visits: seq<Option<Tick>>, en: Enemy)
    requires |order| == |visits| && en !in order
    ensures en in MapAfter(m, order, visits) <==> en in m
    ensures en in m ==> MapAfter(m, order, visits)[en] == m[en]
  {
    if order != [] {
      var n := |order| - 1;
      assert en !in order[..n];
      MapAfterOther(m, order[..n], visits[..n], en);
    }
  }

  lemma AfterSnapOnPath(s: EnemySnap, v: Option<Tick>)
    requires OnPath(s.data, s.moving)
    ensures OnPath(AfterSnap(s, v).data, AfterSnap(s, v).moving)
  {
  }

  /** The visit an entry gets: none for an inactive enemy. */
  function EntryVisit(effects: seq<Effect>, s: EnemySnap, now: real, enemy: Enemy): Option<Tick>
    requires NonZeroSlows(effects)
  {
    if s.active then Some(Visit(effects, s.data.health, s.data.speed, now, enemy)) else None
  }

  /** An enemy after its visit: health and speed from the visit, one death tween per kill. */
  function AfterSnap(s: EnemySnap, v: Option<Tick>): EnemySnap
  {
    if v.Some? then
      var t := v.value;
      s.(data := s.data.(health := t.health, speed := t.speed),
         deathTweens := s.deathTweens + t.kills,
         moving := s.moving && t.kills == 0,
         dying := s.dying || t.kills > 0)
    else s
  }

  /**
   * What `applyEffect(enemy, e)` leaves behind, given the effect map, the event
   * trace, the enemy's `active` flag and its speed before the call.
   */
  predicate AppliedEffect(sys: EffectSystem, enemy: Enemy, e: Effect,
                          m0: map<Enemy, seq<Effect>>, ev0: seq<EffectEvent>, active0: bool, speed0: real)
    reads sys, enemy
  {
    if active0 then
      var r := Apply(if enemy in m0 then m0[enemy] else [], e, enemy);
      sys.enemyEffects == m0[enemy := r.effects]
      && sys.events == ev0 + (if r.event.Some? then [r.event.value] else [])
      && enemy.data.speed == speed0 * r.speedFactor
    else
      sys.enemyEffects == m0 && sys.events == ev0 && enemy.data.speed == speed0
  }

  /** Every key of the map occurs in the list. */
  predicate ListsAllKeys<K, V>(order: seq<K>, m: map<K, V>)
  {
    forall k :: k in m ==> k in order
  }

  class EffectSystem {
    var enemyEffects: map<Enemy, seq<Effect>>
    var events: seq<EffectEvent>

    /** Every stored list is non-empty and well formed. */
    ghost predicate Valid()
      reads this
    {
      forall en :: en in enemyEffects ==> |enemyEffects[en]| > 0 && WellFormed(enemyEffects[en])
    }

    constructor ()
      ensures Valid() && enemyEffects == map[] && events == []
    {
      enemyEffects := map[];
      events := [];
    }

    /** `enemyEffects.get(enemy) || []`. */
    function GetEnemyEffects(enemy: Enemy): (r: seq<Effect>)
      reads this
      requires Valid()
      ensures enemy in enemyEffects ==> r == enemyEffects[enemy]
      ensures enemy !in enemyEffects ==> r == []
      ensures WellFormed(r)
    {
      if enemy in enemyEffects then enemyEffects[enemy] else []
    }

    method ApplyEffect(enemy: Enemy, e: Effect)
      requires Valid()
      requires e.SlowEffect? ==> e.amount != 0.0
      modifies this, enemy`data
      ensures Valid()
      ensures !old(enemy.active) ==>
                enemyEffects == old(enemyEffects) && events == old(events) && enemy.data == old(enemy.data)
      ensures old(enemy.active) ==>
                var r := Apply(old(GetEnemyEffects(enemy)), e, enemy);
                enemyEffects == old(enemyEffects)[enemy := r.effects]
                && events == old(events) + (if r.event.Some? then [r.event.value] else [])
                && enemy.data == old(enemy.data).(speed := old(enemy.data.speed) * r.speedFactor)
      ensures AppliedEffect(this, enemy, e, old(enemyEffects), old(events), old(enemy.active), old(enemy.data.speed))
    {
      if !enemy.active {
        return;
      }
      var effects := GetEnemyEffects(enemy);
      var r := Apply(effects, e, enemy);
      ApplyWellFormed(effects, e, enemy);
      if r.event.None? {
        // an equal or weaker slow: the existing slow stays and nothing changes
        assert effects[FirstSlow(effects)].SlowEffect?;
        assert enemy in enemyEffects && r.effects == enemyEffects[enemy];
        return;
      }
      enemyEffects := enemyEffects[enemy := r.effects];
      events := events + [r.event.value];
      if r.event.value.kind == EffectApplied && e.SlowEffect? {
        enemy.data := enemy.data.(speed := enemy.data.speed * e.amount);
      }
    }

    /** Undoes a slow's multiplier on the enemy; other effects have nothing to undo. */
    method RemoveEffectFromEnemy(enemy: Enemy, e: Effect)
      requires e.SlowEffect? ==> e.amount != 0.0
      modifies enemy`data
      ensures enemy.data == old(enemy.data).(speed := if e.SlowEffect? then old(enemy.data.speed) / e.amount
                                                      else old(enemy.data.speed))
    {
      if e.SlowEffect? {
        enemy.data := enemy.data.(speed := enemy.data.speed / e.amount);
      }
    }

    /** The inner `forEach` body: one effect of an active enemy at time `now`. */
    method VisitEffect(enemy: Enemy, e: Effect, now: real, kept: seq<Effect>, ghost st: Tick)
      returns (kept': seq<Effect>, ghost st': Tick)
      requires enemy.Valid() && (e.SlowEffect? ==> e.amount != 0.0)
      requires st.kept == kept && st.health == enemy.data.health && st.speed == enemy.data.speed
      modifies this`events, this`enemyEffects, enemy
      ensures st' == TickStep(st, e, now, enemy) && st'.kept == kept'
      ensures enemy.Valid()
      ensures enemy.data == old(enemy.data).(health := st'.health, speed := st'.speed)
      ensures enemy.deathTweens == old(enemy.deathTweens) + (st'.kills - st.kills)
      ensures enemy.moving == (old(enemy.moving) && st'.kills == st.kills)
      ensures enemy.dying == (old(enemy.dying) || st'.kills > st.kills)
      ensures enemy.active == old(enemy.active) && enemy.pos == old(enemy.pos) && enemy.events == old(enemy.events)
      ensures st'.kills >= st.kills && |st'.events| >= |st.events| && st'.events[..|st.events|] == st.events
      ensures events == old(events) + st'.events[|st.events|..]
      ensures enemyEffects == if st'.kills > st.kills then old(enemyEffects) - {enemy} else old(enemyEffects)
    {
      st' := TickStep(st, e, now, enemy);
      if now >= e.endTime {
        RemoveEffectFromEnemy(enemy, e);
        events := events + [EffectEvent(EffectExpired, e, enemy)];
        kept' := kept;
      } else if e.PoisonEffect? {
        var lastTick := LastTick(e);
        if now - lastTick >= 1000.0 {
          var ticked := e.(lastTick := Some(now));
          kept' := kept + [ticked];
          var killed := enemy.TakeDamage(e.damagePerSecond);
          events := events + [EffectEvent(EffectTick, ticked, enemy)];
          if killed {
            enemyEffects := enemyEffects - {enemy};
          }
        } else {
          kept' := kept + [e];
        }
      } else {
        kept' := kept + [e];
      }
    }

    /** One enemy's turn in `updateEffects`, for an enemy that is still active. */
    method VisitEnemy(enemy: Enemy, now: real) returns (ghost t: Tick)
      requires Valid() && enemy in enemyEffects && enemy.Valid()
      modifies this, enemy
      ensures Valid() && enemy.Valid()
      ensures t == Visit(old(enemyEffects[enemy]), old(enemy.data.health), old(enemy.data.speed), now, enemy)
      ensures enemy.data == old(enemy.data).(health := t.health, speed := t.speed)
      ensures enemy.deathTweens == old(enemy.deathTweens) + t.kills
      ensures enemy.moving == (old(enemy.moving) && t.kills == 0)
      ensures enemy.dying == (old(enemy.dying) || t.kills > 0)
      ensures enemy.active == old(enemy.active) && enemy.pos == old(enemy.pos) && enemy.events == old(enemy.events)
      ensures events == old(events) + t.events
      ensures enemyEffects == if |t.kept| > 0 then old(enemyEffects)[enemy := t.kept]
                              else old(enemyEffects) - {enemy}
    {
      var effects := enemyEffects[enemy];
      t := Visit(effects, enemy.data.health, enemy.data.speed, now, enemy);
      ghost var st := Tick([], enemy.data.health, enemy.data.speed, 0, []);
      var activeEffects: seq<Effect> := [];
      var i := 0;
      while i < |effects|
        invariant 0 <= i <= |effects|
        invariant st.kept == activeEffects && st.health == enemy.data.health && st.speed == enemy.data.speed
        invariant TickAll(effects[i..], st, now, enemy) == t
        invariant enemy.Valid()
        invariant enemy.data == old(enemy.data).(health := st.health, speed := st.speed)
        invariant enemy.deathTweens == old(enemy.deathTweens) + st.kills
        invariant enemy.moving == (old(enemy.moving) && st.kills == 0)
        invariant enemy.dying == (old(enemy.dying) || st.kills > 0)
        invariant enemy.active == old(enemy.active) && enemy.pos == old(enemy.pos) && enemy.events == old(enemy.events)
        invariant events == old(events) + st.events
        invariant enemyEffects == if st.kills > 0 then old(enemyEffects) - {enemy} else old(enemyEffects)
      {
        TickAllUnfold(effects, i, st, now, enemy);
        ghost var before := st;
        activeEffects, st := VisitEffect(enemy, effects[i], now, activeEffects, st);
        assert st.events == before.events + st.events[|before.events|..];
        ConcatAssoc(old(events), before.events, st.events[|before.events|..]);
        i := i + 1;
      }
      assert effects[i..] == [];
      VisitWellFormed(effects, old(enemy.data.health), old(enemy.data.speed), now, enemy);
      if |activeEffects| > 0 {
        enemyEffects := enemyEffects[enemy := activeEffects];
      } else {
        enemyEffects := enemyEffects - {enemy};
      }
    }

    /** One entry of `updateEffects`: an inactive enemy's entry is dropped, an active enemy is visited. */
    method VisitEntry(enemy: Enemy, now: real, ghost effects: seq<Effect>, ghost snap: EnemySnap)
      returns (ghost v: Option<Tick>)
      requires Valid() && enemy in enemyEffects && enemy.Valid()
      requires enemyEffects[enemy] == effects && Snap(enemy) == snap
      modifies this, enemy
      ensures Valid() && enemy.Valid()
      ensures v == EntryVisit(effects, snap, now, enemy)
      ensures Snap(enemy) == AfterSnap(snap, v)
      ensures events == old(events) + VisitEvents(v)
      ensures enemyEffects == Settle(old(enemyEffects), enemy, v)
    {
      if !enemy.active {
        enemyEffects := enemyEffects - {enemy};
        v := None;
      } else {
        var t := VisitEnemy(enemy, now);
        v := Some(t);
      }
    }

    /**
     * `updateEffects` at scene time `now`. `order` is the Map's iteration
     * order. Each entry is visited once (see SecondVisitQuiet for the
     * revisit JavaScript makes of an entry a kill re-inserts).
     */
    /**
     * How far `updateEffects` has got: the entries of `order[..|visits|]` were
     * visited as `visits` records, starting from map `m0`, enemies `snaps`
     * and event log `ev0`; the rest are untouched.
     */
    ghost predicate Progress(order: seq<Enemy>, m0: map<Enemy, seq<Effect>>, snaps: seq<EnemySnap>,
                             all: seq<Option<Tick>>, ev0: seq<EffectEvent>, visits: seq<Option<Tick>>)
      reads this, order
    {
      Valid() && |visits| <= |order| == |snaps| == |all|
      && (forall j :: 0 <= j < |order| ==>
            order[j] in m0 && NonZeroSlows(m0[order[j]]) && OnPath(snaps[j].data, snaps[j].moving))
      && visits == all[..|visits|]
      && (forall j :: 0 <= j < |visits| ==> Snap(order[j]) == AfterSnap(snaps[j], all[j]))
      && (forall j :: |visits| <= j < |order| ==> Snap(order[j]) == snaps[j])
      && enemyEffects == MapAfter(m0, order[..|visits|], visits)
      && events == ev0 + AllEvents(visits)
    }

    /** One turn of the `updateEffects` loop. */
    method VisitNext(now: real, order: seq<Enemy>, i: nat, ghost m0: map<Enemy, seq<Effect>>, ghost snaps: seq<EnemySnap>,
                     ghost all: seq<Option<Tick>>, ghost ev0: seq<EffectEvent>, ghost visits: seq<Option<Tick>>)
      returns (ghost visits': seq<Option<Tick>>)
      requires Progress(order, m0, snaps, all, ev0, visits) && i == |visits| < |order|
      requires all[i] == EntryVisit(m0[order[i]], snaps[i], now, order[i])
      requires forall j :: 0 <= j < |order| && j != i ==> order[j] != order[i]
      modifies this, order[i]
      ensures Progress(order, m0, snaps, all, ev0, visits') && |visits'| == |visits| + 1
    {
      var enemy := order[i];
      MapAfterOther(m0, order[..i], visits, enemy);
      var v := VisitEntry(enemy, now, m0[enemy], snaps[i]);
      AllEventsSnoc(visits, v);
      ConcatAssoc(ev0, AllEvents(visits), VisitEvents(v));
      MapAfterSnoc(m0, order, visits, v);
      TakeSnoc(all, i);
      visits' := visits + [v];
      forall j | 0 <= j < |order| && j != i
        ensures Snap(order[j]) == old(Snap(order[j]))
      {
        assert order[j] != enemy;
      }
      assert Snap(enemy) == AfterSnap(snaps[i], all[i]);
      assert enemyEffects == MapAfter(m0, order[..|visits'|], visits');
      assert events == ev0 + AllEvents(visits');
    }

    /**
     * `updateEffects`: every entry of the map is visited once, in `order`,
     * which lists exactly the map's keys in the order the caller gives.
     */
    method UpdateEffects(now: real, order: seq<Enemy>) returns (ghost visits: seq<Option<Tick>>)
      requires Valid()
      requires forall j :: 0 <= j < |order| ==> order[j] in enemyEffects
      requires ListsAllKeys(order, enemyEffects)
      requires NoDuplicates(order)
      requires forall i :: 0 <= i < |order| ==> order[i].Valid()
      modifies this, order
      ensures Valid()
      ensures |visits| == |order|
      ensures forall j :: 0 <= j < |order| ==>
                visits[j] == EntryVisit(old(enemyEffects[order[j]]), old(Snap(order[j])), now, order[j])
      ensures forall j :: 0 <= j < |order| ==>
                order[j].Valid() && Snap(order[j]) == AfterSnap(old(Snap(order[j])), visits[j])
      ensures enemyEffects == MapAfter(old(enemyEffects), order, visits)
      ensures events == old(events) + AllEvents(visits)
    {
      visits := VisitAll(now, order);
    }

    /** The `updateEffects` loop over the listed entries, each visited once in the list's order. */
    method VisitAll(now: real, order: seq<Enemy>) returns (ghost visits: seq<Option<Tick>>)
      requires Valid()
      requires forall j :: 0 <= j < |order| ==> order[j] in enemyEffects
      requires NoDuplicates(order)
      requires forall i :: 0 <= i < |order| ==> order[i].Valid()
      modifies this, order
      ensures Valid()
      ensures |visits| == |order|
      ensures forall j :: 0 <= j < |order| ==>
                visits[j] == EntryVisit(old(enemyEffects[order[j]]), old(Snap(order[j])), now, order[j])
      ensures forall j :: 0 <= j < |order| ==>
                order[j].Valid() && Snap(order[j]) == AfterSnap(old(Snap(order[j])), visits[j])
      ensures enemyEffects == MapAfter(old(enemyEffects), order, visits)
      ensures events == old(events) + AllEvents(visits)
    {
      ghost var m0 := enemyEffects;
      ghost var snaps := seq(|order|, j requires 0 <= j < |order| reads order => Snap(order[j]));
      ghost var ev0 := events;
      ghost var all := seq(|order|, j requires 0 <= j < |order| => EntryVisit(m0[order[j]], snaps[j], now, order[j]));
      visits := [];
      var i := 0;
      while i < |order|
        invariant i == |visits|
        invariant Progress(order, m0, snaps, all, ev0, visits)
      {
        NoDuplicatesAt(order, i);
        visits := VisitNext(now, order, i, m0, snaps, all, ev0, visits);
        i := i + 1;
      }
      TakeAll(order);
      forall j | 0 <= j < |order|
        ensures order[j].Valid() && Snap(order[j]) == AfterSnap(old(Snap(order[j])), visits[j])
        ensures visits[j] == EntryVisit(old(enemyEffects[order[j]]), old(Snap(order[j])), now, order[j])
      {
        assert snaps[j] == old(Snap(order[j])) && visits[j] == all[j];
        AfterSnapOnPath(snaps[j], all[j]);
      }
    }

    /** Divides out every slow of the enemy, then forgets its entry. */
    method ClearEnemyEffects(enemy: Enemy)
      requires Valid()
      modifies this, enemy`data
      ensures Valid()
      ensures enemyEffects == old(enemyEffects) - {enemy}
      ensures events == old(events)
      ensures enemy.data == old(enemy.data).(speed := Unslowed(old(enemy.data.speed), old(GetEnemyEffects(enemy))))
    {
      var effects := GetEnemyEffects(enemy);
      ghost var target := Unslowed(enemy.data.speed, effects);
      var i := 0;
      while i < |effects|
        invariant 0 <= i <= |effects|
        invariant enemy.data == old(enemy.data).(speed := enemy.data.speed)
        invariant enemyEffects == old(enemyEffects) && events == old(events)
        invariant Unslowed(enemy.data.speed, effects[i..]) == target
      {
        assert effects[i..][1..] == effects[i + 1..];
        RemoveEffectFromEnemy(enemy, effects[i]);
        i := i + 1;
      }
      enemyEffects := enemyEffects - {enemy};
    }

    /** Forgets every entry. */
    method Destroy()
      modifies this
      ensures Valid() && enemyEffects == map[] && events == old(events)
    {
      enemyEffects := map[];
    }
  }
}
