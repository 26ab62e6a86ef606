// src/game/managers/WaveManager.ts: starting waves, scheduling their spawns
// and detecting their completion. Phaser timers are kept as records in the
// manager: a timer "dispatches" when the game calls the matching Dispatch
// method, in whatever order the clock would. Events are an appended trace.
module Waves {
  import opened Common
  import opened Enemies
  import opened EnemyManagers

  /** One group of a wave: `count` enemies of `kind`, `spawnDelay` seconds apart. */
  datatype WaveEnemy = WaveEnemy(kind: string, count: int, spawnDelay: real)

  datatype WaveConfig = WaveConfig(waveNumber: int, enemies: seq<WaveEnemy>, preWaveDelay: real,
                                   reward: int, description: string)

  datatype WaveProgress = WaveProgress(currentWave: int, totalWaves: int, enemiesSpawned: int,
                                       enemiesTotal: int, enemiesAlive: int, timeUntilNextWave: real,
                                       isWaveInProgress: bool)

  datatype TimerStatus = Pending | Dispatched | Destroyed

  /** The delayed start of a wave, holding the wave it will start. */
  datatype StartTimer = StartTimer(wave: WaveConfig, status: TimerStatus)

  /** One scheduled spawn: its delay in milliseconds and the enemy type. */
  datatype SpawnTimer = SpawnTimer(delay: real, kind: string, dispatched: bool)

  datatype WaveEvent =
    | WaveStarted(waveNumber: int, description: string)
    | WaveCompleted(waveNumber: int, reward: int)
    | AllWavesCompleted
    | ProgressUpdated(progress: WaveProgress)

  const IdleProgress := WaveProgress(0, 0, 0, 0, 0, 0.0, false)

  /** The `reduce` over the groups: the sum of their counts. */
  function TotalCount(gs: seq<WaveEnemy>): int
  {
    if gs == [] then 0 else TotalCount(gs[..|gs| - 1]) + gs[|gs| - 1].count
  }

  /** `n` copies of a group entry; a count of zero or less gives none, as the `for` loop does. */
  function Repeat(g: WaveEnemy, n: int): (r: seq<WaveEnemy>)
    ensures |r| == if n > 0 then n else 0
    ensures forall i :: 0 <= i < |r| ==> r[i] == g
  {
    if n <= 0 then [] else Repeat(g, n - 1) + [g]
  }

  /** One entry per enemy to spawn, group after group in declaration order. */
  function Entries(gs: seq<WaveEnemy>): seq<WaveEnemy>
  {
    if gs == [] then [] else
      var g := gs[|gs| - 1];
      Entries(gs[..|gs| - 1]) + Repeat(g, g.count)
  }

  /** With counts that are not negative there is one entry for every enemy of the total. */
  lemma {:induction false} EntriesCount(gs: seq<WaveEnemy>)
    requires forall i :: 0 <= i < |gs| ==> gs[i].count >= 0
    ensures |Entries(gs)| == TotalCount(gs)
  {
    if gs != [] {
      EntriesCount(gs[..|gs| - 1]);
    }
  }

  /** Every entry comes from a group of the wave. */
  lemma {:induction false} EntriesFromGroups(gs: seq<WaveEnemy>)
    ensures forall k :: 0 <= k < |Entries(gs)| ==> Entries(gs)[k] in gs
  {
    if gs != [] {
      EntriesFromGroups(gs[..|gs| - 1]);
      forall k | 0 <= k < |Entries(gs)|
        ensures Entries(gs)[k] in gs
      {
        var init := Entries(gs[..|gs| - 1]);
        if k < |init| {
          assert Entries(gs)[k] == init[k];
          assert init[k] in gs[..|gs| - 1];
        }
      }
    }
  }

  /** The seconds the spawn delays of `es` add up to. */
  function DelaySum(es: seq<WaveEnemy>): real
  {
    if es == [] then 0.0 else DelaySum(es[..|es| - 1]) + es[|es| - 1].spawnDelay
  }

  /** The spawn timers for the entries: each waits the summed delays of the entries before it. */
  function ScheduleOf(es: seq<WaveEnemy>): (r: seq<SpawnTimer>)
    ensures |r| == |es|
  {
    if es == [] then [] else
      var init := es[..|es| - 1];
      ScheduleOf(init) + [SpawnTimer(DelaySum(init) * 1000.0, es[|es| - 1].kind, false)]
  }

  /** One more entry adds its own delay and one timer at the delay summed so far. */
  lemma ScheduleSnoc(es: seq<WaveEnemy>, e: WaveEnemy)
    ensures DelaySum(es + [e]) == DelaySum(es) + e.spawnDelay
    ensures ScheduleOf(es + [e]) == ScheduleOf(es) + [SpawnTimer(DelaySum(es) * 1000.0, e.kind, false)]
  {
    assert (es + [e])[..|es + [e]| - 1] == es;
  }

  /** One more entry of the group being scheduled, seen from where the group started. */
  lemma {:induction false} ScheduleGroupStep(done: seq<WaveEnemy>, added: seq<WaveEnemy>, e: WaveEnemy)
    ensures DelaySum(done + (added + [e])) == DelaySum(done + added) + e.spawnDelay
    ensures ScheduleOf(done + (added + [e]))[|done|..]
            == ScheduleOf(done + added)[|done|..] + [SpawnTimer(DelaySum(done + added) * 1000.0, e.kind, false)]
  {
    var cur := done + added;
    assert done + (added + [e]) == cur + [e];
    ScheduleSnoc(cur, e);
    DropSnoc(ScheduleOf(cur), SpawnTimer(DelaySum(cur) * 1000.0, e.kind, false), |done|);
  }

  /** Entry k spawns its own kind after the delays of all earlier entries, so the first spawns at once. */
  lemma {:induction false} ScheduleOffsets(es: seq<WaveEnemy>)
    ensures forall k :: 0 <= k < |es| ==>
      ScheduleOf(es)[k] == SpawnTimer(DelaySum(es[..k]) * 1000.0, es[k].kind, false)
    ensures es != [] ==> ScheduleOf(es)[0].delay == 0.0
  {
    if es != [] {
      var init := es[..|es| - 1];
      ScheduleOffsets(init);
      forall k | 0 <= k < |init|
        ensures init[..k] == es[..k]
      {
      }
      assert es[..|es| - 1] == init;
      assert es[..0] == [];
    }
  }

  /** Scheduling more entries leaves the timers of the earlier ones as they were. */
  lemma {:induction false} SchedulePrefix(a: seq<WaveEnemy>, b: seq<WaveEnemy>)
    ensures ScheduleOf(a + b) == ScheduleOf(a) + ScheduleOf(a + b)[|a|..]
  {
    if b == [] {
      assert a + b == a;
    } else {
      var b' := b[..|b| - 1];
      SchedulePrefix(a, b');
      assert (a + b)[..|a + b| - 1] == a + b';
    }
  }

  /**
   * The progress `prepareWave` shows for the wave at `index`: none of its
   * enemies spawned yet, and no longer in progress when it has none and
   * none is alive.
   */
  function PreparedProgress(w: WaveConfig, index: int, alive: nat, progress0: WaveProgress): (p: WaveProgress)
    ensures p.currentWave == index + 1 && p.enemiesSpawned == 0 && p.enemiesTotal == TotalCount(w.enemies)
    ensures p.enemiesAlive == alive && p.totalWaves == progress0.totalWaves
    ensures p.isWaveInProgress <==> !(TotalCount(w.enemies) <= 0 && alive == 0)
  {
    WaveProgress(index + 1, progress0.totalWaves, 0, TotalCount(w.enemies), alive, progress0.timeUntilNextWave,
                 !(TotalCount(w.enemies) <= 0 && alive == 0))
  }

  /** The events `prepareWave` emits: one progress update, or the completion and two updates. */
  function PreparedEvents(w: WaveConfig, p: WaveProgress): (r: seq<WaveEvent>)
    ensures Completions(r) == if p.isWaveInProgress then 0 else 1
  {
    ProgressEvents(p);
    if p.isWaveInProgress then [ProgressUpdated(p)]
    else
      CompletionsAppend([WaveCompleted(w.waveNumber, w.reward)], [ProgressUpdated(p), ProgressUpdated(p)]);
      assert [WaveCompleted(w.waveNumber, w.reward)][..0] == [];
      assert [WaveCompleted(w.waveNumber, w.reward)] + [ProgressUpdated(p), ProgressUpdated(p)]
        == [WaveCompleted(w.waveNumber, w.reward), ProgressUpdated(p), ProgressUpdated(p)];
      [WaveCompleted(w.waveNumber, w.reward), ProgressUpdated(p), ProgressUpdated(p)]
  }

  /** The number of WAVE_COMPLETED events in a trace. */
  function Completions(ev: seq<WaveEvent>): nat
  {
    if ev == [] then 0 else Completions(ev[..|ev| - 1]) + if ev[|ev| - 1].WaveCompleted? then 1 else 0
  }

  lemma {:induction false} CompletionsAppend(a: seq<WaveEvent>, b: seq<WaveEvent>)
    ensures Completions(a + b) == Completions(a) + Completions(b)
  {
    if b == [] {
      assert a + b == a;
    } else {
      CompletionsAppend(a, b[..|b| - 1]);
      assert (a + b)[..|a + b| - 1] == a + b[..|b| - 1];
      assert (a + b)[|a + b| - 1] == b[|b| - 1];
    }
  }

  lemma ProgressEvents(p: WaveProgress)
    ensures Completions([ProgressUpdated(p)]) == 0
    ensures Completions([ProgressUpdated(p), ProgressUpdated(p)]) == 0
  {
    assert [ProgressUpdated(p), ProgressUpdated(p)][..1] == [ProgressUpdated(p)];
  }

  class WaveManager {
    const enemyManager: EnemyManager
    var waves: seq<WaveConfig>
    var currentWaveIndex: int
    var waveProgress: WaveProgress
    var path: Option<seq<Point>>
    /** Every start timer ever scheduled; `waveStartTimer` is the index of the latest, until it is cleared. */
    var startTimers: seq<StartTimer>
    var waveStartTimer: Option<nat>
    var spawnTimers: seq<SpawnTimer>
    var isWaveInProgress: bool
    var totalEnemiesInWave: int
    var enemiesSpawned: int
    var events: seq<WaveEvent>
    /** How many waves have been prepared so far. */
    ghost var starts: nat

    /** Each prepared wave completes at most once, and the one in progress has not completed yet. */
    ghost predicate Valid()
      reads this
    {
      Completions(events) + (if isWaveInProgress then 1 else 0) <= starts
      && currentWaveIndex >= -1
      && (waveStartTimer.Some? ==>
            waveStartTimer.value < |startTimers| && startTimers[waveStartTimer.value].status != Destroyed)
    }

    constructor (enemyManager: EnemyManager)
      ensures this.enemyManager == enemyManager
      ensures waves == [] && currentWaveIndex == -1 && waveProgress == IdleProgress && path.None?
      ensures startTimers == [] && waveStartTimer.None? && spawnTimers == [] && !isWaveInProgress
      ensures totalEnemiesInWave == 0 && enemiesSpawned == 0 && events == []
      ensures Valid()
    {
      this.enemyManager := enemyManager;
      waves := [];
      currentWaveIndex := -1;
      waveProgress := IdleProgress;
      path := None;
      startTimers := [];
      waveStartTimer := None;
      spawnTimers := [];
      isWaveInProgress := false;
      totalEnemiesInWave := 0;
      enemiesSpawned := 0;
      events := [];
      starts := 0;
    }

    /**
     * `loadWaves`: takes the list stored under `map_<id>` in the loaded
     * configuration file; a missing entry fails and changes nothing.
     */
    method LoadWaves(mapId: string, configs: map<string, seq<WaveConfig>>) returns (ok: bool)
      modifies this`waves, this`waveProgress
      ensures ok <==> "map_" + mapId in configs
      ensures ok ==>
        waves == configs["map_" + mapId]
        && waveProgress == old(waveProgress).(totalWaves := |waves|, currentWave := 0)
      ensures !ok ==> waves == old(waves) && waveProgress == old(waveProgress)
    {
      var key := "map_" + mapId;
      if key !in configs {
        return false;
      }
      waves := configs[key];
      waveProgress := waveProgress.(totalWaves := |waves|, currentWave := 0);
      return true;
    }

    method SetPath(p: seq<Point>)
      modifies this`path
      ensures path == Some(p)
    {
      path := Some(p);
    }

    /**
     * What `updateWaveProgress` left, started with spawn timers `timers0`,
     * progress record `progress0`, the wave in progress or not (`inProgress0`)
     * and trace `events0`: the progress is recomputed from the live enemy count
     * and emitted. A wave in progress whose enemies have all spawned and none
     * is alive is over; when its entry can be read, the spawn timers are
     * cancelled and WAVE_COMPLETED comes before the progress, emitted twice,
     * and when it cannot, the read throws before anything is emitted.
     */
    ghost predicate Refreshed(timers0: seq<SpawnTimer>, progress0: WaveProgress, inProgress0: bool, events0: seq<WaveEvent>)
      reads this, enemyManager, enemyManager.enemies
    {
      var alive := enemyManager.GetEnemyCount();
      var done := inProgress0 && enemiesSpawned >= totalEnemiesInWave && alive == 0;
      var p := WaveProgress(currentWaveIndex + 1, progress0.totalWaves, enemiesSpawned,
                            totalEnemiesInWave, alive, progress0.timeUntilNextWave, inProgress0);
      var readable := 0 <= currentWaveIndex < |waves|;
      (!done ==>
         isWaveInProgress == inProgress0 && spawnTimers == timers0
         && waveProgress == p && events == events0 + [ProgressUpdated(p)])
      && (done ==> !isWaveInProgress)
      && (done && !readable ==> spawnTimers == timers0 && waveProgress == p && events == events0)
      && (done && readable ==>
            var q := p.(isWaveInProgress := false);
            var w := waves[currentWaveIndex];
            spawnTimers == [] && waveProgress == q
            && events == events0 + [WaveCompleted(w.waveNumber, w.reward), ProgressUpdated(q), ProgressUpdated(q)])
    }

    /**
     * `updateWaveProgress`, also what the manager does when an enemy dies or
     * reaches the end: refreshes the progress record and completes the wave
     * exactly when one is in progress, all its enemies have spawned and none
     * is alive. Completing reads the current wave's entry; when the index is
     * past the list (the waves were reloaded meanwhile) that read throws
     * after the wave was marked over, and `thrown` reports it.
     */
    method UpdateWaveProgress() returns (thrown: bool)
      requires Valid()
      modifies this`waveProgress, this`isWaveInProgress, this`spawnTimers, this`events
      decreases if isWaveInProgress then 2 else 0
      ensures Valid()
      ensures Refreshed(old(spawnTimers), old(waveProgress), old(isWaveInProgress), old(events))
      ensures thrown <==> old(isWaveInProgress) && enemiesSpawned >= totalEnemiesInWave
                          && enemyManager.GetEnemyCount() == 0 && !(0 <= currentWaveIndex < |waves|)
    {
      var alive := enemyManager.GetEnemyCount();
      waveProgress := WaveProgress(currentWaveIndex + 1, waveProgress.totalWaves, enemiesSpawned,
                                   totalEnemiesInWave, alive, waveProgress.timeUntilNextWave, isWaveInProgress);
      if isWaveInProgress && enemiesSpawned >= totalEnemiesInWave && alive == 0 {
        thrown := CompleteWave();
        if thrown {
          return;
        }
      } else {
        thrown := false;
      }
      EmitProgress();
    }

    /** Emits WAVE_PROGRESS_UPDATED with a copy of the progress record. */
    method EmitProgress()
      requires Valid()
      modifies this`events
      ensures Valid() && events == old(events) + [ProgressUpdated(waveProgress)]
    {
      ProgressEvents(waveProgress);
      CompletionsAppend(events, [ProgressUpdated(waveProgress)]);
      events := events + [ProgressUpdated(waveProgress)];
    }

    /**
     * `completeWave`: only a wave in progress completes. It is marked over
     * before WAVE_COMPLETED is emitted, so it cannot complete twice; the
     * spawns still pending are cancelled and the progress is refreshed.
     */
    method CompleteWave() returns (thrown: bool)
      requires Valid()
      modifies this`waveProgress, this`isWaveInProgress, this`spawnTimers, this`events
      decreases if isWaveInProgress then 1 else 0
      ensures Valid()
      ensures !old(isWaveInProgress) ==> !thrown && unchanged(this)
      ensures old(isWaveInProgress) ==> !isWaveInProgress && thrown == !(0 <= currentWaveIndex < |waves|)
      ensures old(isWaveInProgress) && thrown ==>
        spawnTimers == old(spawnTimers) && waveProgress == old(waveProgress) && events == old(events)
      ensures old(isWaveInProgress) && !thrown ==>
        var alive := enemyManager.GetEnemyCount();
        var w := waves[currentWaveIndex];
        var q := WaveProgress(currentWaveIndex + 1, old(waveProgress.totalWaves), enemiesSpawned,
                              totalEnemiesInWave, alive, old(waveProgress.timeUntilNextWave), false);
        spawnTimers == [] && waveProgress == q
        && events == old(events) + [WaveCompleted(w.waveNumber, w.reward), ProgressUpdated(q)]
    {
      if !isWaveInProgress {
        return false;
      }
      isWaveInProgress := false;
      if !(0 <= currentWaveIndex < |waves|) {
        return true;
      }
      var wave := waves[currentWaveIndex];
      CompletionsAppend(events, [WaveCompleted(wave.waveNumber, wave.reward)]);
      events := events + [WaveCompleted(wave.waveNumber, wave.reward)];
      spawnTimers := [];
      ghost var ev := events;
      thrown := UpdateWaveProgress();
      assert events == ev + [ProgressUpdated(waveProgress)];
    }

    /** Whether a wave starts after its own delay: only a positive delay, and never the first wave. */
    static predicate Delayed(w: WaveConfig, index: int)
    {
      w.preWaveDelay > 0.0 && index > 0
    }

    /**
     * `startNextWave`: refuses while a wave is in progress or without a
     * path. Otherwise it moves to the next wave; past the last one it emits
     * ALL_WAVES_COMPLETED and refuses, keeping the advanced index. A wave it
     * starts is prepared, which may already complete it when it has no
     * enemies and none is alive, and then starts after its delay or at once.
     */
    method StartNextWave() returns (started: bool)
      requires Valid()
      modifies this`currentWaveIndex, this`totalEnemiesInWave, this`enemiesSpawned, this`isWaveInProgress,
        this`starts, this`waveProgress, this`spawnTimers, this`events, this`startTimers, this`waveStartTimer
      ensures Valid()
      ensures old(isWaveInProgress) || old(path).None? ==> !started && unchanged(this)
      ensures !old(isWaveInProgress) && old(path).Some? ==> currentWaveIndex == old(currentWaveIndex) + 1
      ensures !old(isWaveInProgress) && old(path).Some? && currentWaveIndex >= |waves| ==>
        !started && events == old(events) + [AllWavesCompleted]
        && !isWaveInProgress && spawnTimers == old(spawnTimers) && waveProgress == old(waveProgress)
        && totalEnemiesInWave == old(totalEnemiesInWave) && enemiesSpawned == old(enemiesSpawned)
        && startTimers == old(startTimers) && waveStartTimer == old(waveStartTimer)
      ensures started <==> !old(isWaveInProgress) && old(path).Some? && currentWaveIndex < |waves|
      ensures started ==> 0 <= currentWaveIndex < |waves|
      ensures started ==> starts == old(starts) + 1 && Begun(old(startTimers), old(waveStartTimer), old(spawnTimers), old(waveProgress), old(events))
    {
      if isWaveInProgress {
        return false;
      }
      if path.None? {
        return false;
      }
      currentWaveIndex := currentWaveIndex + 1;
      if currentWaveIndex >= |waves| {
        CompletionsAppend(events, [AllWavesCompleted]);
        events := events + [AllWavesCompleted];
        return false;
      }
      BeginWave();
      return true;
    }

    /**
     * What starting the wave at the current index leaves: its enemies
     * counted and none spawned, in progress unless it completed at once
     * (no enemies and none alive), and either a pending start timer for it
     * or WAVE_STARTED emitted and its spawns scheduled.
     */
    ghost predicate Begun(startTimers0: seq<StartTimer>, waveStartTimer0: Option<nat>, spawnTimers0: seq<SpawnTimer>,
                          progress0: WaveProgress, events0: seq<WaveEvent>)
      reads this, enemyManager, enemyManager.enemies
    {
      && 0 <= currentWaveIndex < |waves|
      && var w := waves[currentWaveIndex];
         var p := PreparedProgress(w, currentWaveIndex, enemyManager.GetEnemyCount(), progress0);
         var kept := if p.isWaveInProgress then spawnTimers0 else [];
         && totalEnemiesInWave == TotalCount(w.enemies) && enemiesSpawned == 0
         && isWaveInProgress == p.isWaveInProgress
         && (Delayed(w, currentWaveIndex) ==>
               startTimers == startTimers0 + [StartTimer(w, Pending)]
               && waveStartTimer == Some(|startTimers0|)
               && spawnTimers == kept && waveProgress == p
               && events == events0 + PreparedEvents(w, p))
         && (!Delayed(w, currentWaveIndex) ==>
               startTimers == startTimers0 && waveStartTimer == waveStartTimer0
               && spawnTimers == kept + ScheduleOf(Entries(w.enemies))
               && waveProgress == p.(timeUntilNextWave := 0.0, isWaveInProgress := true)
               && events == events0 + PreparedEvents(w, p) + [WaveStarted(w.waveNumber, w.description)])
    }

    /** The wave at the current index is prepared, then starts after its delay or at once. */
    method BeginWave()
      requires Valid() && 0 <= currentWaveIndex < |waves| && !isWaveInProgress
      modifies this`totalEnemiesInWave, this`enemiesSpawned, this`isWaveInProgress,
        this`starts, this`waveProgress, this`spawnTimers, this`events, this`startTimers, this`waveStartTimer
      ensures Valid() && starts == old(starts) + 1
      ensures Begun(old(startTimers), old(waveStartTimer), old(spawnTimers), old(waveProgress), old(events))
    {
      var wave := waves[currentWaveIndex];
      PrepareWave(wave);
      ghost var spawns, progress, evs := spawnTimers, waveProgress, events;
      if wave.preWaveDelay > 0.0 && currentWaveIndex > 0 {
        ScheduleWaveStart(wave);
      } else {
        ExecuteWaveStart(wave);
        assert spawnTimers == spawns + ScheduleOf(Entries(wave.enemies));
        assert waveProgress == progress.(timeUntilNextWave := 0.0, isWaveInProgress := true);
        assert events == evs + [WaveStarted(wave.waveNumber, wave.description)];
      }
    }

    /** `prepareWave`: counts the wave's enemies, none spawned yet, marks it in progress and refreshes the progress. */
    method PrepareWave(wave: WaveConfig)
      requires Valid() && 0 <= currentWaveIndex < |waves| && wave == waves[currentWaveIndex] && !isWaveInProgress
      modifies this`totalEnemiesInWave, this`enemiesSpawned, this`isWaveInProgress, this`starts,
        this`waveProgress, this`spawnTimers, this`events
      ensures Valid()
      ensures totalEnemiesInWave == TotalCount(wave.enemies) && enemiesSpawned == 0 && starts == old(starts) + 1
      ensures var p := PreparedProgress(wave, currentWaveIndex, enemyManager.GetEnemyCount(), old(waveProgress));
        && isWaveInProgress == p.isWaveInProgress && waveProgress == p
        && spawnTimers == (if p.isWaveInProgress then old(spawnTimers) else [])
        && events == old(events) + PreparedEvents(wave, p)
    {
      totalEnemiesInWave := TotalCount(wave.enemies);
      enemiesSpawned := 0;
      isWaveInProgress := true;
      starts := starts + 1;
      var thrown := UpdateWaveProgress();
      ghost var p := PreparedProgress(wave, currentWaveIndex, enemyManager.GetEnemyCount(), old(waveProgress));
      if p.isWaveInProgress {
        assert waveProgress == p && spawnTimers == old(spawnTimers);
      } else {
        assert 0 <= currentWaveIndex < |waves| && waves[currentWaveIndex] == wave;
        assert waveProgress == p && spawnTimers == [];
      }
    }

    /** `scheduleWaveStart`: a pending start timer for the wave, remembered as the current one. */
    method ScheduleWaveStart(wave: WaveConfig)
      requires Valid()
      modifies this`startTimers, this`waveStartTimer
      ensures Valid()
      ensures startTimers == old(startTimers) + [StartTimer(wave, Pending)]
      ensures waveStartTimer == Some(|old(startTimers)|)
    {
      startTimers := startTimers + [StartTimer(wave, Pending)];
      waveStartTimer := Some(|startTimers| - 1);
    }

    /** `executeWaveStart`: shows the wave as running, emits WAVE_STARTED and schedules all its spawns. */
    method ExecuteWaveStart(wave: WaveConfig)
      requires Valid()
      modifies this`waveProgress, this`events, this`spawnTimers
      ensures Valid()
      ensures waveProgress == old(waveProgress).(timeUntilNextWave := 0.0, isWaveInProgress := true)
      ensures events == old(events) + [WaveStarted(wave.waveNumber, wave.description)]
      ensures spawnTimers == old(spawnTimers) + ScheduleOf(Entries(wave.enemies))
    {
      waveProgress := waveProgress.(timeUntilNextWave := 0.0, isWaveInProgress := true);
      CompletionsAppend(events, [WaveStarted(wave.waveNumber, wave.description)]);
      events := events + [WaveStarted(wave.waveNumber, wave.description)];
      SpawnWaveEnemies(wave);
    }

    /**
     * `spawnWaveEnemies`: one timer per enemy, group by group; each waits
     * the running total of the spawn delays before it.
     */
    method SpawnWaveEnemies(wave: WaveConfig)
      modifies this`spawnTimers
      ensures spawnTimers == old(spawnTimers) + ScheduleOf(Entries(wave.enemies))
    {
      var gs := wave.enemies;
      var totalDelay := 0.0;
      ghost var done: seq<WaveEnemy> := [];
      for g := 0 to |gs|
        invariant done == Entries(gs[..g])
        invariant totalDelay == DelaySum(done)
        invariant spawnTimers == old(spawnTimers) + ScheduleOf(done)
      {
        totalDelay := ScheduleGroup(gs[g], totalDelay, done);
        assert gs[..g + 1][..g] == gs[..g];
        SchedulePrefix(done, Repeat(gs[g], gs[g].count));
        done := done + Repeat(gs[g], gs[g].count);
      }
      assert gs[..|gs|] == gs;
    }

    /** The inner loop of `spawnWaveEnemies`: the timers of one group, continuing the running delay. */
    method ScheduleGroup(waveEnemy: WaveEnemy, totalDelay0: real, ghost done: seq<WaveEnemy>) returns (totalDelay: real)
      requires totalDelay0 == DelaySum(done)
      modifies this`spawnTimers
      ensures totalDelay == DelaySum(done + Repeat(waveEnemy, waveEnemy.count))
      ensures spawnTimers == old(spawnTimers) + ScheduleOf(done + Repeat(waveEnemy, waveEnemy.count))[|done|..]
    {
      totalDelay := totalDelay0;
      var i := 0;
      ghost var added := [];
      assert done + added == done;
      while i < waveEnemy.count
        invariant 0 <= i && (i <= waveEnemy.count || i == 0)
        invariant added == Repeat(waveEnemy, i)
        invariant totalDelay == DelaySum(done + added)
        invariant spawnTimers == old(spawnTimers) + ScheduleOf(done + added)[|done|..]
      {
        ScheduleGroupStep(done, added, waveEnemy);
        spawnTimers := spawnTimers + [SpawnTimer(totalDelay * 1000.0, waveEnemy.kind, false)];
        totalDelay := totalDelay + waveEnemy.spawnDelay;
        added := added + [waveEnemy];
        i := i + 1;
      }
    }

    /** The start timer at `k` fires: a pending one starts the wave it holds. */
    method DispatchWaveStart(k: nat)
      requires Valid()
      modifies this`startTimers, this`waveProgress, this`events, this`spawnTimers
      ensures Valid()
      ensures !(k < |old(startTimers)| && old(startTimers)[k].status == Pending) ==> unchanged(this)
      ensures k < |old(startTimers)| && old(startTimers)[k].status == Pending ==>
        var w := old(startTimers)[k].wave;
        startTimers == old(startTimers)[k := StartTimer(w, Dispatched)]
        && waveProgress == old(waveProgress).(timeUntilNextWave := 0.0, isWaveInProgress := true)
        && events == old(events) + [WaveStarted(w.waveNumber, w.description)]
        && spawnTimers == old(spawnTimers) + ScheduleOf(Entries(w.enemies))
    {
      if k < |startTimers| && startTimers[k].status == Pending {
        var wave := startTimers[k].wave;
        startTimers := startTimers[k := StartTimer(wave, Dispatched)];
        ExecuteWaveStart(wave);
      }
    }

    /**
     * Whether a spawn of `kind` gets counted: there is a path, and creating
     * the enemy does not throw, which it does for a known type on an empty path.
     */
    predicate SpawnCounts(kind: string)
      reads this, enemyManager
    {
      path.Some? && !(path.value == [] && kind in enemyManager.configs)
    }


    /**
     * The spawn timer at `k` fires: with a path it creates an enemy of its
     * type, counts it as spawned (even when the type is unknown and nothing
     * is created) and refreshes the progress. A known type on an empty path
     * makes the creation throw before the count.
     */
    method DispatchSpawn(k: nat)
      requires Valid()
      modifies this`spawnTimers, this`enemiesSpawned, this`waveProgress, this`isWaveInProgress, this`events
      modifies enemyManager`enemies, enemyManager`events
      ensures Valid()
      ensures var t := old(spawnTimers);
        !(k < |t| && !t[k].dispatched) ==> unchanged(this) && unchanged(enemyManager)
      ensures var t := old(spawnTimers);
        k < |t| && !t[k].dispatched ==>
          (path.Some? ==> enemyManager.Spawned(t[k].kind, path.value, None, None))
          && (path.None? ==> enemyManager.enemies == old(enemyManager.enemies) && enemyManager.events == old(enemyManager.events))
      ensures var t := old(spawnTimers);
        k < |t| && !t[k].dispatched && !SpawnCounts(t[k].kind) ==>
          spawnTimers == t[k := t[k].(dispatched := true)]
          && enemiesSpawned == old(enemiesSpawned) && isWaveInProgress == old(isWaveInProgress)
          && events == old(events) && waveProgress == old(waveProgress)
      ensures var t := old(spawnTimers);
        k < |t| && !t[k].dispatched && SpawnCounts(t[k].kind) ==>
          enemiesSpawned == old(enemiesSpawned) + 1
          && Refreshed(t[k := t[k].(dispatched := true)], old(waveProgress), old(isWaveInProgress), old(events))
    {
      if !(k < |spawnTimers| && !spawnTimers[k].dispatched) {
        return;
      }
      spawnTimers := spawnTimers[k := spawnTimers[k].(dispatched := true)];
      SpawnCallback(spawnTimers[k].kind);
    }

    /**
     * The callback of a spawn timer: with a path it creates an enemy of the
     * timer's type, counts it and refreshes the progress, unless the creation
     * throws first.
     */
    method SpawnCallback(kind: string)
      requires Valid()
      modifies this`spawnTimers, this`enemiesSpawned, this`waveProgress, this`isWaveInProgress, this`events
      modifies enemyManager`enemies, enemyManager`events
      ensures Valid()
      ensures path.Some? ==> enemyManager.Spawned(kind, path.value, None, None)
      ensures path.None? ==> enemyManager.enemies == old(enemyManager.enemies) && enemyManager.events == old(enemyManager.events)
      ensures !SpawnCounts(kind) ==>
        spawnTimers == old(spawnTimers) && enemiesSpawned == old(enemiesSpawned)
        && isWaveInProgress == old(isWaveInProgress) && events == old(events) && waveProgress == old(waveProgress)
      ensures SpawnCounts(kind) ==>
        enemiesSpawned == old(enemiesSpawned) + 1
        && Refreshed(old(spawnTimers), old(waveProgress), old(isWaveInProgress), old(events))
    {
      if path.Some? {
        var created := enemyManager.CreateEnemy(kind, path.value, None, None);
        if created == Failure(NoStartPoint) {
          return;
        }
        enemiesSpawned := enemiesSpawned + 1;
        var thrown := UpdateWaveProgress();
      }
    }

    /**
     * `skipWaveDelay`: only a start timer that has not fired yet is skipped.
     * It is destroyed and forgotten, and the wave at the current index, if
     * there is one, starts at once.
     */
    method SkipWaveDelay()
      requires Valid()
      modifies this`startTimers, this`waveStartTimer, this`waveProgress, this`events, this`spawnTimers
      ensures Valid()
      ensures !(old(waveStartTimer).Some? && old(startTimers)[old(waveStartTimer).value].status == Pending) ==>
        unchanged(this)
      ensures old(waveStartTimer).Some? && old(startTimers)[old(waveStartTimer).value].status == Pending ==>
        var t := old(waveStartTimer).value;
        waveStartTimer.None? && startTimers == old(startTimers)[t := old(startTimers)[t].(status := Destroyed)]
        && (0 <= currentWaveIndex < |waves| ==>
              var w := waves[currentWaveIndex];
              waveProgress == old(waveProgress).(timeUntilNextWave := 0.0, isWaveInProgress := true)
              && events == old(events) + [WaveStarted(w.waveNumber, w.description)]
              && spawnTimers == old(spawnTimers) + ScheduleOf(Entries(w.enemies)))
        && (!(0 <= currentWaveIndex < |waves|) ==>
              waveProgress == old(waveProgress) && events == old(events) && spawnTimers == old(spawnTimers))
    {
      if waveStartTimer.Some? && startTimers[waveStartTimer.value].status == Pending {
        var t := waveStartTimer.value;
        startTimers := startTimers[t := startTimers[t].(status := Destroyed)];
        waveStartTimer := None;
        if 0 <= currentWaveIndex < |waves| {
          ExecuteWaveStart(waves[currentWaveIndex]);
        }
      }
    }

    /**
     * `reset`: back to before the first wave with nothing in progress; the
     * current start timer and every spawn timer are destroyed, and the
     * progress shows only the number of waves.
     */
    method Reset()
      requires Valid()
      modifies this`currentWaveIndex, this`isWaveInProgress, this`totalEnemiesInWave, this`enemiesSpawned,
        this`startTimers, this`waveStartTimer, this`spawnTimers, this`waveProgress
      ensures Valid()
      ensures currentWaveIndex == -1 && !isWaveInProgress && totalEnemiesInWave == 0 && enemiesSpawned == 0
      ensures waveStartTimer.None? && spawnTimers == []
      ensures old(waveStartTimer).Some? ==>
        var t := old(waveStartTimer).value;
        startTimers == old(startTimers)[t := old(startTimers)[t].(status := Destroyed)]
      ensures old(waveStartTimer).None? ==> startTimers == old(startTimers)
      ensures waveProgress == WaveProgress(0, |waves|, 0, 0, 0, 0.0, false)
    {
      currentWaveIndex := -1;
      isWaveInProgress := false;
      totalEnemiesInWave := 0;
      enemiesSpawned := 0;
      if waveStartTimer.Some? {
        var t := waveStartTimer.value;
        startTimers := startTimers[t := startTimers[t].(status := Destroyed)];
        waveStartTimer := None;
      }
      spawnTimers := [];
      waveProgress := WaveProgress(0, |waves|, 0, 0, 0, 0.0, false);
    }

    function GetWaveProgress(): WaveProgress
      reads this
    {
      waveProgress
    }

    function IsWaveActive(): bool
      reads this
    {
      isWaveInProgress
    }
  }
}
