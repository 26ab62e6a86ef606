// The achievement system: per-game counters fed by game events, conditions
// over those counters, progress records kept per achievement, and the unlock
// that records the achievement on the player's profile and pays its reward.
// The configuration is passed in already fetched; `Date.now()` is the `now`
// parameter; the Telegram alert and console output are not modelled.
module Achievements {
  import opened Common
  import opened Profiles
  import opened GameStates

  datatype ConditionType =
    | KillEnemies | KillEnemyType | BuildTower | UpgradeTower | UpgradeTowerToLevel | CompleteMap
    | CompleteMapNoLivesLost | CompleteWave | EarnCoins | ScoreReached | PlayGames | WinGames

  datatype Condition = Condition(kind: ConditionType, value: int, target: Option<string>)

  datatype AchievementConfig = AchievementConfig(id: string, name: string, description: string, reward: int,
                                                 condition: Condition)

  /** The counters of the game in progress. */
  datatype GameCounters = GameCounters(enemiesKilled: int, towersBuilt: int, towersUpgraded: int,
                                       mapsCompleted: int, wavesCompleted: int, coinsEarned: int,
                                       currentScore: int, livesLost: bool)

  /** The optional payload of a tracked event: `amount` for coins, `livesLost` for a finished map. */
  datatype EventData = EventData(amount: Option<int>, livesLost: Option<bool>)

  /** What the system emits. */
  datatype AchievementEvent =
    | AchievementUnlocked(achievement: AchievementConfig, reward: int)
    | ProgressUpdated(achievementId: string, progress: int, maxProgress: int)

  const ZeroCounters := GameCounters(0, 0, 0, 0, 0, 0, 0, false)

  /**
   * `trackEvent`: each known event bumps its own counter; coins earned add
   * the amount (0 when missing), a finished map also records whether lives
   * were lost (false when missing), and any other event changes nothing.
   */
  function Tracked(c: GameCounters, event: string, data: EventData): (r: GameCounters)
    ensures event == "enemy_killed" ==> r == c.(enemiesKilled := c.enemiesKilled + 1)
    ensures event == "tower_built" ==> r == c.(towersBuilt := c.towersBuilt + 1)
    ensures event == "tower_upgraded" ==> r == c.(towersUpgraded := c.towersUpgraded + 1)
    ensures event == "wave_completed" ==> r == c.(wavesCompleted := c.wavesCompleted + 1)
    ensures event == "coins_earned" ==> r == c.(coinsEarned := c.coinsEarned + Given(data.amount, 0))
    ensures event == "map_completed" ==>
      r == c.(mapsCompleted := c.mapsCompleted + 1, livesLost := Given(data.livesLost, false))
    ensures event !in {"enemy_killed", "tower_built", "tower_upgraded", "wave_completed", "coins_earned",
                       "map_completed"}
            ==> r == c
  {
    match event
    case "enemy_killed" => c.(enemiesKilled := c.enemiesKilled + 1)
    case "tower_built" => c.(towersBuilt := c.towersBuilt + 1)
    case "tower_upgraded" => c.(towersUpgraded := c.towersUpgraded + 1)
    case "wave_completed" => c.(wavesCompleted := c.wavesCompleted + 1)
    case "coins_earned" => c.(coinsEarned := c.coinsEarned + Given(data.amount, 0))
    case "map_completed" => c.(mapsCompleted := c.mapsCompleted + 1, livesLost := Given(data.livesLost, false))
    case _ => c
  }

  /** Every counter of `b` is at least the one in `a`, and lives lost agree. */
  predicate Dominates(b: GameCounters, a: GameCounters)
  {
    && b.enemiesKilled >= a.enemiesKilled && b.towersBuilt >= a.towersBuilt
    && b.towersUpgraded >= a.towersUpgraded && b.mapsCompleted >= a.mapsCompleted
    && b.wavesCompleted >= a.wavesCompleted && b.coinsEarned >= a.coinsEarned
    && b.currentScore >= a.currentScore && b.livesLost == a.livesLost
  }

  /** Tracking never lowers a counter (given no negative coin amounts), except that a finished map resets the lives-lost flag. */
  lemma TrackedGrows(c: GameCounters, event: string, data: EventData)
    requires Given(data.amount, 0) >= 0
    requires event == "map_completed" ==> Given(data.livesLost, false) == c.livesLost
    ensures Dominates(Tracked(c, event, data), c)
  {
  }

  /**
   * `checkCondition`: a condition holds when its counter has reached the
   * value; the no-lives-lost map condition also needs no life lost; the
   * kinds without a counter never hold.
   */
  function ConditionMet(c: GameCounters, cond: Condition): (r: bool)
    ensures cond.kind in {KillEnemyType, UpgradeTower, CompleteMap, PlayGames, WinGames} ==> !r
    ensures cond.kind == CompleteMapNoLivesLost ==> (r <==> c.mapsCompleted >= cond.value && !c.livesLost)
  {
    match cond.kind
    case KillEnemies => c.enemiesKilled >= cond.value
    case BuildTower => c.towersBuilt >= cond.value
    case UpgradeTowerToLevel => c.towersUpgraded >= cond.value
    case CompleteWave => c.wavesCompleted >= cond.value
    case EarnCoins => c.coinsEarned >= cond.value
    case ScoreReached => c.currentScore >= cond.value
    case CompleteMapNoLivesLost => c.mapsCompleted >= cond.value && !c.livesLost
    case _ => false
  }

  /** Once met, a condition stays met while the counters only grow. */
  lemma ConditionMetMonotone(a: GameCounters, b: GameCounters, cond: Condition)
    requires Dominates(b, a) && ConditionMet(a, cond)
    ensures ConditionMet(b, cond)
  {
  }

  /** `updateProgress`'s value: `Math.min(counter, condition.value)`, the counter being 0 for kinds without one. */
  function ProgressValue(c: GameCounters, cond: Condition): (p: int)
    ensures p <= cond.value || (cond.kind !in {KillEnemies, BuildTower, EarnCoins, ScoreReached} && p == 0)
    ensures cond.kind !in {KillEnemies, BuildTower, EarnCoins, ScoreReached} ==> p == (if 0 < cond.value then 0 else cond.value)
  {
    var counter := match cond.kind
      case KillEnemies => c.enemiesKilled
      case BuildTower => c.towersBuilt
      case EarnCoins => c.coinsEarned
      case ScoreReached => c.currentScore
      case _ => 0;
    if counter < cond.value then counter else cond.value
  }

  /** For the four progressive kinds the progress is full exactly when the condition is met. */
  lemma ProgressFullIffMet(c: GameCounters, cond: Condition)
    requires cond.kind in {KillEnemies, BuildTower, EarnCoins, ScoreReached}
    ensures ProgressValue(c, cond) == cond.value <==> ConditionMet(c, cond)
  {
  }

  /** `findIndex` by id: the index of the first record with the id, or -1 when there is none. */
  function FindIndex(records: seq<AchievementProgress>, id: string): (i: int)
    ensures -1 <= i < |records|
    ensures i == -1 <==> forall k :: 0 <= k < |records| ==> records[k].id != id
    ensures 0 <= i ==> records[i].id == id && forall k :: 0 <= k < i ==> records[k].id != id
  {
    if records == [] then -1
    else if records[0].id == id then 0
    else
      var i := FindIndex(records[1..], id);
      assert forall k :: 1 <= k < |records| ==> records[k] == records[1..][k - 1];
      if i == -1 then -1 else i + 1
  }

  /** `findIndex` then replace, or `push`: the profile's record for the achievement, inserted or replaced. */
  function Upsert(records: seq<AchievementProgress>, p: AchievementProgress): (r: seq<AchievementProgress>)
    ensures p in r
    ensures forall a :: a in r ==> a in records || a == p
    ensures forall a :: a in records && a.id != p.id ==> a in r
    ensures (exists i :: 0 <= i < |records| && records[i].id == p.id) ==> |r| == |records|
    ensures (forall i :: 0 <= i < |records| ==> records[i].id != p.id) ==> r == records + [p]
    ensures forall i :: 0 <= i < |records| && records[i].id == p.id && (forall j :: 0 <= j < i ==> records[j].id != p.id)
                        ==> r == records[i := p]
  {
    var i := FindIndex(records, p.id);
    if 0 <= i then
      var r := records[i := p];
      assert r[i] == p;
      assert forall k :: 0 <= k < |records| && k != i ==> r[k] == records[k];
      assert forall a :: a in records && a.id != p.id ==> a in r by {
        forall a | a in records && a.id != p.id
          ensures a in r
        {
          var k :| 0 <= k < |records| && records[k] == a;
          assert r[k] == a;
        }
      }
      r
    else records + [p]
  }

  /** What the achievement system changes: its progress records, the profile, and the events emitted. */
  datatype Ledger = Ledger(progress: OrderedMap<AchievementProgress>, profile: Option<Profile>,
                           events: seq<AchievementEvent>)

  predicate IsUnlocked(m: OrderedMap<AchievementProgress>, id: string)
  {
    id in m.entries && m.entries[id].unlocked
  }

  /**
   * `unlockAchievement` of a configured, not yet unlocked achievement:
   * recorded as unlocked now with full progress, inserted into or replaced
   * on the profile (created from the defaults when missing), its reward
   * paid, and the unlock emitted.
   */
  function UnlockStep(l: Ledger, id: string, config: AchievementConfig, now: int, defaults: Profile): (r: Ledger)
    ensures IsUnlocked(r.progress, id)
    ensures r.progress.entries[id] == AchievementProgress(id, true, Some(now), Some(config.condition.value))
    ensures forall k :: k != id ==> (k in r.progress.entries <==> k in l.progress.entries)
    ensures forall k :: k != id && k in r.progress.entries ==> r.progress.entries[k] == l.progress.entries[k]
    ensures MapValid(l.progress) ==> MapValid(r.progress)
    ensures var p := Given(l.profile, defaults);
      && r.profile.Some?
      && r.profile.value.achievements == Upsert(p.achievements, r.progress.entries[id])
      && r.profile.value.coins == p.coins + config.reward
      && r.profile.value.stats == p.stats.(totalCoinsEarned := p.stats.totalCoinsEarned + config.reward)
      && r.profile.value == p.(achievements := r.profile.value.achievements, coins := r.profile.value.coins,
                               stats := r.profile.value.stats)
    ensures r.events == l.events + [AchievementUnlocked(config, config.reward)]
  {
    var record := AchievementProgress(id, true, Some(now), Some(config.condition.value));
    var p := Given(l.profile, defaults);
    Ledger(Put(l.progress, id, record), Some(WithCoins(p.(achievements := Upsert(p.achievements, record)),
                                                       config.reward)),
           l.events + [AchievementUnlocked(config, config.reward)])
  }

  /** `updateProgress`: the record (a fresh locked one when missing) takes the capped counter, and the progress is emitted. */
  function ProgressStep(l: Ledger, id: string, config: AchievementConfig, c: GameCounters): (r: Ledger)
    ensures r.profile == l.profile
    ensures id in r.progress.entries && r.progress.entries[id].progress == Some(ProgressValue(c, config.condition))
    ensures IsUnlocked(r.progress, id) <==> IsUnlocked(l.progress, id)
    ensures forall k :: k != id ==> (k in r.progress.entries <==> k in l.progress.entries)
    ensures forall k :: k != id && k in r.progress.entries ==> r.progress.entries[k] == l.progress.entries[k]
  {
    var value := ProgressValue(c, config.condition);
    var record := if id in l.progress.entries then l.progress.entries[id]
                  else AchievementProgress(id, false, None, Some(0));
    Ledger(Put(l.progress, id, record.(progress := Some(value))), l.profile,
           l.events + [ProgressUpdated(id, value, config.condition.value)])
  }

  /** One achievement visited by `checkAchievements`: skipped once unlocked, else unlocked when met, else progressed. */
  function CheckStep(l: Ledger, c: GameCounters, id: string, config: AchievementConfig, now: int,
                     defaults: Profile): Ledger
  {
    if IsUnlocked(l.progress, id) then l
    else if ConditionMet(c, config.condition) then UnlockStep(l, id, config, now, defaults)
    else ProgressStep(l, id, config, c)
  }

  /** `checkAchievements` over the achievements `ids`, in order. */
  function Checked(l: Ledger, c: GameCounters, ids: seq<string>, configs: map<string, AchievementConfig>, now: int,
                   defaults: Profile): Ledger
    requires forall i :: 0 <= i < |ids| ==> ids[i] in configs
  {
    if ids == [] then l
    else CheckStep(Checked(l, c, ids[..|ids| - 1], configs, now, defaults), c, ids[|ids| - 1],
                   configs[ids[|ids| - 1]], now, defaults)
  }

  /** An unlocked achievement stays unlocked through a check. */
  lemma {:induction false} CheckedKeepsUnlocked(l: Ledger, c: GameCounters, ids: seq<string>,
                                                configs: map<string, AchievementConfig>, now: int, defaults: Profile,
                                                k: string)
    requires forall i :: 0 <= i < |ids| ==> ids[i] in configs
    requires IsUnlocked(l.progress, k)
    ensures IsUnlocked(Checked(l, c, ids, configs, now, defaults).progress, k)
  {
    if ids != [] {
      CheckedKeepsUnlocked(l, c, ids[..|ids| - 1], configs, now, defaults, k);
    }
  }

  /** After a check, every checked achievement whose condition holds is unlocked. */
  lemma {:induction false} CheckedUnlocksMet(l: Ledger, c: GameCounters, ids: seq<string>,
                                             configs: map<string, AchievementConfig>, now: int, defaults: Profile)
    requires forall i :: 0 <= i < |ids| ==> ids[i] in configs
    ensures forall j :: 0 <= j < |ids| && ConditionMet(c, configs[ids[j]].condition) ==>
      IsUnlocked(Checked(l, c, ids, configs, now, defaults).progress, ids[j])
  {
    if ids != [] {
      var front := ids[..|ids| - 1];
      var before := Checked(l, c, front, configs, now, defaults);
      CheckedUnlocksMet(l, c, front, configs, now, defaults);
      forall j | 0 <= j < |ids| && ConditionMet(c, configs[ids[j]].condition)
        ensures IsUnlocked(Checked(l, c, ids, configs, now, defaults).progress, ids[j])
      {
        if j < |ids| - 1 {
          assert front[j] == ids[j];
          CheckedKeepsUnlocked(before, c, [ids[|ids| - 1]], configs, now, defaults, ids[j]);
          assert [ids[|ids| - 1]][..0] == [];
        }
      }
    }
  }

  /** A check pays nothing when every met achievement is already unlocked. */
  lemma {:induction false} CheckedPaysNothing(l: Ledger, c: GameCounters, ids: seq<string>,
                                              configs: map<string, AchievementConfig>, now: int, defaults: Profile)
    requires forall i :: 0 <= i < |ids| ==> ids[i] in configs
    requires forall j :: 0 <= j < |ids| && ConditionMet(c, configs[ids[j]].condition) ==> IsUnlocked(l.progress, ids[j])
    ensures Checked(l, c, ids, configs, now, defaults).profile == l.profile
  {
    if ids != [] {
      var front := ids[..|ids| - 1];
      var last := ids[|ids| - 1];
      assert forall j :: 0 <= j < |front| ==> front[j] == ids[j];
      CheckedPaysNothing(l, c, front, configs, now, defaults);
      if ConditionMet(c, configs[last].condition) {
        CheckedKeepsUnlocked(l, c, front, configs, now, defaults, last);
      }
    }
  }

  /**
   * Rewards are paid once: checking again with the same counters leaves the
   * profile (and so the coins) as the first check left it.
   */
  lemma CheckTwicePaysOnce(l: Ledger, c: GameCounters, ids: seq<string>, configs: map<string, AchievementConfig>,
                           now: int, later: int, defaults: Profile)
    requires forall i :: 0 <= i < |ids| ==> ids[i] in configs
    ensures var once := Checked(l, c, ids, configs, now, defaults);
      Checked(once, c, ids, configs, later, defaults).profile == once.profile
  {
    CheckedUnlocksMet(l, c, ids, configs, now, defaults);
    CheckedPaysNothing(Checked(l, c, ids, configs, now, defaults), c, ids, configs, later, defaults);
  }

  class AchievementSystem {
    var achievements: OrderedMap<AchievementConfig>
    var progress: OrderedMap<AchievementProgress>
    var gameStats: GameCounters
    var events: seq<AchievementEvent>
    const profileService: PlayerProfileService

    /** Both maps are well formed, and each progress record sits under its own id. */
    ghost predicate Valid()
      reads this
    {
      MapValid(achievements) && MapValid(progress)
      && forall k :: k in progress.entries ==> progress.entries[k].id == k
    }

    function CurrentLedger(): Ledger
      reads this, profileService
    {
      Ledger(progress, profileService.profile, events)
    }

    constructor (profileService: PlayerProfileService)
      ensures this.profileService == profileService
      ensures achievements == EmptyMap() && progress == EmptyMap() && gameStats == ZeroCounters && events == []
      ensures Valid()
    {
      this.profileService := profileService;
      achievements := EmptyMap();
      progress := EmptyMap();
      gameStats := ZeroCounters;
      events := [];
    }

    /**
     * `loadAchievements`: each configured achievement is set under its key,
     * then the profile's records are loaded; a failed fetch (`None`) changes
     * nothing.
     */
    method LoadAchievements(configs: Option<seq<(string, AchievementConfig)>>)
      requires Valid()
      modifies this`achievements, this`progress, profileService`profile
      ensures Valid()
      ensures configs.None? ==> achievements == old(achievements) && progress == old(progress)
                                && profileService.profile == old(profileService.profile)
      ensures configs.Some? ==> achievements == PutAll(old(achievements), configs.value)
      ensures configs.Some? ==>
        profileService.profile.Some?
        && progress == PutAll(old(progress), KeyedBy(profileService.profile.value.achievements, RecordId))
    {
      if configs.None? {
        return;
      }
      var i := 0;
      while i < |configs.value|
        invariant 0 <= i <= |configs.value|
        invariant achievements == PutAll(old(achievements), configs.value[..i])
        invariant Valid()
        modifies this`achievements
      {
        assert configs.value[..i + 1][..i] == configs.value[..i];
        achievements := Put(achievements, configs.value[i].0, configs.value[i].1);
        i := i + 1;
      }
      assert configs.value[..i] == configs.value;
      LoadProgress();
    }

    /** `loadProgress`: a copy of each of the profile's records, under its id. */
    method LoadProgress()
      requires Valid()
      modifies this`progress, profileService`profile
      ensures Valid()
      ensures old(profileService.profile).Some? ==> profileService.profile == old(profileService.profile)
      ensures old(profileService.profile).None? ==> profileService.profile == Some(profileService.defaultProfile)
      ensures profileService.profile.Some?
      ensures progress == PutAll(old(progress), KeyedBy(profileService.profile.value.achievements, RecordId))
    {
      var profile := profileService.GetProfile();
      var records := profile.achievements;
      var i := 0;
      while i < |records|
        invariant 0 <= i <= |records|
        invariant progress == PutAll(old(progress), KeyedBy(records[..i], RecordId))
        invariant Valid()
        modifies this`progress
      {
        PutAllKeyedStep(old(progress), records, i, RecordId);
        progress := Put(progress, records[i].id, records[i]);
        i := i + 1;
      }
      assert records[..i] == records;
    }

    /** `checkAchievements`: the score is taken from the game state, then every achievement is checked in order. */
    method CheckAchievements(gameState: GameState, now: int)
      requires Valid()
      modifies this`gameStats, this`progress, this`events, profileService`profile
      ensures Valid()
      ensures gameStats == old(gameStats).(currentScore := gameState.score)
      ensures CurrentLedger() == Checked(old(CurrentLedger()), gameStats, achievements.keys, achievements.entries,
                                         now, profileService.defaultProfile)
    {
      gameStats := gameStats.(currentScore := gameState.score);
      var ids := achievements.keys;
      var i := 0;
      while i < |ids|
        invariant 0 <= i <= |ids|
        invariant Valid()
        invariant CurrentLedger() == Checked(old(CurrentLedger()), gameStats, ids[..i], achievements.entries, now,
                                             profileService.defaultProfile)
        modifies this`progress, this`events, profileService`profile
      {
        assert ids[..i + 1][..i] == ids[..i];
        CheckOne(ids[i], now);
        i := i + 1;
      }
      assert ids[..i] == ids;
    }

    /** One turn of the `forEach`: the achievement `id` is skipped, unlocked or progressed as `CheckStep` says. */
    method CheckOne(id: string, now: int)
      requires Valid() && id in achievements.entries
      modifies this`progress, this`events, profileService`profile
      ensures Valid()
      ensures CurrentLedger() == CheckStep(old(CurrentLedger()), gameStats, id, achievements.entries[id], now,
                                           profileService.defaultProfile)
    {
      var config := achievements.entries[id];
      if id in progress.entries && progress.entries[id].unlocked {
      } else if CheckCondition(config.condition) {
        UnlockAchievement(id, now);
      } else {
        UpdateProgress(id, config);
      }
    }

    function CheckCondition(cond: Condition): (r: bool)
      reads this
      ensures r == ConditionMet(gameStats, cond)
    {
      ConditionMet(gameStats, cond)
    }

    /** `updateProgress`. */
    method UpdateProgress(id: string, config: AchievementConfig)
      requires Valid()
      modifies this`progress, this`events
      ensures Valid()
      ensures CurrentLedger() == ProgressStep(old(CurrentLedger()), id, config, gameStats)
    {
      var value := ProgressValue(gameStats, config.condition);
      var record := if id in progress.entries then progress.entries[id] else AchievementProgress(id, false, None, Some(0));
      progress := Put(progress, id, record.(progress := Some(value)));
      events := events + [ProgressUpdated(id, value, config.condition.value)];
    }

    /**
     * `unlockAchievement`: an unknown or already unlocked achievement
     * changes nothing; otherwise it is unlocked and paid for once.
     */
    method UnlockAchievement(id: string, now: int)
      requires Valid()
      modifies this`progress, this`events, profileService`profile
      ensures Valid()
      ensures id !in achievements.entries || IsUnlocked(old(progress), id) ==> CurrentLedger() == old(CurrentLedger())
      ensures id in achievements.entries && !IsUnlocked(old(progress), id) ==>
        CurrentLedger() == UnlockStep(old(CurrentLedger()), id, achievements.entries[id], now,
                                      profileService.defaultProfile)
    {
      if id !in achievements.entries {
        return;
      }
      var config := achievements.entries[id];
      if id in progress.entries && progress.entries[id].unlocked {
        return;
      }
      var record := AchievementProgress(id, true, Some(now), Some(config.condition.value));
      progress := Put(progress, id, record);
      var profile := profileService.GetProfile();
      profileService.profile := Some(profile.(achievements := Upsert(profile.achievements, record)));
      profileService.AddCoins(config.reward);
      events := events + [AchievementUnlocked(config, config.reward)];
    }

    /** `trackEvent`. */
    method TrackEvent(event: string, data: EventData)
      modifies this`gameStats
      ensures gameStats == Tracked(old(gameStats), event, data)
    {
      gameStats := Tracked(gameStats, event, data);
    }

    /** `resetGameStats`: every counter back to 0 and no life lost. */
    method ResetGameStats()
      modifies this`gameStats
      ensures gameStats == ZeroCounters
    {
      gameStats := ZeroCounters;
    }

    /** `getProgress`: the records in insertion order. */
    function GetProgress(): (r: seq<AchievementProgress>)
      reads this
      requires Valid()
      ensures |r| == |progress.keys|
      ensures forall i :: 0 <= i < |r| ==> r[i] == progress.entries[progress.keys[i]] && r[i].id == progress.keys[i]
    {
      Values(progress)
    }

    function GetAchievementConfig(id: string): Option<AchievementConfig>
      reads this
    {
      if id in achievements.entries then Some(achievements.entries[id]) else None
    }
  }

  /** Progress records are keyed by their achievement ids. */
  const RecordId: AchievementProgress -> string := (r: AchievementProgress) => r.id
}
