// The player's profile and the service that keeps it: coins, score, the maps
// and towers unlocked, the highest level reached with each tower, achievements,
// the daily-reward streak, settings and lifetime statistics. Dates are whole
// day numbers (yesterday is today - 1); the stored JSON is passed in already
// parsed, and saving is not modelled.
module Profiles {
  import opened Common

  /** A calendar day. */
  type Day = int

  datatype AchievementProgress = AchievementProgress(id: string, unlocked: bool, unlockedAt: Option<int>,
                                                     progress: Option<int>)

  /** The daily-reward state; an empty last-claim date is `None`. */
  datatype DailyRewardState = DailyRewardState(lastClaimDate: Option<Day>, streak: int)

  /** The settings; `adsRemoved` is only ever set by a purchase. */
  datatype Settings = Settings(soundEnabled: bool, musicEnabled: bool, soundVolume: real, musicVolume: real,
                               gameSpeed: real, showTutorial: bool, adsRemoved: Option<bool>)

  datatype Stats = Stats(gamesPlayed: int, gamesWon: int, totalEnemiesKilled: int, totalCoinsEarned: int,
                         highestScore: int, longestWave: int, favoriteTower: string)

  /** Battle-pass progress as the profile stores it. */
  datatype BattlePassProgress = BattlePassProgress(passId: string, currentLevel: int, currentXP: int,
                                                   claimedLevels: seq<int>, premiumUnlocked: bool)

  /** The profile; the skins bought and the battle-pass progress are stored on it when there are any. */
  datatype Profile = Profile(userId: string, coins: int, totalScore: int, unlockedMaps: seq<string>,
                             unlockedTowers: seq<string>, towerLevels: map<string, int>,
                             achievements: seq<AchievementProgress>, dailyRewards: DailyRewardState,
                             settings: Settings, stats: Stats, ownedSkins: Option<seq<string>>,
                             battlePass: Option<BattlePassProgress>)

  /** `Partial<PlayerSettings>`. */
  datatype SettingsPatch = SettingsPatch(soundEnabled: Option<bool>, musicEnabled: Option<bool>,
                                         soundVolume: Option<real>, musicVolume: Option<real>,
                                         gameSpeed: Option<real>, showTutorial: Option<bool>,
                                         adsRemoved: Option<bool>)

  /** `Partial<PlayerStats>`. */
  datatype StatsPatch = StatsPatch(gamesPlayed: Option<int>, gamesWon: Option<int>, totalEnemiesKilled: Option<int>,
                                   totalCoinsEarned: Option<int>, highestScore: Option<int>,
                                   longestWave: Option<int>, favoriteTower: Option<string>)

  datatype DailyPatch = DailyPatch(lastClaimDate: Option<Option<Day>>, streak: Option<int>)

  /** A profile as stored: any field may be missing. */
  datatype StoredProfile = StoredProfile(userId: Option<string>, coins: Option<int>, totalScore: Option<int>,
                                         unlockedMaps: Option<seq<string>>, unlockedTowers: Option<seq<string>>,
                                         towerLevels: Option<map<string, int>>,
                                         achievements: Option<seq<AchievementProgress>>,
                                         dailyRewards: Option<DailyPatch>, settings: Option<SettingsPatch>,
                                         stats: Option<StatsPatch>, ownedSkins: Option<seq<string>>,
                                         battlePass: Option<BattlePassProgress>)

  const StartingCoins := 200
  const DefaultSettings := Settings(true, true, 0.7, 0.5, 1.0, true, None)
  const ZeroStats := Stats(0, 0, 0, 0, 0, 0, "")

  /** A new player's profile: 200 coins, the forest map, the cannon and ice towers, and no streak. */
  function DefaultProfile(userId: string): (p: Profile)
    ensures p.userId == userId && p.coins == 200 && p.totalScore == 0
    ensures p.unlockedMaps == ["forest"] && p.unlockedTowers == ["cannon", "ice"]
    ensures p.towerLevels == map[] && p.achievements == []
    ensures p.dailyRewards == DailyRewardState(None, 0)
    ensures p.stats == ZeroStats && p.settings == DefaultSettings
  {
    Profile(userId, StartingCoins, 0, ["forest"], ["cannon", "ice"], map[], [], DailyRewardState(None, 0),
            DefaultSettings, ZeroStats, None, None)
  }

  function Given<T>(v: Option<T>, d: T): T
  {
    if v.Some? then v.value else d
  }

  /** `{ ...s, ...patch }` on the settings. */
  function PatchSettings(s: Settings, u: SettingsPatch): (r: Settings)
    ensures u.soundEnabled.Some? ==> r.soundEnabled == u.soundEnabled.value
    ensures u.soundEnabled.None? ==> r.soundEnabled == s.soundEnabled
    ensures u.musicEnabled.Some? ==> r.musicEnabled == u.musicEnabled.value
    ensures u.musicEnabled.None? ==> r.musicEnabled == s.musicEnabled
    ensures u.soundVolume.Some? ==> r.soundVolume == u.soundVolume.value
    ensures u.soundVolume.None? ==> r.soundVolume == s.soundVolume
    ensures u.musicVolume.Some? ==> r.musicVolume == u.musicVolume.value
    ensures u.musicVolume.None? ==> r.musicVolume == s.musicVolume
    ensures u.gameSpeed.Some? ==> r.gameSpeed == u.gameSpeed.value
    ensures u.gameSpeed.None? ==> r.gameSpeed == s.gameSpeed
    ensures u.showTutorial.Some? ==> r.showTutorial == u.showTutorial.value
    ensures u.showTutorial.None? ==> r.showTutorial == s.showTutorial
    ensures u.adsRemoved.Some? ==> r.adsRemoved == u.adsRemoved
    ensures u.adsRemoved.None? ==> r.adsRemoved == s.adsRemoved
  {
    Settings(Given(u.soundEnabled, s.soundEnabled), Given(u.musicEnabled, s.musicEnabled),
             Given(u.soundVolume, s.soundVolume), Given(u.musicVolume, s.musicVolume),
             Given(u.gameSpeed, s.gameSpeed), Given(u.showTutorial, s.showTutorial),
             if u.adsRemoved.Some? then u.adsRemoved else s.adsRemoved)
  }

  /** `{ ...s, ...patch }` on the statistics. */
  function PatchStats(s: Stats, u: StatsPatch): (r: Stats)
    ensures u.gamesPlayed.Some? ==> r.gamesPlayed == u.gamesPlayed.value
    ensures u.gamesPlayed.None? ==> r.gamesPlayed == s.gamesPlayed
    ensures u.gamesWon.Some? ==> r.gamesWon == u.gamesWon.value
    ensures u.gamesWon.None? ==> r.gamesWon == s.gamesWon
    ensures u.totalEnemiesKilled.Some? ==> r.totalEnemiesKilled == u.totalEnemiesKilled.value
    ensures u.totalEnemiesKilled.None? ==> r.totalEnemiesKilled == s.totalEnemiesKilled
    ensures u.totalCoinsEarned.Some? ==> r.totalCoinsEarned == u.totalCoinsEarned.value
    ensures u.totalCoinsEarned.None? ==> r.totalCoinsEarned == s.totalCoinsEarned
    ensures u.highestScore.Some? ==> r.highestScore == u.highestScore.value
    ensures u.highestScore.None? ==> r.highestScore == s.highestScore
    ensures u.longestWave.Some? ==> r.longestWave == u.longestWave.value
    ensures u.longestWave.None? ==> r.longestWave == s.longestWave
    ensures u.favoriteTower.Some? ==> r.favoriteTower == u.favoriteTower.value
    ensures u.favoriteTower.None? ==> r.favoriteTower == s.favoriteTower
  {
    Stats(Given(u.gamesPlayed, s.gamesPlayed), Given(u.gamesWon, s.gamesWon),
          Given(u.totalEnemiesKilled, s.totalEnemiesKilled), Given(u.totalCoinsEarned, s.totalCoinsEarned),
          Given(u.highestScore, s.highestScore), Given(u.longestWave, s.longestWave),
          Given(u.favoriteTower, s.favoriteTower))
  }

  /**
   * `validateProfile`: the stored fields override the defaults, and the
   * settings, statistics and daily-reward state are merged field by field
   * over the default ones.
   */
  function ValidateProfile(defaults: Profile, s: StoredProfile): (p: Profile)
    ensures p.userId == Given(s.userId, defaults.userId) && p.coins == Given(s.coins, defaults.coins)
    ensures p.totalScore == Given(s.totalScore, defaults.totalScore)
    ensures p.unlockedMaps == Given(s.unlockedMaps, defaults.unlockedMaps)
    ensures p.unlockedTowers == Given(s.unlockedTowers, defaults.unlockedTowers)
    ensures p.towerLevels == Given(s.towerLevels, defaults.towerLevels)
    ensures p.achievements == Given(s.achievements, defaults.achievements)
    ensures s.settings.None? ==> p.settings == defaults.settings
    ensures s.settings.Some? ==> p.settings == PatchSettings(defaults.settings, s.settings.value)
    ensures s.stats.None? ==> p.stats == defaults.stats
    ensures s.stats.Some? ==> p.stats == PatchStats(defaults.stats, s.stats.value)
    ensures s.dailyRewards.None? ==> p.dailyRewards == defaults.dailyRewards
    ensures s.dailyRewards.Some? ==>
      p.dailyRewards.lastClaimDate == Given(s.dailyRewards.value.lastClaimDate, defaults.dailyRewards.lastClaimDate)
      && p.dailyRewards.streak == Given(s.dailyRewards.value.streak, defaults.dailyRewards.streak)
  {
    var noSettings := SettingsPatch(None, None, None, None, None, None, None);
    var noStats := StatsPatch(None, None, None, None, None, None, None);
    var daily := Given(s.dailyRewards, DailyPatch(None, None));
    Profile(Given(s.userId, defaults.userId), Given(s.coins, defaults.coins), Given(s.totalScore, defaults.totalScore),
            Given(s.unlockedMaps, defaults.unlockedMaps), Given(s.unlockedTowers, defaults.unlockedTowers),
            Given(s.towerLevels, defaults.towerLevels), Given(s.achievements, defaults.achievements),
            DailyRewardState(Given(daily.lastClaimDate, defaults.dailyRewards.lastClaimDate),
                             Given(daily.streak, defaults.dailyRewards.streak)),
            PatchSettings(defaults.settings, Given(s.settings, noSettings)),
            PatchStats(defaults.stats, Given(s.stats, noStats)),
            if s.ownedSkins.Some? then s.ownedSkins else defaults.ownedSkins,
            if s.battlePass.Some? then s.battlePass else defaults.battlePass)
  }

  /** An empty stored profile validates to the defaults. */
  lemma ValidateEmpty(defaults: Profile)
    ensures ValidateProfile(defaults, StoredProfile(None, None, None, None, None, None, None, None, None, None, None,
                                                    None)) == defaults
  {
  }

  /** `addCoins` on a profile: both the coins and the lifetime coins earned rise by the amount. */
  function WithCoins(p: Profile, amount: int): (r: Profile)
    ensures r == p.(coins := p.coins + amount, stats := p.stats.(totalCoinsEarned := p.stats.totalCoinsEarned + amount))
  {
    p.(coins := p.coins + amount, stats := p.stats.(totalCoinsEarned := p.stats.totalCoinsEarned + amount))
  }

  /** Coins added in two steps are coins added at once. */
  lemma WithCoinsAdds(p: Profile, a: int, b: int)
    ensures WithCoins(WithCoins(p, a), b) == WithCoins(p, a + b)
    ensures WithCoins(p, 0) == p
  {
  }

  /** `includes`-guarded `push`: the list with x at the end unless it already holds x. */
  function Unlock(list: seq<string>, x: string): (r: seq<string>)
    ensures x in r
    ensures x in list ==> r == list
    ensures x !in list ==> r == list + [x]
  {
    if x in list then list else list + [x]
  }

  /** Unlocking twice is unlocking once, and unlocking never creates a duplicate. */
  lemma UnlockLaws(list: seq<string>, x: string)
    ensures Unlock(Unlock(list, x), x) == Unlock(list, x)
    ensures NoDuplicates(list) ==> NoDuplicates(Unlock(list, x))
    ensures forall y :: y in list ==> y in Unlock(list, x)
  {
    if x !in list && NoDuplicates(list) {
      NoDuplicatesSnoc(list, x);
    }
  }

  /**
   * Whether `updateTowerLevel` stores the level: when none is stored, when
   * the stored one is 0 (which JavaScript treats as missing), or when the
   * new one is higher.
   */
  predicate RaisesLevel(levels: map<string, int>, towerType: string, level: int)
  {
    towerType !in levels || levels[towerType] == 0 || levels[towerType] < level
  }

  /** `25 + min(5 * streak, 50)`. */
  function DailyRewardFor(streak: int): (r: int)
    ensures streak >= 0 ==> 25 <= r <= 75
    ensures streak >= 10 ==> r == 75
  {
    25 + (if streak * 5 < 50 then streak * 5 else 50)
  }

  /** A longer streak never earns less. */
  lemma DailyRewardMonotone(a: int, b: int)
    requires a <= b
    ensures DailyRewardFor(a) <= DailyRewardFor(b)
  {
  }

  datatype DailyCheck = DailyCheck(canClaim: bool, reward: int, streak: int)

  /** `checkDailyReward` with a profile: claimable unless already claimed today, with the reward of the current streak. */
  function CheckDaily(d: DailyRewardState, today: Day): (c: DailyCheck)
    ensures c.canClaim <==> d.lastClaimDate != Some(today)
    ensures c.canClaim ==> c.reward == DailyRewardFor(d.streak)
    ensures !c.canClaim ==> c.reward == 0
    ensures c.streak == d.streak
  {
    if d.lastClaimDate.None? || d.lastClaimDate.value != today then DailyCheck(true, DailyRewardFor(d.streak), d.streak)
    else DailyCheck(false, 0, d.streak)
  }

  /**
   * The daily-reward state after a claim today: the streak goes on from a
   * claim yesterday and otherwise restarts at 1, and today is recorded.
   */
  function Claimed(d: DailyRewardState, today: Day): (r: DailyRewardState)
    ensures r.lastClaimDate == Some(today)
    ensures d.lastClaimDate == Some(today - 1) ==> r.streak == d.streak + 1
    ensures d.lastClaimDate != Some(today - 1) && d.lastClaimDate != Some(today) ==> r.streak == 1
  {
    DailyRewardState(Some(today),
                     if d.lastClaimDate == Some(today - 1) then d.streak + 1
                     else if d.lastClaimDate != Some(today) then 1
                     else d.streak)
  }

  /**
   * A claim is at most once a day, and claiming on consecutive days grows
   * the streak by one each day.
   */
  lemma ClaimOncePerDay(d: DailyRewardState, today: Day)
    ensures !CheckDaily(Claimed(d, today), today).canClaim
    ensures CheckDaily(Claimed(d, today), today + 1).canClaim
    ensures Claimed(Claimed(d, today), today + 1).streak == Claimed(d, today).streak + 1
  {
  }

  class PlayerProfileService {
    var profile: Option<Profile>
    /**
     * The defaults a missing profile is created from. Only their settings
     * ever change: `getSettings` hands them out by reference while no
     * profile is loaded, and a profile created later shares them.
     */
    var defaultProfile: Profile

    constructor (userId: string)
      ensures defaultProfile == DefaultProfile(userId) && profile.None?
    {
      defaultProfile := DefaultProfile(userId);
      profile := None;
    }

    /** `initialize`: the stored profile validated over the defaults, or the defaults when nothing is stored. */
    method Initialize(stored: Option<StoredProfile>) returns (p: Profile)
      modifies this`profile
      ensures stored.None? ==> p == defaultProfile
      ensures stored.Some? ==> p == ValidateProfile(defaultProfile, stored.value)
      ensures profile == Some(p)
    {
      if stored.Some? {
        p := ValidateProfile(defaultProfile, stored.value);
      } else {
        p := defaultProfile;
      }
      profile := Some(p);
    }

    /** `saveProfile`: fails only without a profile. */
    function SaveProfile(): (ok: bool)
      reads this
      ensures ok <==> profile.Some?
    {
      profile.Some?
    }

    /** `getProfile`: the profile, created from the defaults when there is none yet. */
    method GetProfile() returns (p: Profile)
      modifies this`profile
      ensures old(profile).Some? ==> profile == old(profile)
      ensures old(profile).None? ==> profile == Some(defaultProfile)
      ensures profile == Some(p)
    {
      if profile.None? {
        profile := Some(defaultProfile);
      }
      p := profile.value;
    }

    /** `addCoins`: the coins and the lifetime coins earned rise by the amount; nothing without a profile. */
    method AddCoins(amount: int)
      modifies this`profile
      ensures old(profile).None? ==> profile.None?
      ensures old(profile).Some? ==> profile == Some(WithCoins(old(profile).value, amount))
    {
      if profile.None? {
        return;
      }
      profile := Some(WithCoins(profile.value, amount));
    }

    /** `spendCoins`: refused without a profile or when the coins do not cover the amount. */
    method SpendCoins(amount: int) returns (ok: bool)
      modifies this`profile
      ensures ok <==> old(profile).Some? && old(profile).value.coins >= amount
      ensures !ok ==> profile == old(profile)
      ensures ok ==> profile == Some(old(profile).value.(coins := old(profile).value.coins - amount))
    {
      if profile.None? || profile.value.coins < amount {
        return false;
      }
      profile := Some(profile.value.(coins := profile.value.coins - amount));
      return true;
    }

    /** `updateScore`: the score is added to the total, and the highest score becomes the larger of the two. */
    method UpdateScore(score: int)
      modifies this`profile
      ensures old(profile).None? ==> profile.None?
      ensures old(profile).Some? ==>
        var p := old(profile).value;
        profile == Some(p.(totalScore := p.totalScore + score,
                           stats := p.stats.(highestScore := if score > p.stats.highestScore then score
                                                             else p.stats.highestScore)))
      ensures profile.Some? ==>
        profile.value.stats.highestScore >= score
        && profile.value.stats.highestScore >= old(profile).value.stats.highestScore
    {
      if profile.None? {
        return;
      }
      var p := profile.value;
      p := p.(totalScore := p.totalScore + score);
      if score > p.stats.highestScore {
        p := p.(stats := p.stats.(highestScore := score));
      }
      profile := Some(p);
    }

    /** `unlockMap`: the map is added once; unlocking it again changes nothing. */
    method UnlockMap(mapId: string)
      modifies this`profile
      ensures old(profile).None? ==> profile.None?
      ensures old(profile).Some? ==>
        profile == Some(old(profile).value.(unlockedMaps := Unlock(old(profile).value.unlockedMaps, mapId)))
    {
      if profile.None? {
        return;
      }
      if mapId !in profile.value.unlockedMaps {
        profile := Some(profile.value.(unlockedMaps := profile.value.unlockedMaps + [mapId]));
      }
    }

    /** `unlockTower`: the tower type is added once; unlocking it again changes nothing. */
    method UnlockTower(towerType: string)
      modifies this`profile
      ensures old(profile).None? ==> profile.None?
      ensures old(profile).Some? ==>
        profile == Some(old(profile).value.(unlockedTowers := Unlock(old(profile).value.unlockedTowers, towerType)))
    {
      if profile.None? {
        return;
      }
      if towerType !in profile.value.unlockedTowers {
        profile := Some(profile.value.(unlockedTowers := profile.value.unlockedTowers + [towerType]));
      }
    }

    /**
     * `updateTowerLevel`: the stored level is replaced only when missing,
     * 0, or lower than the new one, so a stored non-zero level never drops.
     */
    method UpdateTowerLevel(towerType: string, level: int)
      modifies this`profile
      ensures old(profile).None? ==> profile.None?
      ensures old(profile).Some? && !RaisesLevel(old(profile).value.towerLevels, towerType, level) ==>
        profile == old(profile)
      ensures old(profile).Some? && RaisesLevel(old(profile).value.towerLevels, towerType, level) ==>
        profile == Some(old(profile).value.(towerLevels := old(profile).value.towerLevels[towerType := level]))
      ensures old(profile).Some? ==> towerType in profile.value.towerLevels
      ensures old(profile).Some? && towerType in old(profile).value.towerLevels
              && old(profile).value.towerLevels[towerType] != 0 ==>
        profile.value.towerLevels[towerType] >= old(profile).value.towerLevels[towerType]
        && profile.value.towerLevels[towerType] >= level
    {
      if profile.None? {
        return;
      }
      var levels := profile.value.towerLevels;
      if towerType !in levels || levels[towerType] == 0 || levels[towerType] < level {
        profile := Some(profile.value.(towerLevels := levels[towerType := level]));
      }
    }

    /** `updateGameStats`: a partial merge into the statistics. */
    method UpdateGameStats(patch: StatsPatch)
      modifies this`profile
      ensures old(profile).None? ==> profile.None?
      ensures old(profile).Some? ==>
        profile == Some(old(profile).value.(stats := PatchStats(old(profile).value.stats, patch)))
    {
      if profile.None? {
        return;
      }
      profile := Some(profile.value.(stats := PatchStats(profile.value.stats, patch)));
    }

    /** `checkDailyReward`: nothing to claim without a profile. */
    function CheckDailyReward(today: Day): (c: DailyCheck)
      reads this
      ensures profile.None? ==> c == DailyCheck(false, 0, 0)
      ensures profile.Some? ==> c == CheckDaily(profile.value.dailyRewards, today)
    {
      if profile.None? then DailyCheck(false, 0, 0) else CheckDaily(profile.value.dailyRewards, today)
    }

    /**
     * `claimDailyReward`: 0 without a profile or when already claimed today;
     * otherwise the streak moves on, today is recorded and the reward of the
     * streak before the claim is paid.
     */
    method ClaimDailyReward(today: Day) returns (reward: int)
      modifies this`profile
      ensures old(profile).None? || old(profile).value.dailyRewards.lastClaimDate == Some(today) ==>
        reward == 0 && profile == old(profile)
      ensures old(profile).Some? && old(profile).value.dailyRewards.lastClaimDate != Some(today) ==>
        var p := old(profile).value;
        reward == DailyRewardFor(p.dailyRewards.streak)
        && profile == Some(WithCoins(p.(dailyRewards := Claimed(p.dailyRewards, today)), reward))
    {
      if profile.None? {
        return 0;
      }
      var check := CheckDailyReward(today);
      if !check.canClaim {
        return 0;
      }
      var d := profile.value.dailyRewards;
      if d.lastClaimDate == Some(today - 1) {
        d := d.(streak := d.streak + 1);
      } else if d.lastClaimDate != Some(today) {
        d := d.(streak := 1);
      }
      d := d.(lastClaimDate := Some(today));
      profile := Some(profile.value.(dailyRewards := d));
      AddCoins(check.reward);
      return check.reward;
    }

    /** `updateSettings`: a partial merge into the settings. */
    method UpdateSettings(patch: SettingsPatch)
      modifies this`profile
      ensures old(profile).None? ==> profile.None?
      ensures old(profile).Some? ==>
        profile == Some(old(profile).value.(settings := PatchSettings(old(profile).value.settings, patch)))
    {
      if profile.None? {
        return;
      }
      profile := Some(profile.value.(settings := PatchSettings(profile.value.settings, patch)));
    }

    /** `getSettings`: the profile's settings, or the default ones without a profile. */
    function GetSettings(): Settings
      reads this
    {
      if profile.Some? then profile.value.settings else defaultProfile.settings
    }
  }
}
