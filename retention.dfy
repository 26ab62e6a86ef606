// The retention engine: a cycle of daily rewards claimed once a day with a
// streak, content unlocked by achievements, levels or score, and the seasonal
// event active today. Days are whole day numbers (yesterday is today - 1);
// `Date.now()` is the `now` parameter; the calendar moment for seasonal events
// is a month, a day of the month and the milliseconds since midnight.
module Retention {
  import opened Common
  import opened Profiles
  import opened Monetization
  import opened Achievements

  /** A day of the reward cycle: its rewards, and whether it pays the 100-coin streak bonus. */
  datatype DailyReward = DailyReward(day: int, rewards: seq<Reward>, streakBonus: bool)

  datatype UnlockCondition = LevelAtLeast(level: int) | ScoreAtLeast(score: int) | AchievementUnlock(achievementId: string)
                           | PurchaseUnlock(productId: string)

  datatype UnlockableContent = UnlockableContent(id: string, kind: string, unlockCondition: UnlockCondition,
                                                 locked: bool, unlockedAt: Option<int>)

  /** The `MM-DD` window of a seasonal event, already split into numbers. */
  datatype EventWindow = EventWindow(id: string, name: string, startMonth: int, startDay: int, endMonth: int,
                                     endDay: int)

  datatype SeasonalEvent = SeasonalEvent(id: string, name: string, description: string, window: EventWindow)

  /** The local calendar moment: the year, month 1..12, day of the month, milliseconds since midnight. */
  datatype Moment = Moment(year: int, month: int, day: int, millis: int)

  datatype RetentionConfig = RetentionConfig(dailyRewards: Option<seq<DailyReward>>,
                                             eventRotation: Option<seq<EventWindow>>)

  /** What `checkUnlockables` reads from the game: the level and score, either possibly missing. */
  datatype PlayerStanding = PlayerStanding(level: Option<int>, score: Option<int>)

  datatype RetentionCheck = RetentionCheck(canClaim: bool, reward: Option<DailyReward>, day: int)

  const StreakBonusCoins := 100

  /** The reward of a cycle day: `rewards[(day - 1) % rewards.length]`, missing for an empty list or a negative index. */
  function RewardFor(rewards: seq<DailyReward>, day: int): (r: Option<DailyReward>)
    ensures |rewards| == 0 ==> r.None?
    ensures day >= 1 && |rewards| > 0 ==> r == Some(rewards[(day - 1) % |rewards|])
  {
    if |rewards| == 0 then None
    else
      var k := JsRem(day - 1, |rewards|);
      if k >= 0 then Some(rewards[k]) else None
  }

  /** The rewards go round in a cycle as long as the list. */
  lemma RewardCycles(rewards: seq<DailyReward>, day: int)
    requires day >= 1
    ensures RewardFor(rewards, day + |rewards|) == RewardFor(rewards, day)
  {
    if |rewards| > 0 {
      ModShift(day - 1, |rewards|);
      assert day + |rewards| - 1 == (day - 1) + |rewards|;
    }
  }

  lemma ModShift(a: nat, n: nat)
    requires n > 0
    ensures (a + n) % n == a % n
  {
    var q, r := a / n, a % n;
    var q', r' := (a + n) / n, (a + n) % n;
    var k := q' - q - 1;
    assert k * n == r - r' by {
      assert q * n + r == a && q' * n + r' == a + n;
      assert k * n == q' * n - q * n - n;
    }
  }

  /**
   * `checkDailyReward` for a profile's daily state: a first claim is day 1
   * with the first reward; a claim already made today is not claimable;
   * after yesterday's claim the streak goes on, after an older one it
   * restarts at day 1.
   */
  function CheckRetention(d: DailyRewardState, today: Day, rewards: seq<DailyReward>): (c: RetentionCheck)
    ensures d.lastClaimDate.None? ==>
      c.canClaim && c.day == 1 && c.reward == (if |rewards| > 0 then Some(rewards[0]) else None)
    ensures d.lastClaimDate == Some(today) ==> !c.canClaim && c.reward.None? && c.day == d.streak + 1
    ensures d.lastClaimDate == Some(today - 1) ==> c.canClaim && c.day == d.streak + 1
    ensures d.lastClaimDate.Some? && d.lastClaimDate.value !in {today, today - 1} ==> c.canClaim && c.day == 1
    ensures d.lastClaimDate.Some? && c.canClaim ==> c.reward == RewardFor(rewards, c.day)
  {
    if d.lastClaimDate.None? then RetentionCheck(true, if |rewards| > 0 then Some(rewards[0]) else None, 1)
    else if d.lastClaimDate.value == today then RetentionCheck(false, None, d.streak + 1)
    else
      var day := if d.lastClaimDate.value == today - 1 then d.streak + 1 else 1;
      RetentionCheck(true, RewardFor(rewards, day), day)
  }

  /** After a claim today nothing more can be claimed today, and tomorrow is the next day of the cycle. */
  lemma ClaimThenCheck(d: DailyRewardState, today: Day, rewards: seq<DailyReward>)
    requires d.lastClaimDate != Some(today)
    ensures !CheckRetention(Claimed(d, today), today, rewards).canClaim
    ensures CheckRetention(Claimed(d, today), today + 1, rewards).day == Claimed(d, today).streak + 1
  {
  }

  /** What a claim changes: the profile and the unlockable content. */
  datatype Granted = Granted(profile: Profile, unlockables: OrderedMap<UnlockableContent>)

  /** `unlockContent`'s record: unlocked now, with the achievement of the same id as its condition. */
  function UnlockedContent(kind: string, contentId: string, now: int): UnlockableContent
  {
    UnlockableContent(contentId, kind, AchievementUnlock(contentId), false, Some(now))
  }

  /** `processReward`: coins are added, a skin is unlocked as content, Stars and boosts grant nothing here. */
  function Grant(g: Granted, r: Reward, now: int): (h: Granted)
    ensures r.CoinsReward? ==> h == g.(profile := WithCoins(g.profile, r.amount))
    ensures r.SkinReward? ==> h == g.(unlockables := Put(g.unlockables, r.skinId, UnlockedContent("skin", r.skinId, now)))
    ensures r.StarsReward? || r.BoostReward? ==> h == g
  {
    match r
    case CoinsReward(n) => g.(profile := WithCoins(g.profile, n))
    case SkinReward(s) => g.(unlockables := Put(g.unlockables, s, UnlockedContent("skin", s, now)))
    case _ => g
  }

  function GrantAll(g: Granted, rs: seq<Reward>, now: int): Granted
  {
    if rs == [] then g else Grant(GrantAll(g, rs[..|rs| - 1], now), rs[|rs| - 1], now)
  }

  /** The rewards raise the coins by exactly the coins among them, and touch nothing else on the profile but its statistics. */
  lemma {:induction false} GrantAllCoins(g: Granted, rs: seq<Reward>, now: int)
    ensures GrantAll(g, rs, now).profile.coins == g.profile.coins + CoinsIn(rs)
    ensures GrantAll(g, rs, now).profile
            == g.profile.(coins := GrantAll(g, rs, now).profile.coins, stats := GrantAll(g, rs, now).profile.stats)
    ensures MapValid(g.unlockables) ==> MapValid(GrantAll(g, rs, now).unlockables)
  {
    if rs != [] {
      GrantAllCoins(g, rs[..|rs| - 1], now);
    }
  }

  /** `isAchievementUnlocked`: the first record with the id says whether it is unlocked; no record means no. */
  function FoundUnlocked(records: seq<AchievementProgress>, id: string): (r: bool)
    ensures r ==> exists i :: 0 <= i < |records| && records[i].id == id && records[i].unlocked
    ensures r <==> exists i :: && 0 <= i < |records| && records[i].id == id && records[i].unlocked
                               && forall j :: 0 <= j < i ==> records[j].id != id
  {
    if records == [] then false
    else if records[0].id == id then records[0].unlocked
    else
      var rest := records[1..];
      var r := FoundUnlocked(rest, id);
      assert r ==> exists i :: && 0 <= i < |records| && records[i].id == id && records[i].unlocked
                               && forall j :: 0 <= j < i ==> records[j].id != id by {
        if r {
          var i :| && 0 <= i < |rest| && rest[i].id == id && rest[i].unlocked
                   && forall j :: 0 <= j < i ==> rest[j].id != id;
          assert records[i + 1] == rest[i];
          assert forall j :: 1 <= j < i + 1 ==> records[j] == rest[j - 1];
        }
      }
      assert (exists i :: && 0 <= i < |records| && records[i].id == id && records[i].unlocked
                          && forall j :: 0 <= j < i ==> records[j].id != id) ==> r by {
        if exists i :: && 0 <= i < |records| && records[i].id == id && records[i].unlocked
                       && forall j :: 0 <= j < i ==> records[j].id != id {
          var i :| && 0 <= i < |records| && records[i].id == id && records[i].unlocked
                   && forall j :: 0 <= j < i ==> records[j].id != id;
          assert i > 0;
          assert rest[i - 1] == records[i];
          assert forall j :: 0 <= j < i - 1 ==> rest[j] == records[j + 1];
        }
      }
      r
  }

  /** Whether a condition is met: level or score reached, or a configured achievement unlocked; purchases never. */
  function ShouldUnlock(c: UnlockCondition, standing: PlayerStanding, configs: map<string, AchievementConfig>,
                        records: seq<AchievementProgress>): bool
  {
    match c
    case LevelAtLeast(n) => standing.level.Some? && standing.level.value >= n
    case ScoreAtLeast(n) => standing.score.Some? && standing.score.value >= n
    case AchievementUnlock(id) => id in configs && FoundUnlocked(records, configs[id].id)
    case PurchaseUnlock(_) => false
  }

  /** One entry visited by `checkUnlockables`: a locked entry whose condition is met is unlocked now. */
  function Reviewed(u: UnlockableContent, standing: PlayerStanding, configs: map<string, AchievementConfig>,
                    records: seq<AchievementProgress>, now: int): (r: UnlockableContent)
    ensures !u.locked ==> r == u
    ensures u.locked && ShouldUnlock(u.unlockCondition, standing, configs, records) ==>
      r == u.(locked := false, unlockedAt := Some(now))
    ensures u.locked && !ShouldUnlock(u.unlockCondition, standing, configs, records) ==> r == u
  {
    if u.locked && ShouldUnlock(u.unlockCondition, standing, configs, records) then
      u.(locked := false, unlockedAt := Some(now))
    else u
  }

  /** Reviewing again with the same standing changes nothing: content is unlocked once, at the first review that meets it. */
  lemma ReviewedOnce(u: UnlockableContent, standing: PlayerStanding, configs: map<string, AchievementConfig>,
                     records: seq<AchievementProgress>, now: int, later: int)
    ensures Reviewed(Reviewed(u, standing, configs, records, now), standing, configs, records, later)
            == Reviewed(u, standing, configs, records, now)
  {
  }

  /** Milliseconds in a day. */
  const MillisPerDay := 86400000

  predicate LeapYear(y: int)
  {
    y % 4 == 0 && (y % 100 != 0 || y % 400 == 0)
  }

  /** The length of month `m` of year `y`, counting months from 0 for January as `Date` does. */
  function MonthLength(y: int, m: int): (n: int)
    requires 0 <= m < 12
    ensures 28 <= n <= 31
    ensures n == 29 <==> m == 1 && LeapYear(y)
  {
    if m == 1 then (if LeapYear(y) then 29 else 28)
    else if m == 3 || m == 5 || m == 8 || m == 10 then 30
    else 31
  }

  /** Days from January 1 of year `y` to the first of month `m` (0 for January, 12 for the next January). */
  function DaysBeforeMonth(y: int, m: int): int
    requires 0 <= m <= 12
  {
    [0, 31, 59, 90, 120, 151, 181, 212, 243, 273, 304, 334, 365][m] + (if m >= 2 && LeapYear(y) then 1 else 0)
  }

  /** Each month starts where the one before it ends. */
  lemma MonthsAdjoin(y: int, m: int)
    requires 0 <= m < 12
    ensures DaysBeforeMonth(y, m + 1) == DaysBeforeMonth(y, m) + MonthLength(y, m)
  {
  }

  /** Days from a fixed origin to January 1 of year `y` in the Gregorian calendar. */
  function DaysBeforeYear(y: int): int
  {
    365 * y + (y + 3) / 4 - (y + 99) / 100 + (y + 399) / 400
  }

  /** A year is as long as its twelve months, so the day numbers of one year run on into the next. */
  lemma YearLength(y: int)
    ensures DaysBeforeYear(y + 1) == DaysBeforeYear(y) + DaysBeforeMonth(y, 12)
  {
    assert (y + 4) / 4 == (y + 3) / 4 + (if y % 4 == 0 then 1 else 0);
    assert (y + 100) / 100 == (y + 99) / 100 + (if y % 100 == 0 then 1 else 0);
    assert (y + 400) / 400 == (y + 399) / 400 + (if y % 400 == 0 then 1 else 0);
  }

  /**
   * The day of `new Date(y, month - 1, day)`: as `Date` does, a month
   * outside 1..12 moves into a neighbouring year and a day outside its
   * month's length into a neighbouring month.
   */
  function DayNumber(y: int, month: int, day: int): int
  {
    var year := y + (month - 1) / 12;
    DaysBeforeYear(year) + DaysBeforeMonth(year, (month - 1) % 12) + day - 1
  }

  /** A day that exists in the calendar of year `y`. */
  predicate CalendarDay(y: int, month: int, day: int)
  {
    1 <= month <= 12 && 1 <= day <= MonthLength(y, month - 1)
  }

  /**
   * `now >= startDate && now <= endDate`, both dates at midnight of this
   * year, built by `Date` from the window's month and day numbers.
   */
  predicate Active(e: EventWindow, m: Moment)
  {
    var now := DayNumber(m.year, m.month, m.day) * 86400000 + m.millis;
    && DayNumber(m.year, e.startMonth, e.startDay) * 86400000 <= now
    && now <= DayNumber(m.year, e.endMonth, e.endDay) * 86400000
  }

  /** The window compared as written: (month, day) pairs, the end day's midnight included. */
  predicate ActiveAsWritten(e: EventWindow, m: Moment)
  {
    && (m.month > e.startMonth || (m.month == e.startMonth && m.day >= e.startDay))
    && (m.month < e.endMonth || (m.month == e.endMonth && (m.day < e.endDay || (m.day == e.endDay && m.millis == 0))))
  }

  /** Within one year, calendar days are numbered in (month, day) order. */
  lemma {:induction false} DayNumberOrdered(y: int, m1: int, d1: int, m2: int, d2: int)
    requires CalendarDay(y, m1, d1) && CalendarDay(y, m2, d2)
    ensures DayNumber(y, m1, d1) < DayNumber(y, m2, d2) <==> m1 < m2 || (m1 == m2 && d1 < d2)
    ensures DayNumber(y, m1, d1) == DayNumber(y, m2, d2) <==> m1 == m2 && d1 == d2
  {
    DayNumberInYear(y, m1, d1);
    DayNumberInYear(y, m2, d2);
    if m1 < m2 {
      MonthsAdjoin(y, m1 - 1);
      MonthsBefore(y, m1, m2 - 1);
    } else if m2 < m1 {
      MonthsAdjoin(y, m2 - 1);
      MonthsBefore(y, m2, m1 - 1);
    }
  }

  /** A month in 1..12 stays in its year. */
  lemma DayNumberInYear(y: int, month: int, day: int)
    requires 1 <= month <= 12
    ensures DayNumber(y, month, day) == DaysBeforeYear(y) + DaysBeforeMonth(y, month - 1) + day - 1
  {
    assert (month - 1) / 12 == 0 && (month - 1) % 12 == month - 1;
  }

  /** Months start later the later they are. */
  lemma {:induction false} MonthsBefore(y: int, a: int, b: int)
    requires 0 <= a <= b <= 12
    ensures DaysBeforeMonth(y, a) <= DaysBeforeMonth(y, b)
    decreases b - a
  {
    if a < b {
      MonthsAdjoin(y, a);
      MonthsBefore(y, a + 1, b);
    }
  }

  /**
   * On days that exist in the calendar, with the moment inside its day,
   * the window is active exactly when the (month, day) pairs say so.
   */
  lemma ActiveOnCalendarDays(e: EventWindow, m: Moment)
    requires CalendarDay(m.year, m.month, m.day) && 0 <= m.millis < MillisPerDay
    requires CalendarDay(m.year, e.startMonth, e.startDay) && CalendarDay(m.year, e.endMonth, e.endDay)
    ensures Active(e, m) <==> ActiveAsWritten(e, m)
  {
    DayNumberOrdered(m.year, e.startMonth, e.startDay, m.month, m.day);
    DayNumberOrdered(m.year, m.month, m.day, e.endMonth, e.endDay);
  }

  /**
   * An end of "02-30" in a year that is not a leap year is 2 March: the
   * window takes in 1 March and midnight of 2 March, which the (month,
   * day) pairs alone would leave out.
   */
  lemma EndRollsIntoMarch()
    ensures var e := EventWindow("spring", "Spring", 2, 20, 2, 30);
      && Active(e, Moment(2023, 3, 1, 43200000)) && !ActiveAsWritten(e, Moment(2023, 3, 1, 43200000))
      && Active(e, Moment(2023, 3, 2, 0)) && !Active(e, Moment(2023, 3, 2, 1))
  {
    var base := DaysBeforeYear(2023);
    assert !LeapYear(2023);
    assert DayNumber(2023, 2, 20) == base + 50;
    assert DayNumber(2023, 2, 30) == base + 60;
    assert DayNumber(2023, 3, 1) == base + 59;
    assert DayNumber(2023, 3, 2) == base + 60;
  }

  /** The first window active at the moment, in the rotation's order. */
  function FirstActive(events: seq<EventWindow>, m: Moment): (r: Option<EventWindow>)
    ensures r.None? <==> forall i :: 0 <= i < |events| ==> !Active(events[i], m)
    ensures r.Some? ==> Active(r.value, m) && r.value in events
  {
    if events == [] then None
    else if Active(events[0], m) then Some(events[0])
    else
      var r := FirstActive(events[1..], m);
      assert (forall i :: 0 <= i < |events[1..]| ==> !Active(events[1..][i], m))
             ==> forall i :: 0 <= i < |events| ==> !Active(events[i], m) by {
        if forall i :: 0 <= i < |events[1..]| ==> !Active(events[1..][i], m) {
          forall i | 0 <= i < |events|
            ensures !Active(events[i], m)
          {
            if i > 0 {
              assert events[i] == events[1..][i - 1];
            }
          }
        }
      }
      r
  }

  /**
   * A window of calendar days ending before it starts in the calendar (one
   * spanning New Year) is never active.
   */
  lemma WrappedWindowNeverActive(e: EventWindow, m: Moment)
    requires e.endMonth < e.startMonth
    requires CalendarDay(m.year, e.startMonth, e.startDay) && CalendarDay(m.year, e.endMonth, e.endDay)
    ensures !Active(e, m)
  {
    DayNumberOrdered(m.year, e.endMonth, e.endDay, e.startMonth, e.startDay);
  }

  function SeasonalEventOf(e: EventWindow): SeasonalEvent
  {
    SeasonalEvent(e.id, e.name, "Special " + e.name + " event", e)
  }

  class RetentionEngine {
    var dailyRewards: seq<DailyReward>
    var currentEvent: Option<SeasonalEvent>
    var unlockables: OrderedMap<UnlockableContent>
    const profileService: PlayerProfileService
    const achievementSystem: AchievementSystem

    ghost predicate Valid()
      reads this
    {
      MapValid(unlockables)
    }

    constructor (profileService: PlayerProfileService, achievementSystem: AchievementSystem)
      ensures this.profileService == profileService && this.achievementSystem == achievementSystem
      ensures dailyRewards == [] && currentEvent.None? && unlockables == EmptyMap() && Valid()
    {
      this.profileService := profileService;
      this.achievementSystem := achievementSystem;
      dailyRewards := [];
      currentEvent := None;
      unlockables := EmptyMap();
    }

    /**
     * `loadConfigs`: the daily rewards (none when missing), then the first
     * active seasonal event; a failed fetch changes nothing, and a missing
     * rotation leaves the event as it was.
     */
    method LoadConfigs(fetched: Option<RetentionConfig>, at: Moment)
      modifies this`dailyRewards, this`currentEvent
      ensures fetched.None? ==> dailyRewards == old(dailyRewards) && currentEvent == old(currentEvent)
      ensures fetched.Some? ==> dailyRewards == Given(fetched.value.dailyRewards, [])
      ensures fetched.Some? && fetched.value.eventRotation.None? ==> currentEvent == old(currentEvent)
      ensures fetched.Some? && fetched.value.eventRotation.Some? ==>
        currentEvent == ActiveEvent(old(currentEvent), fetched.value.eventRotation.value, at)
    {
      if fetched.None? {
        return;
      }
      dailyRewards := Given(fetched.value.dailyRewards, []);
      if fetched.value.eventRotation.Some? {
        CheckCurrentEvent(fetched.value.eventRotation.value, at);
      }
    }

    /** `checkCurrentEvent`: the first active window becomes the current event; with none active the event is kept. */
    method CheckCurrentEvent(events: seq<EventWindow>, at: Moment)
      modifies this`currentEvent
      ensures currentEvent == ActiveEvent(old(currentEvent), events, at)
    {
      var i := 0;
      while i < |events|
        invariant 0 <= i <= |events|
        invariant FirstActive(events, at) == FirstActive(events[i..], at)
        invariant currentEvent == old(currentEvent)
      {
        if Active(events[i], at) {
          currentEvent := Some(SeasonalEventOf(events[i]));
          break;
        }
        assert events[i..][1..] == events[i + 1..];
        i := i + 1;
      }
    }

    /** `checkDailyReward`: the check for the profile's daily state, the profile being created when missing. */
    method CheckDailyReward(today: Day) returns (c: RetentionCheck)
      modifies profileService`profile
      ensures profileService.profile == Some(Given(old(profileService.profile), profileService.defaultProfile))
      ensures c == CheckRetention(profileService.profile.value.dailyRewards, today, dailyRewards)
    {
      var profile := profileService.GetProfile();
      c := CheckRetention(profile.dailyRewards, today, dailyRewards);
    }

    /**
     * `claimDailyReward`: nothing when the reward is not claimable or
     * missing; otherwise the streak moves on, today is recorded, the day's
     * rewards are granted in order, and the streak bonus paid when the day
     * has one.
     */
    method ClaimDailyReward(today: Day, now: int) returns (r: Option<DailyReward>)
      requires Valid()
      modifies profileService`profile, this`unlockables
      ensures Valid()
      ensures var p := Given(old(profileService.profile), profileService.defaultProfile);
        var c := CheckRetention(p.dailyRewards, today, dailyRewards);
        && (!c.canClaim || c.reward.None? ==>
              r.None? && profileService.profile == Some(p) && unlockables == old(unlockables))
        && (c.canClaim && c.reward.Some? ==>
              var g := GrantAll(Granted(p.(dailyRewards := Claimed(p.dailyRewards, today)), old(unlockables)),
                                c.reward.value.rewards, now);
              && r == c.reward
              && unlockables == g.unlockables
              && profileService.profile
                 == Some(if c.reward.value.streakBonus then WithCoins(g.profile, StreakBonusCoins) else g.profile))
    {
      var check := CheckDailyReward(today);
      if !check.canClaim || check.reward.None? {
        return None;
      }
      var profile := profileService.GetProfile();
      profileService.profile := Some(profile.(dailyRewards := Claimed(profile.dailyRewards, today)));
      ProcessRewards(check.reward.value.rewards, now);
      if check.reward.value.streakBonus {
        profileService.AddCoins(StreakBonusCoins);
      }
      return check.reward;
    }

    /** `rewards.forEach(processReward)`. */
    method ProcessRewards(rewards: seq<Reward>, now: int)
      requires Valid() && profileService.profile.Some?
      modifies profileService`profile, this`unlockables
      ensures Valid() && profileService.profile.Some?
      ensures Granted(profileService.profile.value, unlockables)
              == GrantAll(Granted(old(profileService.profile).value, old(unlockables)), rewards, now)
    {
      var i := 0;
      while i < |rewards|
        invariant 0 <= i <= |rewards|
        invariant Valid() && profileService.profile.Some?
        invariant Granted(profileService.profile.value, unlockables)
                  == GrantAll(Granted(old(profileService.profile).value, old(unlockables)), rewards[..i], now)
      {
        assert rewards[..i + 1][..i] == rewards[..i];
        ProcessReward(rewards[i], now);
        i := i + 1;
      }
      assert rewards[..i] == rewards;
    }

    /** `processReward`. */
    method ProcessReward(reward: Reward, now: int)
      requires Valid() && profileService.profile.Some?
      modifies profileService`profile, this`unlockables
      ensures Valid() && profileService.profile.Some?
      ensures Granted(profileService.profile.value, unlockables)
              == Grant(Granted(old(profileService.profile).value, old(unlockables)), reward, now)
    {
      match reward {
        case CoinsReward(n) =>
          profileService.AddCoins(n);
        case SkinReward(s) =>
          UnlockContent("skin", s, now);
        case _ =>
      }
    }

    /** `unlockContent`: the content recorded as unlocked now, replacing any record under its id. */
    method UnlockContent(kind: string, contentId: string, now: int)
      requires Valid()
      modifies this`unlockables
      ensures Valid()
      ensures unlockables == Put(old(unlockables), contentId, UnlockedContent(kind, contentId, now))
      ensures contentId in unlockables.entries && !unlockables.entries[contentId].locked
    {
      unlockables := Put(unlockables, contentId, UnlockedContent(kind, contentId, now));
    }

    /**
     * `checkUnlockables`: every entry reviewed in place against the level,
     * the score and the achievements unlocked; the keys and their order do
     * not change, and entries already unlocked are left alone.
     */
    method CheckUnlockables(standing: PlayerStanding, now: int)
      requires Valid() && achievementSystem.Valid()
      modifies this`unlockables
      ensures Valid()
      ensures unlockables.keys == old(unlockables.keys)
      ensures forall k :: k in unlockables.entries <==> k in old(unlockables.entries)
      ensures forall k :: k in old(unlockables.entries) ==>
        unlockables.entries[k] == Reviewed(old(unlockables.entries[k]), standing,
                                           achievementSystem.achievements.entries, achievementSystem.GetProgress(), now)
    {
      var configs := achievementSystem.achievements.entries;
      var records := achievementSystem.GetProgress();
      var keys := unlockables.keys;
      var i := 0;
      while i < |keys|
        invariant 0 <= i <= |keys|
        invariant unlockables.keys == keys && Valid()
        invariant forall j :: 0 <= j < i ==>
          unlockables.entries[keys[j]] == Reviewed(old(unlockables.entries[keys[j]]), standing, configs, records, now)
        invariant forall j :: i <= j < |keys| ==> unlockables.entries[keys[j]] == old(unlockables.entries[keys[j]])
      {
        NoDuplicatesAt(keys, i);
        var id := keys[i];
        unlockables := Put(unlockables, id, Reviewed(unlockables.entries[id], standing, configs, records, now));
        i := i + 1;
      }
      forall k | k in old(unlockables.entries)
        ensures unlockables.entries[k] == Reviewed(old(unlockables.entries[k]), standing, configs, records, now)
      {
        var j := IndexOf(keys, k);
      }
    }

    function GetCurrentEvent(): Option<SeasonalEvent>
      reads this
    {
      currentEvent
    }
  }

  /** The event after `checkCurrentEvent`. */
  function ActiveEvent(current: Option<SeasonalEvent>, events: seq<EventWindow>, at: Moment): (r: Option<SeasonalEvent>)
    ensures FirstActive(events, at).None? ==> r == current
    ensures FirstActive(events, at).Some? ==> r == Some(SeasonalEventOf(FirstActive(events, at).value))
  {
    if FirstActive(events, at).Some? then Some(SeasonalEventOf(FirstActive(events, at).value)) else current
  }
}
