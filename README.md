# Tower defense core: combat and economy

This project models, in Dafny, the logic of a Telegram tower-defense game
built on Phaser. It covers two parts of the game.

**Combat simulation.** Enemies walk a waypoint path and take damage. Towers
pick targets with one of four strategies, fire on a cooldown, are upgraded
and sold. Projectiles hit at once or in flight, with splash damage and slow
and poison effects. Those effects are stacked, replaced, ticked and expire.
Also modelled:

- the generic object pool;
- the wave manager, which schedules spawns and reports each wave completed once;
- the game-phase machine;
- the map loader and its buildable-tile lookup;
- the prototype scene that spends coins and counts lives.

**Economy and progression.** The player profile holds coins, unlocks, tower
levels, settings and a daily-reward streak. Around it sit:

- achievements, with counters, conditions and unlock-once rewards;
- the shop and the battle pass, which levels up while the XP allows;
- the retention engine, with cycling daily rewards, unlockable content and seasonal events;
- friends, the friend leaderboard and clans;
- help requests, friend helps and referrals;
- the analytics dashboard, with counts, play time, favourite tower, popular products and ratios.

There is one module per source file:

| module | file |
|---|---|
| Enemies | enemy.dfy |
| Effects | effects.dfy |
| Projectiles | projectiles.dfy |
| Pooling | objectpool.dfy |
| Towers | tower.dfy |
| TowerSystems | towersystem.dfy |
| EnemyManagers | enemymanager.dfy |
| Waves | wavemanager.dfy |
| GameStates | gamestate.dfy |
| Maps | mapmanager.dfy |
| Scenes | gamescene.dfy |
| Profiles | profile.dfy |
| Achievements | achievements.dfy |
| Monetization | monetization.dfy |
| Retention | retention.dfy |
| Social | social.dfy |
| Viral | viral.dfy |
| Analytics | analytics.dfy |

Two modules are shared. `Common` holds options, points, squared distances,
insertion-ordered maps (a JavaScript `Map`) and the JavaScript number and
string helpers. `Sorting` holds the stable descending sort that `Array.prototype.sort` performs.

Conventions:

- Objects the game mutates in place are classes whose methods state their whole new state. Pure specification functions and lemmas sit beside them, and the methods are proved against those functions.
- Health, damage, speed, time and positions are exact `real` numbers. Coins and counters are `int`.
- Distances are compared as squared distances (`Common.SqMonotone`). The one place that needs a true distance, the splash fall-off, takes a distance function as a parameter.
- Phaser timers and tweens become methods the environment calls (a spawn firing, a segment completed, a death tween ending). Scheduled spawns are data.
- Emitted events are appended to an event trace, so "emitted exactly once" is a statement about the trace.
- `Date.now()`, `new Date()` and the day of a claim are parameters. Calendar days are whole day numbers, so yesterday is `today - 1`.
- Fetched JSON and `localStorage` contents are parameters that arrive already parsed. A failed fetch is `None`.
- Telegram calls, saves, console output and visuals are not modelled.

## Model

| member | source | states |
|---|---|---|
| Achievements.Tracked | src/services/AchievementSystem.ts:223-245 | each known game event bumps exactly its own counter (coins add the amount, 0 when missing; a finished map also records whether lives were lost); any other event changes nothing |
| Achievements.TrackedGrows | src/services/AchievementSystem.ts:223-245 | with non-negative coin amounts, tracking an event never lowers any counter |
| Achievements.ConditionMet | src/services/AchievementSystem.ts:109-135 | a condition holds when its counter has reached the value; the no-lives-lost map condition also needs no life lost; the kinds without a counter never hold |
| Achievements.ConditionMetMonotone | src/services/AchievementSystem.ts:109-135 | a condition that holds keeps holding while the counters only grow |
| Achievements.ProgressValue | src/services/AchievementSystem.ts:140-165 | the progress shown is the counter capped at the condition's value, and 0 (or the value, when that is negative) for kinds without a progress counter |
| Achievements.ProgressFullIffMet | src/services/AchievementSystem.ts:109-165 | for the progressive kinds the progress is full exactly when the condition is met |
| Achievements.FindIndex | src/services/AchievementSystem.ts:195 | `findIndex` by id gives -1 exactly when no record has the id, and otherwise the index of the first record that has it |
| Achievements.Upsert | src/services/AchievementSystem.ts:195-201 | the profile's achievement list gains the new record: when some entry has its id, the first such entry is replaced in place and nothing else moves; when none has, the record is appended |
| Achievements.UnlockStep | src/services/AchievementSystem.ts:185-210 | unlocking records the achievement as unlocked now with progress at the condition's value and keeps every other record; the profile (the default profile when none is loaded) gets that record upserted into its list, its coins and lifetime coins raised by the reward and nothing else changed; one unlocked event is emitted |
| Achievements.ProgressStep | src/services/AchievementSystem.ts:140-173 | a progress update sets only this achievement's progress (creating a locked record when missing), never changes whether it is unlocked, touches no other record and pays nothing |
| Achievements.CheckedKeepsUnlocked | src/services/AchievementSystem.ts:87-104 | checking achievements never relocks an unlocked one |
| Achievements.CheckedUnlocksMet | src/services/AchievementSystem.ts:87-104 | after a check every achievement whose condition holds is unlocked |
| Achievements.CheckedPaysNothing | src/services/AchievementSystem.ts:87-104 | a check in which every met achievement is already unlocked leaves the profile (and so the coins) untouched |
| Achievements.CheckTwicePaysOnce | src/services/AchievementSystem.ts:87-104 | checking twice with the same counters pays each reward at most once: the second check leaves the profile unchanged |
| Achievements.AchievementSystem.constructor | src/services/AchievementSystem.ts:39-47 | the system starts with no achievements, no progress, zeroed counters and no events |
| Achievements.AchievementSystem.LoadAchievements | src/services/AchievementSystem.ts:52-72 | a successful load registers every configuration in file order and then loads the profile's progress; a failed load changes nothing |
| Achievements.AchievementSystem.LoadProgress | src/services/AchievementSystem.ts:77-82 | every achievement record of the profile (installing the default profile when none is loaded) is stored under its own id |
| Achievements.AchievementSystem.CheckAchievements | src/services/AchievementSystem.ts:87-104 | the score is copied into the counters and then each achievement in insertion order is skipped if unlocked, unlocked if met and otherwise progressed, as the check function describes |
| Achievements.AchievementSystem.CheckOne | src/services/AchievementSystem.ts:92-102 | one achievement of the pass: an unlocked one is skipped, a met one unlocked, any other progressed, exactly as one step of the check function |
| Achievements.AchievementSystem.CheckCondition | src/services/AchievementSystem.ts:109-135 | the condition is judged on the current counters |
| Achievements.AchievementSystem.UpdateProgress | src/services/AchievementSystem.ts:140-173 | the progress update is the specified progress step on the current state |
| Achievements.AchievementSystem.UnlockAchievement | src/services/AchievementSystem.ts:178-218 | an unknown or already unlocked achievement changes nothing; otherwise it is unlocked and paid for exactly as the unlock step says |
| Achievements.AchievementSystem.TrackEvent | src/services/AchievementSystem.ts:223-245 | the counters are updated as the tracking function says |
| Achievements.AchievementSystem.ResetGameStats | src/services/AchievementSystem.ts:250-261 | every counter returns to zero and lives lost to false |
| Achievements.AchievementSystem.GetProgress | src/services/AchievementSystem.ts:266-268 | the progress records are returned in insertion order, each under its own id |
| Analytics.OfKind | src/services/AnalyticsDashboard.ts:200-202 | filtering by type keeps only events of that type, all drawn from the log |
| Analytics.Count | src/services/AnalyticsDashboard.ts:200-202 | an event count never exceeds the log's length |
| Analytics.CountAfterTrack | src/services/AnalyticsDashboard.ts:200-202 | tracking one event raises the count of its own type by one and leaves every other count alone |
| Analytics.Recent | src/services/AnalyticsDashboard.ts:259-263 | the saved log is the last 1000 events (all of them when fewer), a suffix of the log |
| Analytics.RecentSlides | src/services/AnalyticsDashboard.ts:259-263 | saving after each event keeps a sliding window: cutting before appending gives the same saved log |
| Analytics.SessionMarks | src/services/AnalyticsDashboard.ts:134-136 | only session starts and ends take part in the play-time count |
| Analytics.ClosedSessionCounts | src/services/AnalyticsDashboard.ts:141-148 | a start (at a non-zero time) followed by an end adds the session's length in seconds and closes it |
| Analytics.UnmatchedEndIgnored | src/services/AnalyticsDashboard.ts:144 | an end with no open session (or one opened at time 0, which is falsy) adds nothing |
| Analytics.RestartOverwrites | src/services/AnalyticsDashboard.ts:142-143 | a second start before an end replaces the first, whose time is lost |
| Analytics.Occurrences | src/services/AnalyticsDashboard.ts:160-163 | a type occurs a bounded number of times, and 0 times exactly when it is absent |
| Analytics.TallyCounts | src/services/AnalyticsDashboard.ts:160-163 | the counting pass holds exactly the types seen, each with the number of times it occurs |
| Analytics.TallyKeysInOrder | src/services/AnalyticsDashboard.ts:160-163 | the counts are listed in the order the types were first seen |
| Analytics.LeadIsFirstMax | src/services/AnalyticsDashboard.ts:165-173 | the lead scan ends on the highest count, and unless nothing beat the default "cannon" at 0, on the first type reaching it |
| Analytics.LeaderOfCounts | src/services/AnalyticsDashboard.ts:156-176 | over a non-empty list of types the leader is a type built, built at least as often as any other, and the first seen among those built as often |
| Analytics.FavoriteIsMostBuilt | src/services/AnalyticsDashboard.ts:156-176 | the favourite tower is "cannon" when none was built; otherwise it is a built type built at least as often as every other, and the first built among the types built as often |
| Analytics.WaveNumbers | src/services/AnalyticsDashboard.ts:182-185 | one wave number per completed-wave event |
| Analytics.AverageWave | src/services/AnalyticsDashboard.ts:181-187 | the average wave is 0 when no wave was completed |
| Analytics.AverageWaveBounded | src/services/AnalyticsDashboard.ts:181-187 | when every completed wave number lies between two bounds, so does the average |
| Analytics.StarsSpent | src/services/AnalyticsDashboard.ts:192-195 | one amount of Stars per purchase event (0 when missing) |
| Analytics.Sessions | src/services/AnalyticsDashboard.ts:207-210 | the sessions are exactly the session ids in the log, each listed once |
| Analytics.Users | src/services/AnalyticsDashboard.ts:215-218 | the users are exactly the user ids in the log, each listed once |
| Analytics.Ratio | src/services/AnalyticsDashboard.ts:104-107 | a ratio is 0 for a non-positive denominator and otherwise the exact quotient |
| Analytics.RatioAtMostOne | src/services/AnalyticsDashboard.ts:104-107 | the share of a part in a whole lies between 0 and 1 |
| Analytics.RatioPercent | src/services/AnalyticsDashboard.ts:121-122 | a part of a whole, as a percentage, lies between 0 and 100 |
| Analytics.ViralMetricsOf | src/services/AnalyticsDashboard.ts:97-109 | the k-factor and the average shares are the counts of `friend_invited` and `share_result` events over the number of events, the virality rate and referral conversion are the invited and `referral_used` shares times 100; all are 0 for an empty log, the first two lie in [0, 1] and the rates in [0, 100] |
| Analytics.PayingUsers | src/services/AnalyticsDashboard.ts:115-118 | the users who made a purchase, each once, each the author of some purchase event |
| Analytics.PayingAmongUsers | src/services/AnalyticsDashboard.ts:115-118 | every paying user is among the distinct users, so there are no more paying users than users |
| Analytics.TopIds | src/services/AnalyticsDashboard.ts:252-253 | at most five ids, taken in order from the front of the ranking |
| Analytics.PopularFacts | src/services/AnalyticsDashboard.ts:239-254 | at most five products are named, each one bought, in order of purchase count from the highest; no product left out was bought more often than any named, and fewer than five are named only when every product bought is |
| Analytics.MonetizationMetricsOf | src/services/AnalyticsDashboard.ts:114-128 | revenue per user is the Stars spent over the distinct users, the conversion rate is the paying users over all users times 100 and lies in [0, 100]; both are 0 without users; the average purchase is the Stars spent over the number of purchases (0 without purchases); the popular products are those of the ranking |
| Analytics.ByUser | src/services/AnalyticsDashboard.ts:224-226 | the user's events are drawn from the log and are all the user's; a user with no events gets none |
| Analytics.RetentionDays | src/services/AnalyticsDashboard.ts:223-234 | 0 for a user with no events; otherwise the whole number of days between the user's first and last events, rounded down |
| Analytics.AnalyticsDashboard.constructor | src/services/AnalyticsDashboard.ts:12-26 | the session is named after the moment it opened, and the stored log (empty when none) is loaded |
| Analytics.AnalyticsDashboard.TrackEvent | src/services/AnalyticsDashboard.ts:31-47 | the event is appended with the player's id, the time and this session, and the saved log becomes its last 1000 events |
| Analytics.AnalyticsDashboard.TotalPlayTime | src/services/AnalyticsDashboard.ts:133-151 | the loop's total is the play time the session-mark walk specifies |
| Analytics.AnalyticsDashboard.FavoriteTower | src/services/AnalyticsDashboard.ts:156-176 | the result is the specified favourite tower |
| Analytics.AnalyticsDashboard.CountTypes | src/services/AnalyticsDashboard.ts:160-163 | the counting loop produces the tally of the types, in first-seen order |
| Analytics.AnalyticsDashboard.Leading | src/services/AnalyticsDashboard.ts:165-173 | the lead loop produces the leader the scan specifies |
| Analytics.AnalyticsDashboard.GetGameAnalytics | src/services/AnalyticsDashboard.ts:61-92 | every field of the report is the specified metric of the log: sessions, play time, favourite tower, average wave, Stars spent, the four event counts and the retention days, with the player's id and streak |
| Common.SqMonotone | src/game/systems/TowerSystem.ts:97-101 | comparing squared distances orders points exactly as comparing the distances themselves, so range and spacing checks may use squares |
| Common.JsRem | src/services/RetentionEngine.ts:117 | JavaScript's `%` truncates: a non-negative dividend leaves a remainder in [0, abs(b)), a negative one a remainder in (-abs(b), 0] |
| Common.JsSliceEnd | src/services/SocialIntegration.ts:74 | `slice(0, end)` keeps at most the whole array: `end` items when 0 <= end, and `n + end` items (at least 0) for a negative end |
| Common.Lower | src/game/managers/EnemyManager.ts:102 | lower-casing keeps the length and lower-cases every ASCII capital in place, leaving other characters alone |
| Common.LowerIdempotent | src/game/managers/EnemyManager.ts:102 | lower-casing twice is the same as once |
| Common.Distinct | src/services/AnalyticsDashboard.ts:207-210 | a `Set` of a list holds every element of the list, nothing else, and each once |
| Common.RemoveFirst | src/game/systems/TowerSystem.ts:139-143 | `indexOf` then `splice` removes exactly one occurrence of a present element and leaves a list without it unchanged |
| Common.IntStringInjective | src/game/managers/MapManager.ts:135 | distinct integers print as distinct numerals, so keys built from them do not collide |
| Common.KeyedBy | src/services/SocialIntegration.ts:32-34 | each loaded item is paired with its own id, one pair per item, in list order (also used for products, skins and achievement records) |
| Common.PutAllKeyedStep | src/services/SocialIntegration.ts:32-34 | setting the items one at a time under their ids equals setting the first i and then the i-th |
| Effects.FirstPoison | src/game/systems/EffectSystem.ts:44 | `find` for a poison: the index of the first poison in the list, or -1 when there is none |
| Effects.FirstSlow | src/game/systems/EffectSystem.ts:57 | `find` for a slow: the index of the first slow in the list, or -1 when there is none |
| Effects.WithoutSlows | src/game/systems/EffectSystem.ts:61 | the filtered list holds no slow and only effects of the original list |
| Effects.ApplyWellFormed | src/game/systems/EffectSystem.ts:37-74 | applying an effect keeps an enemy's list non-empty, with at most one slow and no zero slow factor |
| Effects.PoisonStacks | src/game/systems/EffectSystem.ts:43-52 | a poison with a positive stack count, on an enemy that already has a poison, merges into the first poison: damage per second adds up, the end time is the later one, the stack count becomes `(stacks or 1) + 1`; nothing else in the list changes, a tick event is emitted and the speed is untouched |
| Effects.PoisonAppends | src/game/systems/EffectSystem.ts:43-73 | a poison without a positive stack count, or on an enemy with no poison yet, is appended and announced as applied, with no speed change |
| Effects.SlowReplacement | src/game/systems/EffectSystem.ts:56-67 | a slow stronger than the existing one replaces every slow and multiplies the speed by its amount; a weaker or equal slow changes nothing and emits nothing |
| Effects.ExpiredSlows | src/game/systems/EffectSystem.ts:117-118 | every effect it lists is a slow of the list that has expired |
| Effects.TickAllKept | src/game/systems/EffectSystem.ts:113-146 | after a visit the list holds exactly the unexpired effects, in order, each due poison carrying the new tick time |
| Effects.TickAllHealth | src/game/systems/EffectSystem.ts:124-131 | a visit lowers health by exactly the damage per second of every due poison, once each |
| Effects.TickAllSpeed | src/game/systems/EffectSystem.ts:115-119 | a visit divides the speed by the amount of every slow that expired, in list order |
| Effects.KillKeepsEntry | src/game/systems/EffectSystem.ts:135-146 | a poison kill deletes the entry, but the kept list is non-empty, so the entry is set again after the visit |
| Effects.SurvivorsQuiet | src/game/systems/EffectSystem.ts:117-131 | at a non-zero time, no effect kept by a visit is expired or due again at the same time |
| Effects.QuietVisit | src/game/systems/EffectSystem.ts:115-143 | a visit over effects that are neither expired nor due keeps the list as it is and changes nothing else |
| Effects.SurvivingNonZero | src/game/systems/EffectSystem.ts:113-146 | the kept list has no more slows than before and no zero slow factor |
| Effects.SecondVisitQuiet | src/game/systems/EffectSystem.ts:107-151 | a second visit of the same entry at the same time (the revisit JavaScript's Map.forEach makes after a kill re-sets the entry) keeps the list, deals no damage, kills nothing and emits nothing |
| Effects.VisitWellFormed | src/game/systems/EffectSystem.ts:113-146 | a visit keeps the list well formed |
| Effects.UnslowedNoSlow | src/game/systems/EffectSystem.ts:196-203 | dividing out the slows of a list without slows leaves the speed as it is |
| Effects.UnslowedAppend | src/game/systems/EffectSystem.ts:196-203 | dividing out the slows of a concatenation divides out the first part, then the second |
| Effects.LoneSlowUndone | src/game/systems/EffectSystem.ts:196-203 | clearing a list whose only slow is the last one divides the speed by that slow's amount |
| Effects.SlowRoundTrip | src/game/systems/EffectSystem.ts:69-83 | on an enemy without a slow, applying a slow and then clearing the enemy's effects restores its original speed |
| Effects.SlowReplacementLeavesOldFactor | src/game/systems/EffectSystem.ts:56-67 | replacing a slow never undoes the old factor: speed 100, slowed by 0.5 and then by 0.25, is 50 once the remaining slow is divided out |
| Effects.EffectSystem.constructor | src/game/systems/EffectSystem.ts:16-20 | a new system has no entries and has emitted nothing |
| Effects.EffectSystem.GetEnemyEffects | src/game/systems/EffectSystem.ts:189-191 | the enemy's stored list, or the empty list when it has no entry; always well formed |
| Effects.EffectSystem.ApplyEffect | src/game/systems/EffectSystem.ts:37-99 | an inactive enemy is left alone; otherwise the entry, the events and the enemy's speed become what the pure `Apply` decides, and the system stays valid |
| Effects.EffectSystem.RemoveEffectFromEnemy | src/game/systems/EffectSystem.ts:157-172 | removing a slow divides the enemy's speed by its amount; removing a poison leaves the speed as it is |
| Effects.EffectSystem.VisitEffect | src/game/systems/EffectSystem.ts:115-143 | one effect of the inner loop moves the enemy and the event log exactly as the pure `TickStep` does; a kill deletes the entry |
| Effects.EffectSystem.VisitEnemy | src/game/systems/EffectSystem.ts:113-150 | one active enemy's visit: health, speed, death tweens and events follow the pure `Visit`; the entry is set to the kept list, or deleted when nothing is kept |
| Effects.EffectSystem.VisitEntry | src/game/systems/EffectSystem.ts:107-151 | an inactive enemy's entry is deleted without a visit; an active one is visited as `VisitEnemy` states |
| Effects.EffectSystem.UpdateEffects | src/game/systems/EffectSystem.ts:104-152 | every entry of the map is visited exactly once, in the given order of its keys, as `EntryVisit` says; every enemy ends as `AfterSnap` says, the map as `MapAfter` says, and the events are the visits' events in order |
| Effects.EffectSystem.VisitAll | src/game/systems/EffectSystem.ts:107-151 | the `updateEffects` loop over a list of distinct keys of the map: each listed entry is visited once, in the list's order, as `EntryVisit` says; the listed enemies end as `AfterSnap` says, the map as `MapAfter` says, and the events are the visits' events in order |
| Effects.EffectSystem.ClearEnemyEffects | src/game/systems/EffectSystem.ts:196-203 | the enemy's speed is divided by every slow of its list, its entry is deleted, and no event is emitted |
| Effects.EffectSystem.Destroy | src/game/systems/EffectSystem.ts:208-215 | every entry is forgotten |
| Enemies.ActiveOf | src/game/managers/EnemyManager.ts:148-150 | the result holds exactly the active enemies of the list: every member is in the list and active, every active enemy is kept |
| Enemies.ActiveOfAppend | src/game/managers/EnemyManager.ts:148-150 | filtering distributes over concatenation, so the active enemies come back in list order |
| Enemies.Enemy.constructor | src/game/objects/Enemy.ts:26-62 | a fresh enemy starts at full health (maxHealth = health) on waypoint 0; with fewer than two waypoints it reports `reachedEnd` at once, otherwise it starts moving |
| Enemies.Enemy.MoveToNextWaypoint | src/game/objects/Enemy.ts:114-148 | at or past the last waypoint the enemy stops and emits `reachedEnd`; otherwise a segment tween starts and nothing is emitted |
| Enemies.Enemy.SegmentCompleted | src/game/objects/Enemy.ts:141-145 | finishing a segment puts the enemy on the next waypoint and advances the index by one; arriving at the last waypoint emits `reachedEnd`, otherwise the next segment starts |
| Enemies.Enemy.TakeDamage | src/game/objects/Enemy.ts:160-170 | health drops by exactly the damage; the result is true iff health is now at most 0, and only then does the death tween start |
| Enemies.Enemy.Die | src/game/objects/Enemy.ts:175-191 | movement tweens are killed and one more death tween starts |
| Enemies.Enemy.DeathTweenCompleted | src/game/objects/Enemy.ts:186-189 | the end of the death tween emits `died` once and removes the enemy from the scene |
| Enemies.Enemy.Destroy | src/game/objects/Enemy.ts:203-206 | a destroyed enemy is inactive and has no running tween |
| EnemyManagers.StringToEnemyType | src/game/managers/EnemyManager.ts:101-115 | the type is FAST, TANK or SWARM exactly when the lower-cased name is that word, and SLOW for every other name |
| EnemyManagers.StringToEnemyTypeCaseInsensitive | src/game/managers/EnemyManager.ts:102 | the mapping ignores letter case |
| EnemyManagers.UpperCaseNamesAreKnown | src/game/managers/EnemyManager.ts:102-113 | "TANK" is a tank, "Swarm" a swarm, and an unknown name such as "boss" falls back to a slow enemy |
| EnemyManagers.StartPoint | src/game/managers/EnemyManager.ts:64-65 | each given coordinate is used as it is and a missing one comes from the first waypoint; there is no start point exactly when a coordinate is missing and the path is empty |
| EnemyManagers.EnemyManager.constructor | src/game/managers/EnemyManager.ts:17-20 | a new manager has no enemies, no configurations and no events |
| EnemyManagers.EnemyManager.LoadEnemyConfigs | src/game/managers/EnemyManager.ts:25-45 | the loaded configurations are added under their type names, replacing earlier ones |
| EnemyManagers.EnemyManager.CreateEnemy | src/game/managers/EnemyManager.ts:50-96 | an unknown type fails and a missing start point fails, changing nothing; otherwise a fresh active enemy of the mapped type, with the configured health and speed, at the start point, is appended and ENEMY_SPAWNED is emitted |
| EnemyManagers.EnemyManager.HandleEnemyReachedEnd | src/game/managers/EnemyManager.ts:120-123 | the enemy is unregistered (every occurrence) and ENEMY_REACHED_END is emitted |
| EnemyManagers.EnemyManager.HandleEnemyDied | src/game/managers/EnemyManager.ts:128-136 | the enemy is unregistered and ENEMY_DIED carries its type and bounty |
| EnemyManagers.EnemyManager.RemoveEnemy | src/game/managers/EnemyManager.ts:141-143 | the list loses every occurrence of the enemy and keeps the rest in order |
| EnemyManagers.EnemyManager.GetEnemies | src/game/managers/EnemyManager.ts:148-150 | exactly the registered enemies that are active |
| EnemyManagers.EnemyManager.GetEnemyCount | src/game/managers/EnemyManager.ts:155-157 | at most the number registered, and 0 exactly when none of them is active |
| EnemyManagers.EnemyManager.ClearAll | src/game/managers/EnemyManager.ts:170-177 | every registered enemy ends inactive, the active ones destroyed with their tweens stopped, their records untouched, and the list is emptied |
| EnemyManagers.EnemyManager.GetEnemyConfig | src/game/managers/EnemyManager.ts:182-184 | a configuration exactly for the loaded types, the one loaded under that name |
| Scenes.TowerCost | src/game/constants/gameConstants.ts:7-13 | every tower the scene can build has a positive price (cannon 100, ice 150) |
| Scenes.Sprite.constructor | src/game/scenes/GameScene.ts:101 | a rectangle placed at the given point, not destroyed |
| Scenes.FirstInRangeMeaning | src/game/scenes/GameScene.ts:157-171 | the search finds none exactly when no enemy is within 150 of the tower, and otherwise the first enemy in list order that is |
| Scenes.GameScene.constructor | src/game/scenes/GameScene.ts:11-18 | the scene starts from the initial state (100 coins, 10 lives, wave 1, score 0, not over) with no enemies, no towers and no alerts |
| Scenes.GameScene.BuildTower | src/game/scenes/GameScene.ts:73-86 | a tower is built exactly when the coins cover its price and the game is not over; then the price is paid and a fresh tower is appended at (400, 300); otherwise nothing changes; coins never go negative |
| Scenes.GameScene.SpawnTestEnemy | src/game/scenes/GameScene.ts:98-113 | once the game is over nothing spawns; otherwise a fresh enemy is appended at (800, 100) |
| Scenes.GameScene.EnemyReachedEnd | src/game/scenes/GameScene.ts:115-125 | the enemy is destroyed and dropped from the list, one life is lost, and the game is over exactly when at most one life was left, with a game-over alert showing the score on that arrival and on every later one |
| Scenes.GameScene.GameOver | src/game/scenes/GameScene.ts:133-140 | the game is over and an alert shows the score |
| Scenes.GameScene.FindTargetInRange | src/game/scenes/GameScene.ts:157-171 | the loop returns the first enemy within 150 of the tower, or none |
| GameStates.MergeState | src/game/managers/GameStateManager.ts:176-178 | the object spread `{ ...state, ...updates }`: each field given in the update replaces the current one, and every other field is kept |
| GameStates.MergeStateLaws | src/game/managers/GameStateManager.ts:176-178 | an empty update keeps the state, applying an update twice is applying it once, and two updates in a row are one combined update |
| GameStates.MergeStats | src/game/managers/GameStateManager.ts:191-193 | each counter given in the update replaces the current one, every other counter is kept |
| GameStates.MergeStatsLaws | src/game/managers/GameStateManager.ts:191-193 | an empty update keeps the counters and applying an update twice is applying it once |
| GameStates.PauseStep | src/game/managers/GameStateManager.ts:98-103 | pausing changes the phase exactly when it is PLAYING, and then to PAUSED |
| GameStates.ResumeStep | src/game/managers/GameStateManager.ts:108-113 | resuming changes the phase exactly when it is PAUSED, and then to PLAYING |
| GameStates.PauseResume | src/game/managers/GameStateManager.ts:98-113 | resume undoes pause from any phase but PAUSED (from PAUSED it ends in PLAYING), and pause and resume are each idempotent |
| GameStates.GameStateManager.constructor | src/game/managers/GameStateManager.ts:15-38 | the basic state is a copy of the given one, the phase is MENU with no map, no time and not initialized, and every counter is 0 |
| GameStates.GameStateManager.ChangePhase | src/game/managers/GameStateManager.ts:43-52 | the phase becomes the new one and `phaseChanged` carries the old phase, the new one and a copy of the new extended state |
| GameStates.GameStateManager.StartGame | src/game/managers/GameStateManager.ts:57-84 | LOADING on the given map, the clock started now, the coins taken from the profile, wave and score 0, not over, lives kept, every counter 0, and `gameStarted` emitted |
| GameStates.GameStateManager.EnterPlayingPhase | src/game/managers/GameStateManager.ts:89-93 | PLAYING and initialized; because the phase is set before `changePhase`, the event reports PLAYING as both the old and the new phase |
| GameStates.GameStateManager.PauseGame | src/game/managers/GameStateManager.ts:98-103 | only a PLAYING game pauses: the scene is paused and the phase goes to PAUSED with one event; any other phase changes nothing |
| GameStates.GameStateManager.ResumeGame | src/game/managers/GameStateManager.ts:108-113 | only a PAUSED game resumes: the scene runs again and the phase goes to PLAYING with one event; any other phase changes nothing |
| GameStates.GameStateManager.HandleVictory | src/game/managers/GameStateManager.ts:118-131 | VICTORY with the play time fixed in seconds since the start; the phase event (VICTORY to VICTORY) is followed by `gameVictory` with the score, play time, wave and counters |
| GameStates.GameStateManager.HandleDefeat | src/game/managers/GameStateManager.ts:136-149 | DEFEAT with the play time fixed; the phase event (DEFEAT to DEFEAT) is followed by `gameDefeat` with the score, play time, wave and counters |
| GameStates.GameStateManager.RestartGame | src/game/managers/GameStateManager.ts:154-162 | back to MENU with score and wave 0 and not over; coins, lives and counters are kept; the phase event is followed by `gameRestart` |
| GameStates.GameStateManager.Update | src/game/managers/GameStateManager.ts:167-171 | only while PLAYING the play time becomes the seconds since the start; otherwise nothing changes |
| GameStates.GameStateManager.UpdateGameState | src/game/managers/GameStateManager.ts:176-178 | the state becomes the merge of the old state and the update |
| GameStates.GameStateManager.UpdateWave | src/game/managers/GameStateManager.ts:183-186 | both the extended and the basic state record the wave number |
| GameStates.GameStateManager.UpdateStats | src/game/managers/GameStateManager.ts:191-193 | the counters become the merge of the old counters and the update |
| Maps.LoadMapConfig | src/game/managers/MapManager.ts:13-33 | a failed fetch and an invalid config (no id, no name, or fewer than two waypoints) are errors; a config is accepted exactly when it was fetched and is well formed, and it is returned as it is |
| Maps.ToWaypoints | src/game/managers/MapManager.ts:39 | each `[x, y]` pair becomes the waypoint `{x, y}`, in order |
| Maps.ProcessMapConfig | src/game/managers/MapManager.ts:38-53 | id, name and background are copied, the waypoints converted pair by pair, and the buildable set holds exactly the listed tiles (none when the list is absent) |
| Maps.ProcessedUsable | src/game/managers/MapManager.ts:38-53 | a map processed from an accepted config has at least two waypoints |
| Maps.CreatePath | src/game/managers/MapManager.ts:88-108 | a path exists exactly for two or more waypoints and keeps them as given; fewer is an error |
| Maps.TileKeyInjective | src/game/managers/MapManager.ts:135 | the tile key `"i,j"` names one cell: equal keys mean equal coordinates |
| Maps.MapManager.constructor | src/game/managers/MapManager.ts:7-8 | no cached map and no current map |
| Maps.MapManager.LoadMap | src/game/managers/MapManager.ts:58-69 | a cached map is returned without fetching; otherwise an error is passed on and caches nothing, and an accepted config is processed, cached under the id and returned; every map returned has at least two waypoints |
| Maps.MapManager.SetCurrentMap | src/game/managers/MapManager.ts:74-76 | the map becomes the current one |
| Maps.MapManager.GetCurrentPath | src/game/managers/MapManager.ts:113-119 | no current map means no path; a usable map gives the path through its waypoints; a map with fewer than two waypoints is an error |
| Maps.MapManager.CanBuildAt | src/game/managers/MapManager.ts:124-137 | nothing is buildable without a current map, everything with an empty tile set, and otherwise exactly the points whose floored key `"⌊x⌋,⌊y⌋"` is listed |
| Maps.MapManager.CanBuildAtCells | src/game/managers/MapManager.ts:130-136 | every point inside a listed cell is buildable, and a refused point lies outside that cell |
| Maps.MapManager.BuildableOnlyInListedCells | src/game/managers/MapManager.ts:130-136 | with a single listed tile, a point is buildable exactly when it lies in that cell |
| Maps.MapManager.ClearCache | src/game/managers/MapManager.ts:142-145 | no cached map and no current map |
| Monetization.WithSkin | src/services/MonetizationStack.ts:157-166 | after unlocking, the skin is owned; a skin already owned leaves the profile unchanged; a new skin is pushed after the skins already owned; nothing but the owned skins changes |
| Monetization.WithSkinIdempotent | src/services/MonetizationStack.ts:157-166 | unlocking the same skin twice is the same as once, and owned skins stay free of duplicates |
| Monetization.Claim | src/services/MonetizationStack.ts:249-262 | a coin reward credits its coins, a skin reward unlocks the skin, and boosts and Stars leave the profile alone |
| Monetization.ClaimAllCoins | src/services/MonetizationStack.ts:231-240 | claiming a list of rewards raises the coins by exactly the coins the list grants and changes nothing but coins, statistics and skins |
| Monetization.LevelUp | src/services/MonetizationStack.ts:221-244 | a level up moves to the next level, resets the XP to 0 (losing any excess) and records the new level as claimed |
| Monetization.Range | src/services/MonetizationStack.ts:198-200 | the levels passed from a to b-1, one each and in order |
| Monetization.Climb | src/services/MonetizationStack.ts:191-203 | levelling while possible ends where no further level up is possible, never below the start, inside the level list, with every level passed recorded once and in order and the XP reset when any level was passed |
| Monetization.ClimbStops | src/services/MonetizationStack.ts:208-216 | below the last level, XP short of the current requirement never levels up and XP covering it passes at least one level |
| Monetization.Processed | src/services/MonetizationStack.ts:137-152 | a coin pack credits its coins, a skin is unlocked (on the default profile when none is loaded), remove-ads sets that setting on a loaded profile, and boosts and battle-pass products change nothing; nothing but a skin creates a profile |
| Monetization.DefaultsAfter | src/services/MonetizationStack.ts:145-149 | remove-ads without a loaded profile sets the flag on the default settings, which `getSettings` handed out by reference; every other purchase leaves the defaults alone |
| Monetization.RemoveAdsLands | src/services/MonetizationStack.ts:145-149 | after a remove-ads purchase the loaded profile, or the one later created from the defaults, has ads removed |
| Monetization.AsPatch | src/services/MonetizationStack.ts:146-148 | passing whole settings as a patch installs them, keeping the old ads flag only when the new one is absent |
| Monetization.StoredProgress | src/services/MonetizationStack.ts:288-303 | the battle-pass progress is the one stored on the profile, or a fresh one at level 0 with no XP, nothing claimed and no premium |
| Monetization.NewPass | src/services/MonetizationStack.ts:60-74 | a new pass carries the configured season and levels, the stored level, XP and premium flag, and lasts 30 days |
| Monetization.MonetizationStack.constructor | src/services/MonetizationStack.ts:15-22 | the shop starts with no products, no skins, no pass and no purchases |
| Monetization.MonetizationStack.LoadProducts | src/services/MonetizationStack.ts:27-55 | a failed fetch changes nothing; otherwise every product and skin is set under its id and a configured pass is created from the stored progress |
| Monetization.MonetizationStack.LoadProductList | src/services/MonetizationStack.ts:35-39 | the products are set under their ids in order |
| Monetization.MonetizationStack.LoadSkinList | src/services/MonetizationStack.ts:42-46 | the skins are set under their ids in order |
| Monetization.MonetizationStack.GetBattlePassProgress | src/services/MonetizationStack.ts:288-303 | returns the stored progress, installing the default profile first when none is loaded |
| Monetization.MonetizationStack.UpdateBattlePassProgress | src/services/MonetizationStack.ts:308-312 | the given progress is stored on the profile |
| Monetization.MonetizationStack.UnlockSkin | src/services/MonetizationStack.ts:157-166 | the profile afterwards is the loaded (or default) profile with the skin owned |
| Monetization.MonetizationStack.ProcessPurchase | src/services/MonetizationStack.ts:137-152 | the profile afterwards is exactly what granting the product specifies, and the defaults carry the ads flag written through the shared settings when no profile is loaded |
| Monetization.MonetizationStack.PurchaseProduct | src/services/MonetizationStack.ts:79-123 | an unknown product yields no purchase and changes nothing; a known one completes with its Stars price and the buyer's id, is granted, and is recorded among the purchases only when Telegram is available; a remove-ads buyer always ends with ads removed, also when the profile is created from the defaults after the purchase |
| Monetization.MonetizationStack.PurchaseBattlePass | src/services/MonetizationStack.ts:171-186 | succeeds exactly when a pass exists, and then unlocks premium both on the pass and on the stored progress |
| Monetization.MonetizationStack.ClaimReward | src/services/MonetizationStack.ts:249-262 | the profile afterwards is the reward claimed on it |
| Monetization.MonetizationStack.ClaimRewards | src/services/MonetizationStack.ts:231-240 | the profile afterwards has every reward of the list claimed in order |
| Monetization.MonetizationStack.LevelUpBattlePass | src/services/MonetizationStack.ts:221-244 | the progress and profile afterwards are one specified level up, with the new level's free rewards and (with premium) premium rewards claimed |
| Monetization.MonetizationStack.AddBattlePassXP | src/services/MonetizationStack.ts:191-203 | without a pass nothing happens; otherwise the XP is added and the stored progress and profile are those of climbing as far as the XP allows |
| Monetization.MonetizationStack.GetAvailableProducts | src/services/MonetizationStack.ts:267-269 | every product, in insertion order |
| Monetization.MonetizationStack.GetAvailableSkins | src/services/MonetizationStack.ts:274-276 | every skin, in insertion order |
| Pooling.PoolObject.constructor | src/game/systems/ObjectPool.ts:46 | a created object starts active, visible, not destroyed and never reset |
| Pooling.Kept | src/game/systems/ObjectPool.ts:74-79 | of k objects released one after another, at most k are kept, the list never grows past `max` through them, and fewer than k are kept only when the list reached `max` |
| Pooling.KeptStep | src/game/systems/ObjectPool.ts:74-79 | one more release keeps one more object exactly while the free list is shorter than `max` |
| Pooling.RefillKeepsPrefix | src/game/systems/ObjectPool.ts:85-88 | releasing a list one object at a time leaves the free list extended by exactly the first `Kept` objects of that list, in order |
| Pooling.ObjectPool.Cap | src/game/systems/ObjectPool.ts:72-75 | the free list's bound is at least the prefill size and at least `max` |
| Pooling.ObjectPool.constructor | src/game/systems/ObjectPool.ts:14-34 | the free list holds `initial` fresh, switched-off objects (none for a non-positive `initial`), nothing is handed out, and the pool is valid |
| Pooling.ObjectPool.PushFree | src/game/systems/ObjectPool.ts:27-32 | one prefill step appends one fresh, switched-off object to the free list |
| Pooling.ObjectPool.Acquire | src/game/systems/ObjectPool.ts:39-56 | a non-empty free list yields its top object (pop), an empty one a fresh object; the object joins the handed-out set, which did not hold it, and is active and visible |
| Pooling.ObjectPool.Release | src/game/systems/ObjectPool.ts:61-80 | an object not handed out is ignored; otherwise it leaves the handed-out set, is reset once and switched off, and goes on the free list while that is shorter than `max`, else it is destroyed |
| Pooling.ObjectPool.ReleaseAll | src/game/systems/ObjectPool.ts:85-88 | everything handed out is released in set order: the free list gains the first `Kept` of them, each is reset once and switched off, and exactly those that found no room are destroyed |
| Pooling.ObjectPool.ReleaseNext | src/game/systems/ObjectPool.ts:87 | one release of the `releaseAll` loop moves the draining invariant one object on |
| Pooling.ObjectPool.Utilization | src/game/systems/ObjectPool.ts:107-110 | a percentage between 0 and 100; it is 0 exactly when nothing is handed out and 100 exactly when the free list is empty and something is handed out |
| Pooling.ObjectPool.Clear | src/game/systems/ObjectPool.ts:115-120 | every object the pool held, free or handed out, ends destroyed; the handed-out ones were reset once and switched off; both lists end empty |
| Profiles.DefaultProfile | src/services/PlayerProfileService.ts:18-49 | a new player starts with 200 coins, no score, the forest map, the cannon and ice towers, no tower levels or achievements, no daily streak, zeroed statistics and the default settings |
| Profiles.PatchSettings | src/services/PlayerProfileService.ts:267-271 | merging a partial settings object takes each field from the patch when present and keeps the old value otherwise |
| Profiles.PatchStats | src/services/PlayerProfileService.ts:197-201 | merging partial statistics takes each field from the patch when present and keeps the old value otherwise |
| Profiles.ValidateProfile | src/services/PlayerProfileService.ts:81-100 | a loaded profile keeps every stored field and fills each missing one from the defaults; settings, stats and daily rewards are merged field by field over the defaults |
| Profiles.ValidateEmpty | src/services/PlayerProfileService.ts:81-100 | validating a stored profile with no fields yields exactly the default profile |
| Profiles.WithCoinsAdds | src/services/PlayerProfileService.ts:130-135 | crediting coins is additive (two credits equal one credit of the sum, on both the balance and the lifetime total) and crediting 0 changes nothing |
| Profiles.UnlockLaws | src/services/PlayerProfileService.ts:164-181 | unlocking a map or tower is idempotent, keeps a duplicate-free list duplicate-free and loses nothing already unlocked |
| Profiles.DailyRewardFor | src/services/PlayerProfileService.ts:256-262 | the daily reward of a non-negative streak lies between 25 and 75 coins and is capped at 75 from a streak of 10 on |
| Profiles.DailyRewardMonotone | src/services/PlayerProfileService.ts:256-262 | a longer streak never earns a smaller daily reward |
| Profiles.CheckDaily | src/services/PlayerProfileService.ts:206-224 | the reward can be claimed exactly when it was not already claimed today; a claimable reward is the streak's reward, otherwise 0, and the streak is reported unchanged |
| Profiles.Claimed | src/services/PlayerProfileService.ts:235-247 | after a claim the last-claim date is today; the streak grows by one when the last claim was yesterday and restarts at 1 when it was neither yesterday nor today |
| Profiles.ClaimOncePerDay | src/services/PlayerProfileService.ts:206-251 | after claiming, the reward cannot be claimed again the same day, can be claimed the next day, and claiming on consecutive days grows the streak by one |
| Profiles.PlayerProfileService.constructor | src/services/PlayerProfileService.ts:11-13 | the service starts with no profile and the default profile for the user |
| Profiles.PlayerProfileService.Initialize | src/services/PlayerProfileService.ts:54-76 | initialising adopts the validated stored profile when there is one and the default profile otherwise |
| Profiles.PlayerProfileService.SaveProfile | src/services/PlayerProfileService.ts:105-115 | saving succeeds exactly when a profile is loaded |
| Profiles.PlayerProfileService.GetProfile | src/services/PlayerProfileService.ts:120-125 | reading the profile returns the loaded one, installing the default first when none is loaded |
| Profiles.PlayerProfileService.AddCoins | src/services/PlayerProfileService.ts:130-135 | with a profile, the balance and the lifetime coins earned both grow by the amount; without one nothing happens |
| Profiles.PlayerProfileService.SpendCoins | src/services/PlayerProfileService.ts:140-147 | spending succeeds exactly when a profile is loaded and holds at least the amount; success deducts the amount, failure changes nothing |
| Profiles.PlayerProfileService.UpdateScore | src/services/PlayerProfileService.ts:152-159 | the score is added to the total and the highest score becomes the larger of the old highest and this score |
| Profiles.PlayerProfileService.UnlockMap | src/services/PlayerProfileService.ts:164-170 | the map is appended to the unlocked maps unless already there |
| Profiles.PlayerProfileService.UnlockTower | src/services/PlayerProfileService.ts:175-181 | the tower type is appended to the unlocked towers unless already there |
| Profiles.PlayerProfileService.UpdateTowerLevel | src/services/PlayerProfileService.ts:186-192 | a tower's recorded level is set to the new level when it was missing, 0 or lower, and kept otherwise; afterwards the level is recorded and a non-zero old level never decreases |
| Profiles.PlayerProfileService.UpdateGameStats | src/services/PlayerProfileService.ts:197-201 | the statistics become the old statistics merged with the given fields |
| Profiles.PlayerProfileService.CheckDailyReward | src/services/PlayerProfileService.ts:206-224 | without a profile nothing can be claimed (reward 0, streak 0); with one the check is that of its daily-reward state for today |
| Profiles.PlayerProfileService.ClaimDailyReward | src/services/PlayerProfileService.ts:229-251 | a claim already made today (or no profile) pays 0 and changes nothing; otherwise it pays the reward of the streak before the claim, advances the streak and credits the coins |
| Profiles.PlayerProfileService.UpdateSettings | src/services/PlayerProfileService.ts:267-271 | the settings become the old settings merged with the given fields |
| Projectiles.SlowOf | src/game/systems/ProjectileSystem.ts:154-162 | a slow is built only when both slow fields are truthy; the record it builds is a slow with a non-zero factor |
| Projectiles.PoisonOf | src/game/systems/ProjectileSystem.ts:164-172 | a poison is built only when both poison fields are truthy; the record it builds is a poison that has never ticked |
| Projectiles.FalloffRange | src/game/systems/ProjectileSystem.ts:212-214 | the splash fall-off lies between 0.5 and 1, is 1 at the centre and 0.5 at the rim, and does not grow with distance |
| Projectiles.SplashNearerTakesMore | src/game/systems/ProjectileSystem.ts:205-216 | for a non-negative splash, a nearer enemy takes at least as much splash damage as a farther one, and never a negative amount |
| Projectiles.Projectile.constructor | src/game/objects/Projectile.ts:16-45 | a new projectile has the given position, config, damage and target, carries no effects, and is active and visible |
| Projectiles.Projectile.Destroy | src/game/objects/Projectile.ts:160-165 | a destroyed projectile is inactive and invisible |
| Projectiles.Projectile.Update | src/game/objects/Projectile.ts:81-131 | the hit it reports is the one `ShotOf` describes; a projectile that lost its target destroys itself, otherwise its flags stay as they were |
| Projectiles.ShotOf | src/game/objects/Projectile.ts:81-131 | an instant projectile hits at once; any other hits only when its target is present and active and it arrived; it is lost exactly when it is not instant and has no live target |
| Projectiles.StayingOrReturned | src/game/systems/ProjectileSystem.ts:109-135 | every projectile of the frame either stays in the list or goes back to the pool, never both and never lost (a multiset identity), and the staying ones come from the list |
| Projectiles.ReportedCount | src/game/systems/ProjectileSystem.ts:109-135 | the frame emits exactly one event per projectile that hit or missed |
| Projectiles.DamageOnlyToTargets | src/game/systems/ProjectileSystem.ts:109-135 | an enemy that no projectile aims at takes no direct damage from the frame |
| Projectiles.UpdateTurn | src/game/systems/ProjectileSystem.ts:112-134 | one turn of the backwards loop: the list, the pool, the events and the damage owed after it match the frame's outcome from that index on |
| Projectiles.ProjectileSystem.constructor | src/game/systems/ProjectileSystem.ts:17-21 | a new system has no projectiles, an empty pool and no events |
| Projectiles.ProjectileSystem.CreateProjectile | src/game/systems/ProjectileSystem.ts:26-67 | the projectile is taken from the top of the pool or made fresh and fired; an instant one with a target hits it at once (exactly one `takeDamage`, the optional slow applied through the effect system) and goes back to the pool with the events FIRED then HIT |
| Projectiles.ProjectileSystem.FireInstant | src/game/systems/ProjectileSystem.ts:58-64 | an instant shot fires and hits in one call: the list is unchanged, the projectile is back in the pool, and FIRED then HIT are emitted |
| Projectiles.ProjectileSystem.Fire | src/game/systems/ProjectileSystem.ts:58-59 | the projectile is appended to the list and FIRED is emitted |
| Projectiles.ProjectileSystem.TakeProjectile | src/game/systems/ProjectileSystem.ts:41-56 | a non-empty pool yields its last projectile (pop), an empty one a fresh projectile; either way it carries the new position, config, damage and target, and is active and visible |
| Projectiles.ProjectileSystem.HandleInstantHit | src/game/systems/ProjectileSystem.ts:73-103 | the target takes the damage once, the slow (if built) goes through `applyEffect`, HIT is emitted and the projectile leaves the list for the pool |
| Projectiles.ProjectileSystem.InstantStrike | src/game/systems/ProjectileSystem.ts:81-92 | the target takes the damage once and the slow, when built, is applied as `applyEffect` states |
| Projectiles.ProjectileSystem.HandleProjectileHit | src/game/systems/ProjectileSystem.ts:140-182 | HIT is emitted, the projectile leaves the list for the pool; without carried effects the target takes exactly the projectile's damage and its speed is unchanged |
| Projectiles.ProjectileSystem.Strike | src/game/systems/ProjectileSystem.ts:146-173 | damage first, then the carried effects; without carried effects exactly one plain hit |
| Projectiles.ProjectileSystem.Update | src/game/systems/ProjectileSystem.ts:109-135 | after the frame the list holds the staying projectiles in order, the pool gained the others last-first, the events are each turn's events in loop order, and every aimed-at enemy took exactly the damage owed to it |
| Projectiles.ProjectileSystem.ProgressStart | src/game/systems/ProjectileSystem.ts:112 | before the loop no projectile has had its turn |
| Projectiles.ProjectileSystem.ProgressDone | src/game/systems/ProjectileSystem.ts:112-134 | after the loop the state is the frame's outcome and each target took its owed damage |
| Projectiles.ProjectileSystem.RunTurns | src/game/systems/ProjectileSystem.ts:112-134 | the backwards loop carries the progress invariant from the end of the list to index 0 |
| Projectiles.ProjectileSystem.Turn | src/game/systems/ProjectileSystem.ts:113-133 | one turn moves the progress invariant from index i + 1 to index i |
| Projectiles.ProjectileSystem.UpdateOne | src/game/systems/ProjectileSystem.ts:113-133 | an inactive projectile goes to the pool; an active one flies, and on a hit it strikes a live target or emits MISSED and goes to the pool |
| Projectiles.ProjectileSystem.ApplyCarried | src/game/systems/ProjectileSystem.ts:153-173 | the slow and the poison the projectile carries are applied through the effect system, slow first |
| Projectiles.ProjectileSystem.DealDamage | src/game/systems/ProjectileSystem.ts:145-151 | with a positive splash radius the splash handler runs, otherwise a plain hit; either way the target takes the damage exactly once and keeps its speed |
| Projectiles.ProjectileSystem.ApplyIfAny | src/game/systems/ProjectileSystem.ts:154-173 | a built record goes through `applyEffect`; no record changes nothing |
| Projectiles.ProjectileSystem.HandleSplashDamage | src/game/systems/ProjectileSystem.ts:187-222 | the centre takes the base damage once; every other active enemy within the radius takes base × multiplier × fall-off, and every other enemy is left as it was |
| Projectiles.ProjectileSystem.RemoveProjectile | src/game/systems/ProjectileSystem.ts:275-284 | the first occurrence leaves the list (if present), the projectile is always pushed to the pool, and it is inactive and invisible |
| Projectiles.ProjectileSystem.Clear | src/game/systems/ProjectileSystem.ts:289-294 | every projectile in flight and in the pool is destroyed, and both lists become empty |
| Retention.RewardFor | src/services/RetentionEngine.ts:117-118 | an empty reward list gives no reward; from day 1 on, day d gets entry (d - 1) mod the list's length |
| Retention.RewardCycles | src/services/RetentionEngine.ts:117-118 | the daily rewards repeat in a cycle as long as the list |
| Retention.CheckRetention | src/services/RetentionEngine.ts:83-125 | a first claim is day 1 with the first reward; a claim already made today is not claimable; after yesterday's claim the cycle goes on at streak + 1, after an older one it restarts at day 1; a claimable day's reward is that day's entry of the cycle |
| Retention.ClaimThenCheck | src/services/RetentionEngine.ts:83-149 | after today's claim nothing more can be claimed today, and tomorrow's check offers the next day of the streak |
| Retention.Grant | src/services/RetentionEngine.ts:169-185 | a coin reward credits its coins, a skin reward records the skin as unlocked content, and Stars and boosts change nothing |
| Retention.GrantAllCoins | src/services/RetentionEngine.ts:152-154 | granting a day's rewards raises the coins by exactly the coins among them, touches nothing on the profile but coins and statistics, and keeps the content map well formed |
| Retention.FoundUnlocked | src/services/RetentionEngine.ts:249-253 | an achievement counts as unlocked exactly when the first record with its id exists and is marked unlocked |
| Retention.Reviewed | src/services/RetentionEngine.ts:217-240 | unlocked content is left alone; locked content whose level, score or achievement condition is met is unlocked now, and otherwise stays locked |
| Retention.ReviewedOnce | src/services/RetentionEngine.ts:217-240 | reviewing content again with the same standing changes nothing, so content is unlocked once, at the first review that meets its condition |
| Retention.MonthLength | src/services/RetentionEngine.ts:56-57 | months last 28 to 31 days, 29 exactly for February of a leap year |
| Retention.MonthsAdjoin | src/services/RetentionEngine.ts:56-57 | each month of the calendar starts where the one before it ends |
| Retention.YearLength | src/services/RetentionEngine.ts:56-57 | a year is as long as its twelve months, so a date past December runs on into the next year |
| Retention.DayNumberInYear | src/services/RetentionEngine.ts:56-57 | a date whose month is 1..12 is numbered within its own year: the year's start, the days of the months before, then the day |
| Retention.DayNumberOrdered | src/services/RetentionEngine.ts:56-59 | within a year, calendar days are numbered in (month, day) order, and distinct days get distinct numbers |
| Retention.ActiveOnCalendarDays | src/services/RetentionEngine.ts:56-59 | for windows of days that exist in the calendar, the window is active exactly when the (month, day) pairs say the moment is within it, the end day counted only at its midnight |
| Retention.EndRollsIntoMarch | src/services/RetentionEngine.ts:56-59 | an end of "02-30" in 2023 is 2 March, so 1 March and midnight of 2 March are inside the window |
| Retention.FirstActive | src/services/RetentionEngine.ts:52-77 | no event is found exactly when no window of the rotation is active now, the window's dates normalised as `Date` does; a found event is an active window of the rotation |
| Retention.WrappedWindowNeverActive | src/services/RetentionEngine.ts:53-59 | a window of calendar days whose end month comes before its start month (one spanning New Year) is never active, since both dates fall in the current year |
| Retention.ActiveEvent | src/services/RetentionEngine.ts:46-78 | the first active window becomes the current event; with none active the current event is kept |
| Retention.RetentionEngine.constructor | src/services/RetentionEngine.ts:15-22 | the engine starts with no daily rewards, no event and no unlockable content |
| Retention.RetentionEngine.LoadConfigs | src/services/RetentionEngine.ts:27-41 | a failed fetch changes nothing; otherwise the daily rewards are installed (none when missing) and a configured rotation sets the current event |
| Retention.RetentionEngine.CheckCurrentEvent | src/services/RetentionEngine.ts:46-78 | the current event afterwards is the one the active-event function gives for the rotation |
| Retention.RetentionEngine.CheckDailyReward | src/services/RetentionEngine.ts:83-125 | the result is the retention check of the profile's daily state, the default profile being installed when none is loaded |
| Retention.RetentionEngine.ClaimDailyReward | src/services/RetentionEngine.ts:130-164 | nothing is granted when the reward is not claimable or missing; otherwise the streak moves on, today is recorded, the day's rewards are granted in order and the 100-coin streak bonus is paid when the day has one |
| Retention.RetentionEngine.ProcessRewards | src/services/RetentionEngine.ts:152-154 | the profile and content afterwards have every reward of the list granted in order |
| Retention.RetentionEngine.ProcessReward | src/services/RetentionEngine.ts:169-185 | the profile and content afterwards are the reward granted on them |
| Retention.RetentionEngine.UnlockContent | src/services/RetentionEngine.ts:197-211 | the content is recorded as unlocked now under its id, replacing any earlier record |
| Retention.RetentionEngine.CheckUnlockables | src/services/RetentionEngine.ts:216-244 | every content entry is reviewed in place against the level, score and unlocked achievements; the keys and their order do not change |
| Sorting.SortDescFacts | src/services/SocialIntegration.ts:95 | the descending sort by score orders by key, keeps exactly the same elements, and keeps equal scores in their input order (the sort is stable) |
| Social.NewFriend | src/services/SocialIntegration.ts:46-53 | a friend just added carries the given id and is ready to help |
| Social.Founded | src/services/SocialIntegration.ts:113-123 | a new clan has the founder as its only member and as its leader |
| Social.Joined | src/services/SocialIntegration.ts:143-153 | a joined clan carries the requested id and lists the player as its only member |
| Social.FriendEntries | src/services/SocialIntegration.ts:86-91 | one leaderboard entry per top friend |
| Social.Unranked | src/services/SocialIntegration.ts:96-98 | forgetting the ranks keeps every entry and its position |
| Social.UnrankedInsert | src/services/SocialIntegration.ts:95 | inserting into the sorted board does not depend on the ranks |
| Social.UnrankedSort | src/services/SocialIntegration.ts:95 | sorting by score and re-ranking commute: the sort never looks at the ranks |
| Social.TopFriendsAreBest | src/services/SocialIntegration.ts:72-74 | the top friends are as many as `slice(0, limit)` keeps, are drawn from the friends, and each scores at least as much as every friend left out |
| Social.SortedPrefixIsBest | src/services/SocialIntegration.ts:72-74 | any prefix of a descending arrangement of the friends scores at least as much as every friend outside it |
| Social.FriendLeaderboardFacts | src/services/SocialIntegration.ts:71-101 | the friend leaderboard holds the player plus the top friends, sorted by score from the highest, ranked 1, 2, ... by position, and is a reordering of exactly those entries |
| Social.AddedFriendListedLast | src/services/SocialIntegration.ts:64-66 | a newly added friend appears last in the friend list, after all earlier friends in their order |
| Social.SocialIntegration.constructor | src/services/SocialIntegration.ts:14-21 | the service starts with no clan and the stored friends (none when nothing is stored) keyed by id |
| Social.SocialIntegration.LoadFriends | src/services/SocialIntegration.ts:26-36 | with nothing stored the friends are kept; otherwise each stored friend is set under its id in order |
| Social.SocialIntegration.AddFriend | src/services/SocialIntegration.ts:41-59 | adding succeeds exactly when the id is not yet a friend; success stores the new friend under its id and lists it last, failure changes nothing |
| Social.SocialIntegration.GetFriends | src/services/SocialIntegration.ts:64-66 | every friend, in insertion order, each under its own id |
| Social.SocialIntegration.GetFriendLeaderboard | src/services/SocialIntegration.ts:71-101 | the board returned is the specified friend leaderboard of the current friends and profile (the default profile being installed when none is loaded) |
| Social.SocialIntegration.CreateClan | src/services/SocialIntegration.ts:106-129 | a player already in a clan gets nothing and keeps the clan; otherwise a clan founded by the player becomes the current clan and is returned |
| Social.SocialIntegration.JoinClan | src/services/SocialIntegration.ts:134-159 | joining succeeds exactly when the player is in no clan, and then the requested clan with the player as member becomes current |
| Social.SocialIntegration.GetCurrentClan | src/services/SocialIntegration.ts:164-166 | the current clan |
| Towers.TowerConfig.constructor | src/game/systems/TowerSystem.ts:28-48 | a tower type's configuration holds exactly the loaded values |
| Towers.EffectsNeedListing | src/game/objects/Tower.ts:259-280 | a tower's shot slows, poisons or splashes only when its type lists that effect, with the configured amount; a listed slow with truthy fields is always passed on |
| Towers.FindUpgrade | src/game/objects/Tower.ts:286-288 | `find` over the upgrade list: none exactly when no entry has that level, otherwise the first entry with that level |
| Towers.UpgradeCost | src/game/objects/Tower.ts:326-331 | the price of the first entry for the next level, or 0 when the tower is at its last level |
| Towers.SellPrice | src/game/objects/Tower.ts:336-343 | half of the base cost plus the prices of all upgrades up to the current level, rounded down |
| Towers.CostsUpToMonotone | src/game/objects/Tower.ts:338-340 | with non-negative prices the summed upgrade price is non-negative and grows with the level |
| Towers.SellPriceMonotone | src/game/objects/Tower.ts:336-343 | with non-negative prices a higher level never sells for less |
| Towers.InRangeMembers | src/game/objects/Tower.ts:117-134 | the candidates are exactly the active enemies within range of the tower |
| Towers.ArgMin | src/game/objects/Tower.ts:155-174 | the scan's pick is an index of the list |
| Towers.ArgMinIsFirstMin | src/game/objects/Tower.ts:155-174 | the scan that replaces its pick only on a strictly smaller key finds the first smallest key |
| Towers.ArgMaxAbove | src/game/objects/Tower.ts:176-204 | the scan's pick, when there is one, is an index of the list |
| Towers.ArgMaxAboveIsFirstMax | src/game/objects/Tower.ts:176-204 | the scan from a floor value finds the first largest key above the floor, and finds none exactly when no key exceeds it |
| Towers.PickIsBest | src/game/objects/Tower.ts:136-218 | each strategy picks a candidate that is best for it (first closest, first strongest above 0 health, first furthest along the path, first weakest); none exactly when no candidate qualifies: for CLOSEST and WEAKEST only on an empty list, for STRONGEST when every candidate has health at most 0 |
| Towers.Tower.constructor | src/game/objects/Tower.ts:19-63 | a new tower is at level 1 with no target, has never attacked, hides its range and has emitted nothing |
| Towers.Tower.Update | src/game/objects/Tower.ts:93-111 | while cooling down nothing changes; otherwise the current target becomes the CLOSEST pick among the enemies in range, and a found target is attacked: the attack time is now, TOWER_ATTACK is emitted and the projectile is launched (in flight with PROJECTILE_FIRED, or for an instant one hit at once with the tower's slow); no enemy moves or leaves the scene |
| Towers.Tower.Respond | src/game/objects/Tower.ts:103-110 | a ready tower's target is the CLOSEST pick in range; none clears the target and changes nothing else, one is attacked and the projectile launched |
| Towers.Tower.Engage | src/game/objects/Tower.ts:105-107 | the found target is remembered and attacked: attack time now, TOWER_ATTACK emitted, the projectile launched with the tower's effects |
| Towers.Tower.TargetStable | src/game/systems/TowerSystem.ts:220-222 | while no enemy moves or leaves the scene and the range is kept, the enemies in range and the CLOSEST pick stay what they were, so towers updated later in the same frame pick as if first |
| Towers.Tower.FindTarget | src/game/objects/Tower.ts:116-153 | the result is the strategy's pick among the active enemies within range |
| Towers.Tower.FindClosestEnemy | src/game/objects/Tower.ts:155-174 | the loop returns the strategy's pick: the first enemy at the smallest distance |
| Towers.Tower.FindStrongestEnemy | src/game/objects/Tower.ts:176-188 | the loop returns the first enemy with the largest health above 0, or none |
| Towers.Tower.FindFirstEnemy | src/game/objects/Tower.ts:190-204 | the loop returns the first enemy with the largest waypoint index |
| Towers.Tower.FindWeakestEnemy | src/game/objects/Tower.ts:206-218 | the loop returns the first enemy with the smallest health |
| Towers.Tower.Attack | src/game/objects/Tower.ts:223-254 | a projectile is created at the tower with the configured damage and the tower's effects and launched (in flight with PROJECTILE_FIRED, or for an instant one hit at once with the slow applied), the attack time is set to now and TOWER_ATTACK is emitted with that damage |
| Towers.Tower.Upgrade | src/game/objects/Tower.ts:285-321 | without an entry for the next level nothing changes and the result is false; otherwise the level rises by one, the entry's given stats overwrite the shared configuration's, TOWER_UPGRADED carries the old and new level and the price, and the result is true |
| Towers.Tower.ShowRange | src/game/objects/Tower.ts:348-351 | the range circle is shown |
| Towers.Tower.HideRange | src/game/objects/Tower.ts:356-359 | the range circle is hidden |
| Towers.Tower.Destroy | src/game/objects/Tower.ts:394-399 | the tower is destroyed |
| TowerSystems.FirstNearMeaning | src/game/systems/TowerSystem.ts:93-110 | the search finds none exactly when no tower is closer than the radius, and otherwise the first tower in list order that is |
| TowerSystems.ClickedMeansOccupied | src/game/systems/TowerSystem.ts:179-181 | a point where a click selects a tower (radius 25) is a point where building is refused (radius 30) |
| TowerSystems.SpacedDrop | src/game/systems/TowerSystem.ts:141-143 | taking one tower out of a list of towers at least 30 apart leaves them at least 30 apart |
| TowerSystems.SpacedRemove | src/game/systems/TowerSystem.ts:139-143 | removing a tower at its first position keeps the others spaced |
| TowerSystems.SpacedDistinct | src/game/systems/TowerSystem.ts:93-110 | towers built at least 30 apart are all different towers |
| TowerSystems.TowerSystem.constructor | src/game/systems/TowerSystem.ts:18-23 | a new system has no towers, no configurations, no selection and no events |
| TowerSystems.TowerSystem.LoadTowerConfigs | src/game/systems/TowerSystem.ts:28-48 | the loaded configurations are added under their type names, replacing earlier ones |
| TowerSystems.TowerSystem.BuildTower | src/game/systems/TowerSystem.ts:53-88 | an unknown type or a point closer than 30 to a tower builds nothing; otherwise a fresh level-1 tower of that type and configuration is appended at the point and TOWER_BUILT reports its cost; towers stay at least 30 apart |
| TowerSystems.TowerSystem.CanBuildAt | src/game/systems/TowerSystem.ts:93-110 | building is allowed exactly when no tower is closer than 30 |
| TowerSystems.TowerSystem.UpgradeTower | src/game/systems/TowerSystem.ts:115-130 | no tower means false; otherwise the result is whether the tower upgraded, and an upgrade is reported with the old and new level and the price for the level after the new one, as the code reads it after the change |
| TowerSystems.TowerSystem.SellTower | src/game/systems/TowerSystem.ts:135-157 | no tower refunds 0 and changes nothing; otherwise the refund is the sell price at the current level, the tower leaves the list and the selection, is destroyed, and TOWER_SOLD reports the refund |
| TowerSystems.TowerSystem.Unlist | src/game/systems/TowerSystem.ts:139-147 | the tower leaves the list at its first position, if present, and stops being selected |
| TowerSystems.TowerSystem.SelectTower | src/game/systems/TowerSystem.ts:162-174 | the new tower is selected and shows its range; a previously selected different tower hides its range |
| TowerSystems.TowerSystem.GetTowerAt | src/game/systems/TowerSystem.ts:179-196 | the first tower closer than 25 to the point, or none |
| TowerSystems.TowerSystem.Update | src/game/systems/TowerSystem.ts:217-223 | every tower updates at the same time: a tower still cooling down keeps its target, attack time and events; a ready one targets the CLOSEST enemy in range of the frame's enemies, and when there is one its attack time is now and one TOWER_ATTACK is appended; no enemy moves or leaves the scene |
| TowerSystems.TowerSystem.UpdateTower | src/game/systems/TowerSystem.ts:220-222 | one tower's update inside the loop serves it as its own update promises, moving no enemy |
| TowerSystems.TowerSystem.GetTowerConfig | src/game/systems/TowerSystem.ts:242-244 | a configuration exactly for the loaded types, the one loaded under that name |
| TowerSystems.TowerSystem.ClearAll | src/game/systems/TowerSystem.ts:256-260 | every tower is destroyed, the list is emptied and the selection cleared |
| Viral.OrElse | src/services/ViralGrowthManager.ts:130-133 | JavaScript's "or" default on a number: a non-zero value is kept and 0 falls back to the default |
| Viral.ShareReward | src/services/ViralGrowthManager.ts:195 | the reward for helping or sharing is 50 coins without a configuration, and the configured reward otherwise (50 when it is 0) |
| Viral.InviteBonus | src/services/ViralGrowthManager.ts:159 | the invite bonus is 100 coins without a configuration, and the configured bonus otherwise (100 when it is 0) |
| Viral.HelpValue | src/services/ViralGrowthManager.ts:211-223 | freeze and shield helps are worth 0; with help settings loaded, damage and coins helps are never worth 0 (their value, or 50 and 100) |
| Viral.UserName | src/services/ViralGrowthManager.ts:241-244 | the requester's name is never empty: the Telegram first name, or "Игрок" |
| Viral.NewRequest | src/services/ViralGrowthManager.ts:43-58 | a new request is named after the moment, belongs to the player, has the asked help type, expires after the configured cooldown in seconds, and nobody has fulfilled it yet |
| Viral.Available | src/services/ViralGrowthManager.ts:202-206 | the available helps are drawn from the list and are all unused and unexpired |
| Viral.AvailableExactly | src/services/ViralGrowthManager.ts:202-206 | a help is available exactly when it is in the list, unused and unexpired |
| Viral.AvailableConcat | src/services/ViralGrowthManager.ts:202-206 | filtering a concatenation filters each part |
| Viral.FirstUsable | src/services/ViralGrowthManager.ts:117-119 | the help found is the first unused, unexpired help from that friend; none is found exactly when no such help exists |
| Viral.UsingRemovesFromAvailable | src/services/ViralGrowthManager.ts:116-123 | using a help takes exactly that help out of the available ones and leaves the others in order |
| Viral.CutFirst | src/services/ViralGrowthManager.ts:144 | `replace` with a string pattern cuts out exactly the first occurrence of the pattern, wherever it is, and removes at most one occurrence |
| Viral.IndexFrom | src/services/ViralGrowthManager.ts:144 | the search for the pattern from an index gives -1 exactly when it does not occur from there on, and otherwise the first index from there where it occurs |
| Viral.CutFirstAbsent | src/services/ViralGrowthManager.ts:144 | a code in which "REF_" does not occur is left as it is |
| Viral.ReferrerOfOwnCode | src/services/ViralGrowthManager.ts:144-148 | a player's own code "REF_" + id names the player (so it is refused), and an id without the prefix names itself |
| Viral.ViralGrowthManager.constructor | src/services/ViralGrowthManager.ts:17-24 | the manager starts with no configuration, no requests and no helps |
| Viral.ViralGrowthManager.LoadConfig | src/services/ViralGrowthManager.ts:29-38 | a fetched configuration replaces the current one; a failed fetch changes nothing |
| Viral.ViralGrowthManager.RequestHelp | src/services/ViralGrowthManager.ts:43-70 | before the configuration is loaded nothing happens; otherwise the new request is stored under its id and returned |
| Viral.ViralGrowthManager.FulfillHelp | src/services/ViralGrowthManager.ts:75-111 | succeeds exactly when the request exists, has not expired and this friend has not helped yet; success appends one day-long help of the request's type, records the friend on the request (so no friend helps twice) and pays the share reward; failure changes nothing |
| Viral.ViralGrowthManager.UseFriendHelp | src/services/ViralGrowthManager.ts:116-137 | with no usable help from the friend nothing changes; otherwise the first one is marked used and its effect returned (freeze 10, damage or 50, coins or 100, shield of 3 lives), a coins help also paying its coins |
| Viral.ViralGrowthManager.ProcessReferral | src/services/ViralGrowthManager.ts:142-174 | a code naming the player pays nothing; any other code pays the invite bonus into the player's profile |
| Viral.ViralGrowthManager.ShareResult | src/services/ViralGrowthManager.ts:188-197 | sharing pays the share reward into the loaded profile |
| Viral.ViralGrowthManager.GetAvailableHelps | src/services/ViralGrowthManager.ts:202-206 | the helps returned are exactly the unused, unexpired ones |
| Waves.Repeat | src/game/managers/WaveManager.ts:193 | the inner loop's entries: `count` copies of the group, none for a non-positive count |
| Waves.EntriesCount | src/game/managers/WaveManager.ts:192-212 | with non-negative counts the spawn loop schedules exactly as many spawns as `prepareWave` counts enemies |
| Waves.EntriesFromGroups | src/game/managers/WaveManager.ts:192-212 | every scheduled spawn comes from one of the wave's groups |
| Waves.ScheduleOf | src/game/managers/WaveManager.ts:189-213 | one spawn timer per entry |
| Waves.ScheduleSnoc | src/game/managers/WaveManager.ts:194-210 | one more entry adds its own delay to the running total and one timer at the total so far |
| Waves.ScheduleGroupStep | src/game/managers/WaveManager.ts:193-211 | one turn of the inner loop extends the wave's schedule by one timer at the running delay |
| Waves.ScheduleOffsets | src/game/managers/WaveManager.ts:189-213 | entry k spawns its own type after the summed delays of all earlier entries, in milliseconds, so the first entry spawns at once |
| Waves.SchedulePrefix | src/game/managers/WaveManager.ts:189-213 | scheduling more entries never changes the timers already scheduled |
| Waves.PreparedProgress | src/game/managers/WaveManager.ts:126-137 | the progress after preparing the wave at index i: wave i + 1, none spawned, the summed total, the enemies alive; in progress unless the wave is empty and nothing is alive |
| Waves.PreparedEvents | src/game/managers/WaveManager.ts:126-137 | preparing emits one WAVE_COMPLETED exactly when the wave is empty and nothing is alive, and none otherwise |
| Waves.CompletionsAppend | src/game/managers/WaveManager.ts:267 | completions in a joined trace add up |
| Waves.ProgressEvents | src/game/managers/WaveManager.ts:249 | progress updates are not completions |
| Waves.WaveManager.constructor | src/game/managers/WaveManager.ts:28-51 | a new manager has no waves, wave index -1, idle progress, no path, no timers and no events |
| Waves.WaveManager.LoadWaves | src/game/managers/WaveManager.ts:56-80 | the load succeeds exactly when the configuration has the key `map_` + the map id; then the waves are that list and the progress shows wave 0 of its length; otherwise nothing changes |
| Waves.WaveManager.SetPath | src/game/managers/WaveManager.ts:85-87 | the path is set |
| Waves.WaveManager.UpdateWaveProgress | src/game/managers/WaveManager.ts:233-250 | the progress mirrors the manager's counters and the enemies alive; a wave in progress with every enemy spawned and none alive is completed, which clears the spawn timers and emits WAVE_COMPLETED and two progress updates (it throws before emitting when its entry is gone); otherwise one progress update is emitted; each wave completes at most once |
| Waves.WaveManager.EmitProgress | src/game/managers/WaveManager.ts:249 | one progress update carrying the current progress |
| Waves.WaveManager.CompleteWave | src/game/managers/WaveManager.ts:255-278 | no wave in progress changes nothing; otherwise the wave stops, WAVE_COMPLETED carries its number and reward, the spawn timers are cleared and one progress update follows |
| Waves.WaveManager.StartNextWave | src/game/managers/WaveManager.ts:92-121 | a wave in progress or a missing path refuses; otherwise the index advances, past the last wave ALL_WAVES_COMPLETED is emitted and false returned, and otherwise the wave is prepared and started after its delay or at once, and the result is true |
| Waves.WaveManager.BeginWave | src/game/managers/WaveManager.ts:110-118 | the wave at the index is prepared; a positive delay on any wave but the first schedules its start, otherwise it starts now |
| Waves.WaveManager.PrepareWave | src/game/managers/WaveManager.ts:126-137 | the total is the summed group counts, nothing has spawned, and the progress and events are those of `PreparedProgress` and `PreparedEvents` |
| Waves.WaveManager.ScheduleWaveStart | src/game/managers/WaveManager.ts:142-166 | a pending start timer for the wave is added and becomes the current one |
| Waves.WaveManager.ExecuteWaveStart | src/game/managers/WaveManager.ts:171-184 | the wave shows as in progress with no wait left, WAVE_STARTED carries its number and description, and its whole spawn schedule is added |
| Waves.WaveManager.SpawnWaveEnemies | src/game/managers/WaveManager.ts:189-213 | the timers added are exactly the wave's schedule: one per enemy, in group order, at the running delay |
| Waves.WaveManager.ScheduleGroup | src/game/managers/WaveManager.ts:193-211 | one group's inner loop adds its part of the schedule and carries the running delay on |
| Waves.WaveManager.DispatchWaveStart | src/game/managers/WaveManager.ts:158-165 | only a pending start timer fires; it starts its wave as `ExecuteWaveStart` does and is marked dispatched |
| Waves.WaveManager.DispatchSpawn | src/game/managers/WaveManager.ts:194-207 | only an undispatched spawn timer fires, and is marked fired; with a path the enemy manager creates an enemy of the timer's type as `createEnemy` does (a fresh active enemy at the path's first point with ENEMY_SPAWNED, or nothing for an unknown type); when creation does not throw the spawn count rises by one and the progress is refreshed as `updateWaveProgress` does |
| Waves.WaveManager.SpawnCallback | src/game/managers/WaveManager.ts:196-204 | the spawn timer's callback: with a path the enemy manager creates an enemy of the type as `createEnemy` does; when creation does not throw the spawn count rises by one and the progress is refreshed as `updateWaveProgress` does (progress update, or completion with WAVE_COMPLETED and the spawn timers cancelled); without a path nothing changes |
| Waves.WaveManager.SkipWaveDelay | src/game/managers/WaveManager.ts:218-228 | only a start timer that has not fired is skipped: it is destroyed and forgotten, and the wave at the current index, if any, starts at once |
| Waves.WaveManager.Reset | src/game/managers/WaveManager.ts:297-321 | the index is -1, nothing is in progress, the counters are 0, the start timer is destroyed and forgotten, the spawn timers are cleared and the progress shows 0 of the loaded waves |

## Left out

- Rendering, tweens and visuals are not modelled:
  - enemy health bars, colours and tween positions between waypoints;
  - hit and splash graphics (`createHitEffect`, `createSplashEffect`);
  - effect tints and `resetEnemyVisuals`;
  - range circles.
- Timers are not modelled: the 100 ms effect loop (`startEffectLoop`), `effectTimers`, and the per-second wave countdown (`progressUpdate` and the ticking `timeUntilNextWave` in `scheduleWaveStart`). The model keeps the state these timers change and the events they trigger.
- `WaveManager` subscribes to ENEMY_DIED and REACHED_END in its constructor; that wiring is not modelled. `Waves.WaveManager.UpdateWaveProgress` is the handler the environment calls.
- An enemy emits `reachedEnd` from inside its constructor, before any listener can subscribe, when its path is too short. The model records the event; it does not model that no one hears it.
- Projectile homing flight (cos/sin steering) is replaced by an `arrived` input per projectile: hit now or still flying.
- `fetch` and `JSON` loading (`loadWaves`, `loadEnemyConfigs`, `loadTowerConfigs`, `loadMapConfig`, the service configs) take already-parsed data as parameters. Saves to `localStorage` and console output are not modelled.
- `MapManager.createPath`'s total distance needs a square root of floating-point coordinates and is not modelled. `getCurrentMap` is a plain getter.
- `TowerSystem.getAvailableTowerTypes` is not modelled: it lists JavaScript `Map` keys and has no logic.
- `setupInputHandlers` is not modelled; it only wires clicks to `GetTowerAt` and `SelectTower`.
- `GameScene.updateTowers` only logs and is not modelled.
- `GameScene` `create`, `createUI`, `createBuildButtons`, the `startWave` loop timer, enemy tween movement and `updateUI` are scene set-up and display.
- `EnemyManager.update` has an empty body.
- A missing `splashDamage` multiplier makes the source compute `NaN` damage. The model reads it as 0.
- JavaScript `NaN` truthiness in general is not modelled.
- Effects.EffectSystem.UpdateEffects: a JavaScript `Map.forEach` would visit again an entry deleted and re-added during the pass. The model visits each entry once and proves that a second visit at the same moment changes nothing (`Effects.SecondVisitQuiet`).
- Effects.EffectSystem.ApplyEffect requires a non-zero slow amount. In the source such a slow sets the speed to 0, and no other slow can replace it while it lasts. Its removal then divides 0 by 0 and leaves the speed NaN.
- Effects.EffectSystem.UpdateEffects: the caller supplies the visit order as a list of exactly the map's keys. The model's map does not record the JavaScript `Map` insertion order, which a kill's `delete` and `set` change. The order of the tick and expiry events follows the given order.
- Projectiles.ProjectileSystem.HandleSplashDamage requires a positive radius, which the source divides by.
- Monetization.MonetizationStack.ClaimReward, `ClaimRewards` and `LevelUpBattlePass` require a loaded profile. Their only caller, `addBattlePassXP`, has just fetched or created it.
- Retention.RetentionEngine.ProcessReward and `ProcessRewards` require a loaded profile, which `claimDailyReward` has just fetched or created.
- Telegram share links, alerts and the user lookup are not modelled. The user's first name is a parameter.
- Stars payments always succeed, as the stub does.
- `sendToServer`, `getGlobalLeaderboard` and `getDailyChallenge` are stubs.
- `grantReferrerBonus` only logs.
- `getReferrals` always returns an empty list, so the "code already used" check never refuses.
- Seasonal event windows arrive already split into month and day numbers; the `MM-DD` string parsing is not modelled.
- Analytics.TowerTypes: `tower_built` events without a tower type are not counted. The source would count them under the key `undefined`.
- EnemyManagers.StringToEnemyType: the game's `EnemyType` enum has only SLOW, FAST and TANK, so `EnemyType.SWARM` is `undefined` at run time. The model's `Swarm` tag stands for that undefined type value.
- EnemyManagers.StringToEnemyType lower-cases ASCII letters only. JavaScript's `toLowerCase` is Unicode-aware (it maps the Kelvin sign to `k`, for one); that is not modelled.
- The source shares object references: the default profile is shallow-copied, and stored requests and records are aliased. The model treats these as values, with two exceptions. The tower configuration an upgrade mutates is the shared `Towers.TowerConfig` object. The default settings that `getSettings` hands out without a profile, and that a remove-ads purchase writes, are the service's mutable `defaultProfile` (`Monetization.DefaultsAfter`).
- Profiles.PlayerProfileService: a profile created as `{ ...defaultProfile }` shares its lists, statistics and daily-reward record with the defaults, so later in-place changes to the profile also reach the defaults. They would show only through a second `initialize`, and the model keeps those parts of the defaults fixed.
- Retention.WrappedWindowNeverActive: stated for windows of days that exist in the calendar only. A day past its month's end rolls over as `Date` does (`Retention.EndRollsIntoMarch`), so an out-of-range day can make such a window active.
- Retention.Active reads the moment as a local calendar day and the milliseconds since its midnight; time zones and daylight-saving shifts are not modelled.
