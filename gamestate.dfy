// The game's phase machine and its session bookkeeping: the basic state the
// HUD shows (coins, lives, wave, score, game over), the extended state (phase,
// map, timing) and the per-session counters, with the partial merges that
// the rest of the game uses to update them.
module GameStates {
  import opened Common

  datatype Phase = Menu | Loading | Playing | Paused | Victory | Defeat

  /** The basic game state. */
  datatype GameState = GameState(coins: int, lives: int, currentWave: int, score: int, isGameOver: bool)

  /** A `Partial<GameState>`: a field given as `Some` replaces the current one. */
  datatype StateUpdate = StateUpdate(coins: Option<int>, lives: Option<int>, currentWave: Option<int>,
                                     score: Option<int>, isGameOver: Option<bool>)

  datatype ExtendedState = ExtendedState(phase: Phase, currentMap: Option<string>, currentWave: int,
                                         startTime: real, playTime: real, isInitialized: bool)

  datatype SessionStats = SessionStats(enemiesKilled: int, towersBuilt: int, towersUpgraded: int, coinsEarned: int,
                                       coinsSpent: int, wavesCompleted: int, perfectWaves: int)

  /** A `Partial<GameSessionStats>`. */
  datatype StatsUpdate = StatsUpdate(enemiesKilled: Option<int>, towersBuilt: Option<int>, towersUpgraded: Option<int>,
                                     coinsEarned: Option<int>, coinsSpent: Option<int>, wavesCompleted: Option<int>,
                                     perfectWaves: Option<int>)

  /** The emitted events; the profile a game starts from is reduced to its coins. */
  datatype StateEvent =
    | PhaseChanged(oldPhase: Phase, newPhase: Phase, state: ExtendedState)
    | GameStarted(mapId: string, profileCoins: int)
    | GameVictory(score: int, playTime: real, wavesCompleted: int, stats: SessionStats)
    | GameDefeat(score: int, playTime: real, wave: int, stats: SessionStats)
    | GameRestart

  const ZeroStats := SessionStats(0, 0, 0, 0, 0, 0, 0)

  const InitialExtended := ExtendedState(Menu, None, 0, 0.0, 0.0, false)

  function Pick<T>(given: Option<T>, current: T): T
  {
    if given.Some? then given.value else current
  }

  /** `{ ...s, ...u }`: every field u gives is replaced, every other one kept. */
  function MergeState(s: GameState, u: StateUpdate): (r: GameState)
    ensures u.coins.Some? ==> r.coins == u.coins.value
    ensures u.coins.None? ==> r.coins == s.coins
    ensures u.lives.Some? ==> r.lives == u.lives.value
    ensures u.lives.None? ==> r.lives == s.lives
    ensures u.currentWave.Some? ==> r.currentWave == u.currentWave.value
    ensures u.currentWave.None? ==> r.currentWave == s.currentWave
    ensures u.score.Some? ==> r.score == u.score.value
    ensures u.score.None? ==> r.score == s.score
    ensures u.isGameOver.Some? ==> r.isGameOver == u.isGameOver.value
    ensures u.isGameOver.None? ==> r.isGameOver == s.isGameOver
  {
    GameState(Pick(u.coins, s.coins), Pick(u.lives, s.lives), Pick(u.currentWave, s.currentWave),
              Pick(u.score, s.score), Pick(u.isGameOver, s.isGameOver))
  }

  /** Two updates in a row, as one: the later one wins where both give a field. */
  function ThenState(u: StateUpdate, v: StateUpdate): StateUpdate
  {
    StateUpdate(if v.coins.Some? then v.coins else u.coins, if v.lives.Some? then v.lives else u.lives,
                if v.currentWave.Some? then v.currentWave else u.currentWave,
                if v.score.Some? then v.score else u.score,
                if v.isGameOver.Some? then v.isGameOver else u.isGameOver)
  }

  const NoStateUpdate := StateUpdate(None, None, None, None, None)

  /** Merging nothing keeps the state; merging twice is merging once; two merges compose. */
  lemma MergeStateLaws(s: GameState, u: StateUpdate, v: StateUpdate)
    ensures MergeState(s, NoStateUpdate) == s
    ensures MergeState(MergeState(s, u), u) == MergeState(s, u)
    ensures MergeState(MergeState(s, u), v) == MergeState(s, ThenState(u, v))
  {
  }

  /** `{ ...s, ...u }` on the session counters. */
  function MergeStats(s: SessionStats, u: StatsUpdate): (r: SessionStats)
    ensures u.enemiesKilled.Some? ==> r.enemiesKilled == u.enemiesKilled.value
    ensures u.enemiesKilled.None? ==> r.enemiesKilled == s.enemiesKilled
    ensures u.towersBuilt.Some? ==> r.towersBuilt == u.towersBuilt.value
    ensures u.towersBuilt.None? ==> r.towersBuilt == s.towersBuilt
    ensures u.towersUpgraded.Some? ==> r.towersUpgraded == u.towersUpgraded.value
    ensures u.towersUpgraded.None? ==> r.towersUpgraded == s.towersUpgraded
    ensures u.coinsEarned.Some? ==> r.coinsEarned == u.coinsEarned.value
    ensures u.coinsEarned.None? ==> r.coinsEarned == s.coinsEarned
    ensures u.coinsSpent.Some? ==> r.coinsSpent == u.coinsSpent.value
    ensures u.coinsSpent.None? ==> r.coinsSpent == s.coinsSpent
    ensures u.wavesCompleted.Some? ==> r.wavesCompleted == u.wavesCompleted.value
    ensures u.wavesCompleted.None? ==> r.wavesCompleted == s.wavesCompleted
    ensures u.perfectWaves.Some? ==> r.perfectWaves == u.perfectWaves.value
    ensures u.perfectWaves.None? ==> r.perfectWaves == s.perfectWaves
  {
    SessionStats(Pick(u.enemiesKilled, s.enemiesKilled), Pick(u.towersBuilt, s.towersBuilt),
                 Pick(u.towersUpgraded, s.towersUpgraded), Pick(u.coinsEarned, s.coinsEarned),
                 Pick(u.coinsSpent, s.coinsSpent), Pick(u.wavesCompleted, s.wavesCompleted),
                 Pick(u.perfectWaves, s.perfectWaves))
  }

  /** Merging no counters keeps them, and merging the same counters twice is merging them once. */
  lemma MergeStatsLaws(s: SessionStats, u: StatsUpdate)
    ensures MergeStats(s, StatsUpdate(None, None, None, None, None, None, None)) == s
    ensures MergeStats(MergeStats(s, u), u) == MergeStats(s, u)
  {
  }

  /** The phase `pauseGame` leaves: only a game being played pauses. */
  function PauseStep(p: Phase): (r: Phase)
    ensures r != p <==> p == Playing
    ensures r != p ==> r == Paused
  {
    if p == Playing then Paused else p
  }

  /** The phase `resumeGame` leaves: only a paused game resumes. */
  function ResumeStep(p: Phase): (r: Phase)
    ensures r != p <==> p == Paused
    ensures r != p ==> r == Playing
  {
    if p == Paused then Playing else p
  }

  /**
   * Pausing and then resuming gets back every phase except a paused one
   * (which resumes into play), and pausing twice is pausing once.
   */
  lemma PauseResume(p: Phase)
    ensures p != Paused ==> ResumeStep(PauseStep(p)) == p
    ensures p == Paused ==> ResumeStep(PauseStep(p)) == Playing
    ensures PauseStep(PauseStep(p)) == PauseStep(p)
    ensures ResumeStep(ResumeStep(p)) == ResumeStep(p)
  {
  }

  /** The central game state manager; the scene clock is passed in as `now` (milliseconds). */
  class GameStateManager {
    var gameState: GameState
    var extendedState: ExtendedState
    var sessionStats: SessionStats
    /** Whether the Phaser scene is paused. */
    var scenePaused: bool
    var events: seq<StateEvent>

    /** The basic state is a copy of the given one; the phase is MENU and every counter 0. */
    constructor (initialGameState: GameState)
      ensures gameState == initialGameState && extendedState == InitialExtended && sessionStats == ZeroStats
      ensures !scenePaused && events == []
    {
      gameState := initialGameState;
      extendedState := InitialExtended;
      sessionStats := ZeroStats;
      scenePaused := false;
      events := [];
    }

    /** `changePhase`: sets the phase and emits the old and new phase with the new extended state. */
    method ChangePhase(newPhase: Phase)
      modifies this`extendedState, this`events
      ensures extendedState == old(extendedState).(phase := newPhase)
      ensures events == old(events) + [PhaseChanged(old(extendedState.phase), newPhase, extendedState)]
    {
      var oldPhase := extendedState.phase;
      extendedState := extendedState.(phase := newPhase);
      events := events + [PhaseChanged(oldPhase, newPhase, extendedState)];
    }

    /**
     * `startGame`: loading the map, the clock started, the coins taken from
     * the profile, wave and score 0, not over, and every counter 0.
     */
    method StartGame(mapId: string, profileCoins: int, now: real)
      modifies this`extendedState, this`gameState, this`sessionStats, this`events
      ensures extendedState == old(extendedState).(phase := Loading, currentMap := Some(mapId), startTime := now,
                                                    playTime := 0.0)
      ensures gameState == old(gameState).(coins := profileCoins, currentWave := 0, score := 0, isGameOver := false)
      ensures gameState.lives == old(gameState.lives)
      ensures sessionStats == ZeroStats
      ensures events == old(events) + [GameStarted(mapId, profileCoins)]
    {
      extendedState := extendedState.(phase := Loading, currentMap := Some(mapId), startTime := now, playTime := 0.0);
      gameState := gameState.(coins := profileCoins, currentWave := 0, score := 0, isGameOver := false);
      sessionStats := ZeroStats;
      events := events + [GameStarted(mapId, profileCoins)];
    }

    /**
     * `enterPlayingPhase`: the phase is set to PLAYING before the change is
     * announced, so the event reports PLAYING as the old phase too.
     */
    method EnterPlayingPhase()
      modifies this`extendedState, this`events
      ensures extendedState == old(extendedState).(phase := Playing, isInitialized := true)
      ensures events == old(events) + [PhaseChanged(Playing, Playing, extendedState)]
    {
      extendedState := extendedState.(phase := Playing, isInitialized := true);
      ChangePhase(Playing);
    }

    /** `pauseGame`: only from PLAYING, which pauses the scene and moves to PAUSED. */
    method PauseGame()
      modifies this`scenePaused, this`extendedState, this`events
      ensures extendedState.phase == PauseStep(old(extendedState.phase))
      ensures old(extendedState.phase) != Playing ==> unchanged(this)
      ensures old(extendedState.phase) == Playing ==>
        scenePaused && extendedState == old(extendedState).(phase := Paused)
        && events == old(events) + [PhaseChanged(Playing, Paused, extendedState)]
    {
      if extendedState.phase == Playing {
        scenePaused := true;
        ChangePhase(Paused);
      }
    }

    /** `resumeGame`: only from PAUSED, which resumes the scene and moves to PLAYING. */
    method ResumeGame()
      modifies this`scenePaused, this`extendedState, this`events
      ensures extendedState.phase == ResumeStep(old(extendedState.phase))
      ensures old(extendedState.phase) != Paused ==> unchanged(this)
      ensures old(extendedState.phase) == Paused ==>
        !scenePaused && extendedState == old(extendedState).(phase := Playing)
        && events == old(events) + [PhaseChanged(Paused, Playing, extendedState)]
    {
      if extendedState.phase == Paused {
        scenePaused := false;
        ChangePhase(Playing);
      }
    }

    /** Seconds since the game started. */
    function Elapsed(now: real): real
      reads this
    {
      (now - extendedState.startTime) / 1000.0
    }

    /** `handleVictory`: VICTORY, the play time fixed, and the score, time, wave and counters reported. */
    method HandleVictory(now: real)
      modifies this`extendedState, this`events
      ensures extendedState == old(extendedState).(phase := Victory, playTime := old(Elapsed(now)))
      ensures events == old(events) + [PhaseChanged(Victory, Victory, extendedState),
                                       GameVictory(gameState.score, extendedState.playTime,
                                                   extendedState.currentWave, sessionStats)]
    {
      extendedState := extendedState.(phase := Victory, playTime := Elapsed(now));
      var data := GameVictory(gameState.score, extendedState.playTime, extendedState.currentWave, sessionStats);
      ChangePhase(Victory);
      events := events + [data];
    }

    /** `handleDefeat`: DEFEAT, the play time fixed, and the score, time, wave and counters reported. */
    method HandleDefeat(now: real)
      modifies this`extendedState, this`events
      ensures extendedState == old(extendedState).(phase := Defeat, playTime := old(Elapsed(now)))
      ensures events == old(events) + [PhaseChanged(Defeat, Defeat, extendedState),
                                       GameDefeat(gameState.score, extendedState.playTime,
                                                  extendedState.currentWave, sessionStats)]
    {
      extendedState := extendedState.(phase := Defeat, playTime := Elapsed(now));
      var data := GameDefeat(gameState.score, extendedState.playTime, extendedState.currentWave, sessionStats);
      ChangePhase(Defeat);
      events := events + [data];
    }

    /** `restartGame`: back to MENU with score and wave 0 and not over; coins, lives and counters are kept. */
    method RestartGame()
      modifies this`extendedState, this`gameState, this`events
      ensures extendedState == old(extendedState).(phase := Menu)
      ensures gameState == old(gameState).(isGameOver := false, score := 0, currentWave := 0)
      ensures events == old(events) + [PhaseChanged(Menu, Menu, extendedState), GameRestart]
    {
      extendedState := extendedState.(phase := Menu);
      gameState := gameState.(isGameOver := false, score := 0, currentWave := 0);
      ChangePhase(Menu);
      events := events + [GameRestart];
    }

    /** `update`: the play time runs only while playing. */
    method Update(now: real)
      modifies this`extendedState
      ensures old(extendedState.phase) == Playing ==>
        extendedState == old(extendedState).(playTime := old(Elapsed(now)))
      ensures old(extendedState.phase) != Playing ==> extendedState == old(extendedState)
    {
      if extendedState.phase == Playing {
        extendedState := extendedState.(playTime := Elapsed(now));
      }
    }

    /** `updateGameState`: a partial merge into the basic state. */
    method UpdateGameState(updates: StateUpdate)
      modifies this`gameState
      ensures gameState == MergeState(old(gameState), updates)
    {
      gameState := MergeState(gameState, updates);
    }

    /** `updateWave`: the extended and the basic wave both become the given one. */
    method UpdateWave(waveNumber: int)
      modifies this`extendedState, this`gameState
      ensures extendedState == old(extendedState).(currentWave := waveNumber)
      ensures gameState == old(gameState).(currentWave := waveNumber)
    {
      extendedState := extendedState.(currentWave := waveNumber);
      gameState := gameState.(currentWave := waveNumber);
    }

    /** `updateStats`: a partial merge into the session counters. */
    method UpdateStats(stats: StatsUpdate)
      modifies this`sessionStats
      ensures sessionStats == MergeStats(old(sessionStats), stats)
    {
      sessionStats := MergeStats(sessionStats, stats);
    }

    function GetGameState(): GameState
      reads this
    {
      gameState
    }

    function GetExtendedState(): ExtendedState
      reads this
    {
      extendedState
    }

    function GetSessionStats(): SessionStats
      reads this
    {
      sessionStats
    }

    function IsPhase(phase: Phase): bool
      reads this
    {
      extendedState.phase == phase
    }
  }
}
