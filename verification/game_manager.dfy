/**
 * The match rules: the game state (Playing, Paused, GameOver), the countdown
 * timer, passive scoring from controlled capture points and the win check.
 */
module Match {
  import opened Wrappers
  import opened CapturePoints
  import opened TargetCoordination

  /** `GameManager.GameState`. */
  datatype GameState = MainMenu | Playing | Paused | GameOver

  /** The number of existing capture points whose status is `status`; a
      destroyed point (`None`) is skipped. */
  function CountStatus(statuses: seq<Option<PointStatus>>, status: PointStatus): nat {
    if statuses == [] then 0
    else
      CountStatus(statuses[..|statuses| - 1], status) +
      (if statuses[|statuses| - 1] == Some(status) then 1 else 0)
  }

  /** The count is at most the number of points, and zero exactly when no
      point has the status. */
  lemma {:induction false} CountStatusBounds(statuses: seq<Option<PointStatus>>, status: PointStatus)
    ensures CountStatus(statuses, status) <= |statuses|
    ensures CountStatus(statuses, status) == 0 <==> forall i :: 0 <= i < |statuses| ==> statuses[i] != Some(status)
  {
    if statuses != [] {
      var prefix := statuses[..|statuses| - 1];
      CountStatusBounds(prefix, status);
      assert forall i :: 0 <= i < |prefix| ==> prefix[i] == statuses[i];
    }
  }

  /** The per-second gain the scoring loop accumulates for the team whose
      points have `status`: `rate` per such point. */
  function ScoreGain(statuses: seq<Option<PointStatus>>, status: PointStatus, rate: real): real {
    if statuses == [] then 0.0
    else
      ScoreGain(statuses[..|statuses| - 1], status, rate) +
      (if statuses[|statuses| - 1] == Some(status) then rate else 0.0)
  }

  /** The accumulated gain is the rate times the number of points the team
      controls. */
  lemma {:induction false} ScoreGainIsRateTimesCount(statuses: seq<Option<PointStatus>>, status: PointStatus, rate: real)
    ensures ScoreGain(statuses, status, rate) == rate * CountStatus(statuses, status) as real
  {
    if statuses != [] {
      var prefix := statuses[..|statuses| - 1];
      ScoreGainIsRateTimesCount(prefix, status, rate);
    }
  }

  /** Every field of the manager that a frame can change, including the
      winner the last `EndGame` reported. */
  datatype Board = Board(state: GameState, playerScore: real, enemyScore: real, gameTime: real,
                         timerRunning: bool, timeScale: real, winner: Option<string>)

  /** `EndGame(w)` on a board: only a game in progress ends. */
  function Ended(b: Board, w: string): Board {
    if b.state != Playing then b
    else b.(state := GameOver, timerRunning := false, timeScale := 0.0, winner := Some(w))
  }

  /** The timer step of a playing frame: a running timer loses `dt`, and one
      that reaches zero stops at zero and ends the game with no winner. */
  function TimerStep(b: Board, dt: real): Board {
    if !b.timerRunning then b
    else if b.gameTime - dt <= 0.0 then Ended(b.(gameTime := 0.0, timerRunning := false), "None")
    else b.(gameTime := b.gameTime - dt)
  }

  /** One frame of `UpdatePlayingState` on a board: the timer step, then the
      scores grow by each team's controlled count times `rate` times `dt`,
      then the first score at `scoreToWin` (the player's checked first) ends
      the game. */
  function PlayingFrame(b: Board, dt: real, statuses: seq<Option<PointStatus>>,
                        scoreToWin: real, rate: real): Board {
    var t := TimerStep(b, dt);
    var s := t.(playerScore := t.playerScore + rate * CountStatus(statuses, ControlledPlayer) as real * dt,
                enemyScore := t.enemyScore + rate * CountStatus(statuses, ControlledEnemy) as real * dt);
    if s.playerScore >= scoreToWin then Ended(s, "Player")
    else if s.enemyScore >= scoreToWin then Ended(s, "Enemy")
    else s
  }

  /**
   * What a playing frame does: the timer runs down and, on reaching zero,
   * stops at zero and ends the game with winner "None"; both scores grow by
   * their controlled counts; otherwise a score at the threshold ends the game
   * for the player first, then the enemy; a game that does not end keeps
   * playing with its timer flag, time scale and winner; and a game that ends
   * has its timer stopped and time frozen.
   */
  lemma PlayingFrameOutcome(b: Board, dt: real, statuses: seq<Option<PointStatus>>, scoreToWin: real, rate: real)
    requires b.state == Playing
    ensures var r := PlayingFrame(b, dt, statuses, scoreToWin, rate);
      var t := b.gameTime - dt;
      var expired := b.timerRunning && t <= 0.0;
      r.gameTime == (if !b.timerRunning then b.gameTime else if expired then 0.0 else t) &&
      r.playerScore == b.playerScore + rate * CountStatus(statuses, ControlledPlayer) as real * dt &&
      r.enemyScore == b.enemyScore + rate * CountStatus(statuses, ControlledEnemy) as real * dt &&
      (expired ==> r.state == GameOver && r.winner == Some("None")) &&
      (!expired && r.playerScore >= scoreToWin ==> r.state == GameOver && r.winner == Some("Player")) &&
      (!expired && r.playerScore < scoreToWin && r.enemyScore >= scoreToWin ==>
         r.state == GameOver && r.winner == Some("Enemy")) &&
      (!expired && r.playerScore < scoreToWin && r.enemyScore < scoreToWin ==>
         r == b.(gameTime := r.gameTime, playerScore := r.playerScore, enemyScore := r.enemyScore)) &&
      (r.state == GameOver ==> !r.timerRunning && r.timeScale == 0.0) &&
      (r.state == Playing || r.state == GameOver)
  {
  }

  /** `GameManager`. `timeScale` is the engine's `Time.timeScale`, which the
      manager writes; `winner` records the winner the last `EndGame` reported. */
  class GameManager {
    const scoreToWin: real
    const pointsPerSecondPerPoint: real
    const gameTimeLimit: real
    var currentGameState: GameState
    var playerScore: real
    var enemyScore: real
    var currentGameTime: real
    var isTimerRunning: bool
    var timeScale: real
    ghost var winner: Option<string>

    /** The manager's changeable fields as a board. */
    ghost function Snapshot(): Board
      reads this
    {
      Board(currentGameState, playerScore, enemyScore, currentGameTime, isTimerRunning, timeScale, winner)
    }

    /** The field initialisers. */
    constructor (scoreToWin: real, pointsPerSecondPerPoint: real, gameTimeLimit: real)
      ensures this.scoreToWin == scoreToWin && this.pointsPerSecondPerPoint == pointsPerSecondPerPoint
      ensures this.gameTimeLimit == gameTimeLimit
      ensures currentGameState == Playing && playerScore == 0.0 && enemyScore == 0.0
      ensures currentGameTime == 0.0 && !isTimerRunning && timeScale == 1.0 && winner == None
    {
      this.scoreToWin := scoreToWin;
      this.pointsPerSecondPerPoint := pointsPerSecondPerPoint;
      this.gameTimeLimit := gameTimeLimit;
      currentGameState := Playing;
      playerScore := 0.0;
      enemyScore := 0.0;
      currentGameTime := 0.0;
      isTimerRunning := false;
      timeScale := 1.0;
      winner := None;
    }

    /** `Awake` (the singleton bookkeeping aside): clears the enemy claim
        registry. */
    method Awake(registry: TargetRegistry)
      modifies registry
      ensures registry.targeters == map[]
    {
      registry.ResetTargetCounts();
    }

    /** `InitializeGame`, run by `Start`. */
    method InitializeGame()
      modifies this
      ensures currentGameState == Playing && playerScore == 0.0 && enemyScore == 0.0
      ensures currentGameTime == gameTimeLimit && isTimerRunning && timeScale == 1.0
      ensures winner == old(winner)
    {
      currentGameState := Playing;
      playerScore := 0.0;
      enemyScore := 0.0;
      currentGameTime := gameTimeLimit;
      isTimerRunning := true;
      timeScale := 1.0;
    }

    /** `PauseGame`: only a game in progress pauses. */
    method PauseGame()
      modifies this
      ensures old(currentGameState) == Playing ==> currentGameState == Paused && timeScale == 0.0
      ensures old(currentGameState) != Playing ==> currentGameState == old(currentGameState) && timeScale == old(timeScale)
      ensures playerScore == old(playerScore) && enemyScore == old(enemyScore)
      ensures currentGameTime == old(currentGameTime) && isTimerRunning == old(isTimerRunning) && winner == old(winner)
    {
      if currentGameState != Playing {
        return;
      }
      currentGameState := Paused;
      timeScale := 0.0;
    }

    /** `ResumeGame` (also the Resume button): only a paused game resumes. */
    method ResumeGame()
      modifies this
      ensures old(currentGameState) == Paused ==> currentGameState == Playing && timeScale == 1.0
      ensures old(currentGameState) != Paused ==> currentGameState == old(currentGameState) && timeScale == old(timeScale)
      ensures playerScore == old(playerScore) && enemyScore == old(enemyScore)
      ensures currentGameTime == old(currentGameTime) && isTimerRunning == old(isTimerRunning) && winner == old(winner)
    {
      if currentGameState != Paused {
        return;
      }
      currentGameState := Playing;
      timeScale := 1.0;
    }

    /** `EndGame(winner)`: only a game in progress ends; a second call does
        nothing. */
    method EndGame(w: string)
      modifies this
      ensures old(currentGameState) == Playing ==>
        currentGameState == GameOver && !isTimerRunning && timeScale == 0.0 && winner == Some(w)
      ensures old(currentGameState) != Playing ==>
        currentGameState == old(currentGameState) && isTimerRunning == old(isTimerRunning) &&
        timeScale == old(timeScale) && winner == old(winner)
      ensures playerScore == old(playerScore) && enemyScore == old(enemyScore)
      ensures currentGameTime == old(currentGameTime)
    {
      if currentGameState != Playing {
        return;
      }
      currentGameState := GameOver;
      isTimerRunning := false;
      timeScale := 0.0;
      winner := Some(w);
    }

    /**
     * The scoring loop: every existing point controlled by the player adds
     * `pointsPerSecondPerPoint` to the player's gain, every point controlled
     * by the enemy to the enemy's; other statuses add nothing.
     */
    method ScoreGains(statuses: seq<Option<PointStatus>>) returns (playerGain: real, enemyGain: real)
      ensures playerGain == pointsPerSecondPerPoint * CountStatus(statuses, ControlledPlayer) as real
      ensures enemyGain == pointsPerSecondPerPoint * CountStatus(statuses, ControlledEnemy) as real
    {
      ScoreGainIsRateTimesCount(statuses, ControlledPlayer, pointsPerSecondPerPoint);
      ScoreGainIsRateTimesCount(statuses, ControlledEnemy, pointsPerSecondPerPoint);
      playerGain := 0.0;
      enemyGain := 0.0;
      for i := 0 to |statuses|
        invariant playerGain == ScoreGain(statuses[..i], ControlledPlayer, pointsPerSecondPerPoint)
        invariant enemyGain == ScoreGain(statuses[..i], ControlledEnemy, pointsPerSecondPerPoint)
      {
        assert statuses[..i + 1][..i] == statuses[..i];
        var point := statuses[i];
        if point.None? {
          continue;
        }
        if point.value == ControlledPlayer {
          playerGain := playerGain + pointsPerSecondPerPoint;
        } else if point.value == ControlledEnemy {
          enemyGain := enemyGain + pointsPerSecondPerPoint;
        }
      }
      assert statuses[..|statuses|] == statuses;
    }

    /**
     * `UpdatePlayingState`: runs the timer down by `dt` and ends the game with
     * no winner when it runs out; then adds this frame's score gains and ends
     * the game for the player, else the enemy, once a score reaches
     * `scoreToWin` (a game the timer already ended stays ended).
     */
    method UpdatePlayingState(dt: real, statuses: seq<Option<PointStatus>>)
      requires currentGameState == Playing
      modifies this
      ensures var t := old(currentGameTime) - dt;
        var expired := old(isTimerRunning) && t <= 0.0;
        currentGameTime == (if !old(isTimerRunning) then old(currentGameTime) else if expired then 0.0 else t) &&
        playerScore == old(playerScore) + pointsPerSecondPerPoint * CountStatus(statuses, ControlledPlayer) as real * dt &&
        enemyScore == old(enemyScore) + pointsPerSecondPerPoint * CountStatus(statuses, ControlledEnemy) as real * dt &&
        (expired ==> currentGameState == GameOver && winner == Some("None")) &&
        (!expired && playerScore >= scoreToWin ==> currentGameState == GameOver && winner == Some("Player")) &&
        (!expired && playerScore < scoreToWin && enemyScore >= scoreToWin ==>
           currentGameState == GameOver && winner == Some("Enemy")) &&
        (!expired && playerScore < scoreToWin && enemyScore < scoreToWin ==>
           currentGameState == Playing && isTimerRunning == old(isTimerRunning) && winner == old(winner))
      ensures currentGameState == GameOver ==> !isTimerRunning && timeScale == 0.0
      ensures Snapshot() == PlayingFrame(old(Snapshot()), dt, statuses, scoreToWin, pointsPerSecondPerPoint)
    {
      if isTimerRunning {
        currentGameTime := currentGameTime - dt;
        if currentGameTime <= 0.0 {
          currentGameTime := 0.0;
          isTimerRunning := false;
          EndGame("None");
        }
      }
      var currentPlayerScoreGain, currentEnemyScoreGain := ScoreGains(statuses);
      playerScore := playerScore + currentPlayerScoreGain * dt;
      enemyScore := enemyScore + currentEnemyScoreGain * dt;
      if playerScore >= scoreToWin {
        EndGame("Player");
      } else if enemyScore >= scoreToWin {
        EndGame("Enemy");
      }
    }

    /** `Update`: Escape toggles between Playing and Paused, then a game in
        progress runs `UpdatePlayingState`. */
    method Update(escapePressed: bool, dt: real, statuses: seq<Option<PointStatus>>)
      modifies this
      ensures !escapePressed && old(currentGameState) != Playing ==>
        currentGameState == old(currentGameState) && playerScore == old(playerScore) &&
        enemyScore == old(enemyScore) && currentGameTime == old(currentGameTime)
      ensures escapePressed && old(currentGameState) == Playing ==>
        currentGameState == Paused && timeScale == 0.0 && playerScore == old(playerScore) &&
        enemyScore == old(enemyScore) && currentGameTime == old(currentGameTime)
      ensures escapePressed && old(currentGameState) == Playing ==>
        Snapshot() == old(Snapshot()).(state := Paused, timeScale := 0.0)
      ensures old(currentGameState) == GameOver ==> currentGameState == GameOver && winner == old(winner)
      ensures old(currentGameState) == MainMenu ==> currentGameState == MainMenu
      ensures !escapePressed && old(currentGameState) == Playing ==>
        Snapshot() == PlayingFrame(old(Snapshot()), dt, statuses, scoreToWin, pointsPerSecondPerPoint)
      ensures escapePressed && old(currentGameState) == Paused ==>
        Snapshot() == PlayingFrame(old(Snapshot()).(state := Playing, timeScale := 1.0), dt, statuses,
                                   scoreToWin, pointsPerSecondPerPoint)
      ensures (old(currentGameState) == GameOver || old(currentGameState) == MainMenu ||
               (!escapePressed && old(currentGameState) == Paused)) ==>
        Snapshot() == old(Snapshot())
    {
      if escapePressed {
        if currentGameState == Playing {
          PauseGame();
        } else if currentGameState == Paused {
          ResumeGame();
        }
      }
      if currentGameState == Playing {
        UpdatePlayingState(dt, statuses);
      }
    }

    /** `RestartGame` (the scene reload aside): restores the time scale and
        clears the enemy claim registry. */
    method RestartGame(registry: TargetRegistry)
      modifies this, registry
      ensures timeScale == 1.0 && registry.targeters == map[]
      ensures currentGameState == old(currentGameState) && playerScore == old(playerScore) &&
        enemyScore == old(enemyScore)
      ensures Snapshot() == old(Snapshot()).(timeScale := 1.0)
    {
      timeScale := 1.0;
      registry.ResetTargetCounts();
    }
  }

  /**
   * Capture points only ever report Neutral or Contested (no state writes any
   * other status), so the passive scoring never awards anything: the scores
   * stay where they are and only the timer can end the match.
   */
  lemma NoPassiveScore(statuses: seq<Option<PointStatus>>, pointsPerSecondPerPoint: real)
    requires forall i :: 0 <= i < |statuses| ==> statuses[i] in {None, Some(Neutral), Some(Contested)}
    ensures pointsPerSecondPerPoint * CountStatus(statuses, ControlledPlayer) as real == 0.0
    ensures pointsPerSecondPerPoint * CountStatus(statuses, ControlledEnemy) as real == 0.0
  {
    CountStatusBounds(statuses, ControlledPlayer);
    CountStatusBounds(statuses, ControlledEnemy);
  }
}
