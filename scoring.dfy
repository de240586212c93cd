/**
 * Scoring (js/modules/game/ScoringSystem.js): the closed-form line score,
 * level and drop interval, and the line-clear step that updates a game's
 * counters, its wallet and its match statistics.
 */
module Scoring {
  import opened Common
  import Board
  import Currency
  import Achievements

  /** `LINE_SCORES`: points per clear of 1, 2, 3 and 4 lines at level 1. */
  const LineScores: seq<int> := [40, 100, 300, 1200]

  /** `calculateLineScore`: 0 for no line or more than four, otherwise the table entry times the level. */
  function CalculateLineScore(linesCleared: nat, level: int): (points: int)
    ensures linesCleared == 0 || linesCleared > 4 ==> points == 0
    ensures level == 1 && 1 <= linesCleared <= 4 ==> points == LineScores[linesCleared - 1]
  {
    if linesCleared == 0 || linesCleared > 4 then 0
    else LineScores[linesCleared - 1] * level
  }

  /** At a positive level a clear scores points exactly when it removes one to four lines. */
  lemma LineScorePositive(n: nat, level: int)
    requires level >= 1
    ensures CalculateLineScore(n, level) >= 0
    ensures CalculateLineScore(n, level) > 0 <==> 1 <= n <= 4
  {
    if 1 <= n <= 4 {
      MultiplyPreservesOrder(0, LineScores[n - 1], level);
    }
  }

  /** At a positive level, clearing more lines at once always scores more, and a Tetris at level 3 is 3600. */
  lemma LineScoreGrowsWithLines(a: nat, b: nat, level: int)
    requires 1 <= a < b <= 4 && level >= 1
    ensures 0 < CalculateLineScore(a, level) < CalculateLineScore(b, level)
    ensures CalculateLineScore(4, 3) == 3600
  {
    LineScorePositive(a, level);
    assert LineScores[a - 1] < LineScores[b - 1];
    MultiplyPreservesOrder(LineScores[a - 1], LineScores[b - 1], level);
  }

  lemma MultiplyPreservesOrder(x: int, y: int, k: int)
    requires x < y && k >= 1
    ensures x * k < y * k
  {
    assert y * k - x * k == (y - x) * k;
  }

  /** `calculateLevel`: one level per ten lines, starting at 1. */
  function CalculateLevel(totalLines: int): (level: int)
    ensures (level - 1) * 10 <= totalLines < level * 10
  {
    totalLines / 10 + 1
  }

  /** The level is at least 1 for a non-negative line count and never goes down as lines accumulate. */
  lemma LevelMonotone(a: int, b: int)
    requires 0 <= a <= b
    ensures 1 <= CalculateLevel(a) <= CalculateLevel(b)
    ensures CalculateLevel(23) == 3
  {
  }

  /** `calculateDropInterval`: 1000 ms at level 1, 100 ms faster per level, never below 100 ms. */
  function CalculateDropInterval(level: int): (interval: int)
    ensures interval >= 100
    ensures interval == 100 <==> level >= 10
    ensures level <= 10 ==> interval == 1100 - 100 * level
  {
    if 1000 - (level - 1) * 100 > 100 then 1000 - (level - 1) * 100 else 100
  }

  /** For level ≥ 1 the interval is in [100, 1000]; it never grows with the level, and level 5 gives 600. */
  lemma DropIntervalBounds(a: int, b: int)
    requires 1 <= a <= b
    ensures 100 <= CalculateDropInterval(b) <= CalculateDropInterval(a) <= 1000
    ensures CalculateDropInterval(5) == 600
  {
  }

  /**
   * The board half of `processLineClear`: find the completed rows and remove
   * them with the board's `clearLines` as written, that is, spliced out in
   * descending order (see Board.ClearLinesAsWritten). With one completed row
   * this is the intended clear; with two adjacent ones it is not (see
   * Board.DescendingClearLeavesFullRow).
   */
  method RemoveCompletedLines(board: array<seq<int>>) returns (linesCleared: nat)
    requires Board.WellFormed(board[..])
    modifies board
    ensures var found := Board.CompletedLines(old(board[..]));
      linesCleared == |found| && board[..] == Board.ClearedAsWritten(old(board[..]), found)
    ensures var found := Board.CompletedLines(old(board[..]));
      |found| <= 1 ==> board[..] == Board.Cleared(old(board[..]), found)
    ensures linesCleared == 0 ==> board[..] == old(board[..])
    ensures Board.WellFormed(board[..])
  {
    ghost var g := board[..];
    var linesToClear := Board.FindCompletedLines(board);
    linesCleared := 0;
    if |linesToClear| > 0 {
      linesCleared := Board.ClearLinesAsWritten(board, linesToClear);
    } else {
      assert Board.SortAscending([]) == [];
    }
    if |linesToClear| <= 1 {
      Board.SingleClearAsIntended(g, linesToClear);
    }
  }

  /**
   * The Streak reward a clear pays on top of the line reward: only a Tetris
   * that brings the streak to 3 while Streak is still locked unlocks it.
   */
  function StreakBonus(m: map<string, Achievements.Achievement>, linesCleared: int, streakBefore: int): (n: int)
    requires Achievements.Streak in m
    ensures n >= 0
    ensures n > 0 ==> linesCleared == 4 && streakBefore + 1 >= 3 && !m[Achievements.Streak].unlocked
  {
    if linesCleared == 4 && !m[Achievements.Streak].unlocked && streakBefore + 1 >= 3
    then Achievements.Paid(m[Achievements.Streak]) else 0
  }

  /**
   * The `config` record `processLineClear` works on: the board and the counters
   * it updates, the mode flags its callbacks report, the Tetris streak kept by
   * the streak callbacks, the match statistics, the wallet and the achievements.
   */
  class LineClearConfig {
    var board: array<seq<int>>
    var lines: int
    var score: int
    var level: int
    var dropInterval: int
    var aiVsAiMode: bool
    var playerControl: bool
    var currentPlayer: int
    var tetrisStreak: int
    var firstTetris: Option<int>
    var firstToReach1000: Option<int>
    var coins: Currency.TetriCoins
    var achievementSystem: Achievements.AchievementSystem

    /** The board is ROWS x COLS, and the wallet the config pays into is the one achievements pay into. */
    predicate Valid()
      reads this, board, coins, achievementSystem, achievementSystem.coins
    {
      board.Length == Board.Rows && Board.WellFormed(board[..]) &&
      coins.Valid() && achievementSystem.Valid() && achievementSystem.coins == coins &&
      currentPlayer >= 1
    }

    constructor (board: array<seq<int>>, coins: Currency.TetriCoins, achievementSystem: Achievements.AchievementSystem,
                 aiVsAiMode: bool, playerControl: bool, currentPlayer: int)
      requires board.Length == Board.Rows && Board.WellFormed(board[..])
      requires coins.Valid() && achievementSystem.Valid() && achievementSystem.coins == coins
      requires currentPlayer >= 1
      ensures Valid()
      ensures this.board == board && this.coins == coins && this.achievementSystem == achievementSystem
      ensures lines == 0 && score == 0 && level == 1 && dropInterval == 1000 && tetrisStreak == 0
      ensures firstTetris.None? && firstToReach1000.None?
      ensures this.aiVsAiMode == aiVsAiMode && this.playerControl == playerControl && this.currentPlayer == currentPlayer
    {
      this.board := board;
      this.coins := coins;
      this.achievementSystem := achievementSystem;
      this.aiVsAiMode := aiVsAiMode;
      this.playerControl := playerControl;
      this.currentPlayer := currentPlayer;
      lines, score, level, dropInterval, tetrisStreak := 0, 0, 1, 1000, 0;
      firstTetris, firstToReach1000 := None, None;
    }

    /**
     * The part of `processLineClear` that runs for a human player: the coin
     * reward, the Tetris streak (with its achievement) and the first-Tetris
     * statistic. `lastWasTetris` is what the `wasLastClear4Lines` callback
     * reports; `now` is the time stamp of an achievement unlock.
     */
    method RewardPlayer(linesCleared: int, lastWasTetris: bool, now: int)
      requires Valid() && linesCleared > 0
      modifies this, coins, achievementSystem
      ensures Valid()
      ensures board == old(board) && coins == old(coins) && achievementSystem == old(achievementSystem)
      ensures lines == old(lines) && score == old(score) && level == old(level) && dropInterval == old(dropInterval)
      ensures aiVsAiMode == old(aiVsAiMode) && playerControl == old(playerControl) && currentPlayer == old(currentPlayer)
      ensures firstToReach1000 == old(firstToReach1000)
      ensures coins.balance == old(coins.balance) + Currency.GetLineReward(linesCleared) +
                StreakBonus(old(achievementSystem.achievements), linesCleared, old(tetrisStreak))
      ensures tetrisStreak == (if linesCleared == 4 then old(tetrisStreak) + 1
                               else if lastWasTetris then 0 else old(tetrisStreak))
      ensures firstTetris == (if linesCleared == 4 && aiVsAiMode && old(firstTetris).None? then Some(currentPlayer)
                              else old(firstTetris))
    {
      var _ := coins.AwardLinesCleared(linesCleared);
      if linesCleared == 4 {
        tetrisStreak := tetrisStreak + 1;
        achievementSystem.CheckTetrisStreak(tetrisStreak, now);
        if aiVsAiMode && firstTetris.None? {
          firstTetris := Some(currentPlayer);
        }
      } else if lastWasTetris {
        tetrisStreak := 0;
        achievementSystem.ResetTetrisStreak();
      }
    }

    /** The counters after a clear of `linesCleared` rows: the score uses the level from before the clear. */
    method AdvanceCounters(linesCleared: int)
      requires linesCleared >= 0
      modifies this
      ensures lines == old(lines) + linesCleared
      ensures score == old(score) + CalculateLineScore(linesCleared, old(level))
      ensures level == CalculateLevel(lines) && dropInterval == CalculateDropInterval(level)
      ensures board == old(board) && coins == old(coins) && achievementSystem == old(achievementSystem)
      ensures aiVsAiMode == old(aiVsAiMode) && playerControl == old(playerControl) && currentPlayer == old(currentPlayer)
      ensures tetrisStreak == old(tetrisStreak) && firstTetris == old(firstTetris) && firstToReach1000 == old(firstToReach1000)
    {
      lines := lines + linesCleared;
      score := score + CalculateLineScore(linesCleared, level);
      level := CalculateLevel(lines);
      dropInterval := CalculateDropInterval(level);
    }

    /**
     * What `processLineClear` does once `linesCleared > 0` rows are gone: the
     * counters (the score at the level from before the clear), the human
     * player's reward and the score race of an AI-vs-AI match.
     */
    method ApplyLineClear(linesCleared: int, lastWasTetris: bool, now: int)
      requires Valid() && linesCleared > 0
      modifies this, coins, achievementSystem
      ensures Valid()
      ensures board == old(board) && coins == old(coins) && achievementSystem == old(achievementSystem)
      ensures aiVsAiMode == old(aiVsAiMode) && playerControl == old(playerControl) && currentPlayer == old(currentPlayer)
      ensures lines == old(lines) + linesCleared
      ensures score == old(score) + CalculateLineScore(linesCleared, old(level))
      ensures level == CalculateLevel(lines) && dropInterval == CalculateDropInterval(level)
      ensures !aiVsAiMode || playerControl ==>
                coins.balance == old(coins.balance) + Currency.GetLineReward(linesCleared) +
                  StreakBonus(old(achievementSystem.achievements), linesCleared, old(tetrisStreak)) &&
                tetrisStreak == (if linesCleared == 4 then old(tetrisStreak) + 1
                                 else if lastWasTetris then 0 else old(tetrisStreak))
      ensures aiVsAiMode && !playerControl ==>
                coins.balance == old(coins.balance) && tetrisStreak == old(tetrisStreak) &&
                achievementSystem.achievements == old(achievementSystem.achievements)
      ensures firstTetris == (if linesCleared == 4 && aiVsAiMode && playerControl && old(firstTetris).None?
                              then Some(currentPlayer) else old(firstTetris))
      ensures firstToReach1000 == (if aiVsAiMode && old(firstToReach1000).None? && score >= 1000
                                   then Some(currentPlayer) else old(firstToReach1000))
    {
      AdvanceCounters(linesCleared);
      if !aiVsAiMode || playerControl {
        RewardPlayer(linesCleared, lastWasTetris, now);
      }
      if aiVsAiMode && firstToReach1000.None? && score >= 1000 {
        firstToReach1000 := Some(currentPlayer);
      }
    }

    /**
     * `processLineClear`: finds the completed rows, removes them with the
     * board's descending `clearLines` as written (see RemoveCompletedLines),
     * and updates the counters, the player's reward and the match statistics.
     */
    method ProcessLineClear(lastWasTetris: bool, now: int) returns (linesCleared: int)
      requires Valid()
      modifies this, board, coins, achievementSystem
      ensures Valid()
      ensures board == old(board) && coins == old(coins) && achievementSystem == old(achievementSystem)
      ensures aiVsAiMode == old(aiVsAiMode) && playerControl == old(playerControl) && currentPlayer == old(currentPlayer)
      ensures var found := Board.CompletedLines(old(board[..]));
        linesCleared == |found| && board[..] == Board.ClearedAsWritten(old(board[..]), found)
      ensures var found := Board.CompletedLines(old(board[..]));
        |found| <= 1 ==> board[..] == Board.Cleared(old(board[..]), found)
      // no completed line: nothing changes
      ensures linesCleared == 0 ==>
                lines == old(lines) && score == old(score) && level == old(level) &&
                dropInterval == old(dropInterval) && tetrisStreak == old(tetrisStreak) &&
                firstTetris == old(firstTetris) && firstToReach1000 == old(firstToReach1000) &&
                coins.balance == old(coins.balance) && achievementSystem.achievements == old(achievementSystem.achievements)
      // counters: the score uses the level from before the clear
      ensures linesCleared > 0 ==>
                lines == old(lines) + linesCleared &&
                score == old(score) + CalculateLineScore(linesCleared, old(level)) &&
                level == CalculateLevel(lines) && dropInterval == CalculateDropInterval(level)
      // a human player is paid and keeps a streak; an AI-only match changes neither
      ensures linesCleared > 0 && (!aiVsAiMode || playerControl) ==>
                coins.balance == old(coins.balance) + Currency.GetLineReward(linesCleared) +
                  StreakBonus(old(achievementSystem.achievements), linesCleared, old(tetrisStreak)) &&
                tetrisStreak == (if linesCleared == 4 then old(tetrisStreak) + 1
                                 else if lastWasTetris then 0 else old(tetrisStreak))
      ensures aiVsAiMode && !playerControl ==>
                coins.balance == old(coins.balance) && tetrisStreak == old(tetrisStreak) &&
                achievementSystem.achievements == old(achievementSystem.achievements)
      // write-once match statistics
      ensures old(firstTetris).Some? ==> firstTetris == old(firstTetris)
      ensures old(firstToReach1000).Some? ==> firstToReach1000 == old(firstToReach1000)
      ensures firstTetris != old(firstTetris) ==>
                firstTetris == Some(currentPlayer) && aiVsAiMode && playerControl && linesCleared == 4
      ensures firstToReach1000 != old(firstToReach1000) ==>
                firstToReach1000 == Some(currentPlayer) && aiVsAiMode && score >= 1000 && linesCleared > 0
      ensures linesCleared > 0 && aiVsAiMode && old(firstToReach1000).None? && score >= 1000 ==>
                firstToReach1000 == Some(currentPlayer)
    {
      linesCleared := RemoveCompletedLines(board);
      if linesCleared > 0 {
        ApplyLineClear(linesCleared, lastWasTetris, now);
      }
    }
  }
}
