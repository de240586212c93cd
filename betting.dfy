/**
 * Betting on AI-vs-AI matches (js/betting.js): a bet is accepted during the
 * betting phase within fixed limits and paid for from the wallet, odds come
 * from fixed tables, a resolved bet pays `floor(amount * odds)` when it won,
 * and a tournament collects a tenth of every stake into a jackpot.
 *
 * The wallet (`window.tetriCoins`) and the achievement system
 * (`window.achievementSystem`, possibly absent) are fields. Stored history,
 * jackpot and statistics arrive already parsed; saving them, the countdown
 * timer's ticks and every panel update are not part of this model. Bet types,
 * targets and match-result fields are strings, compared as `===` compares
 * them; odds are `real`.
 */
module Betting {
  import opened Common
  import Currency
  import Achievements

  const MinBet: int := 10
  const MaxBet: int := 500
  /** `COUNTDOWN_TIME`, in seconds. */
  const CountdownTime: int := 15
  const TournamentMaxMatches: int := 5

  datatype Bet = Bet(betType: string, target: string, amount: int, odds: real, timestamp: int)

  /** What a finished match reports; a field the match did not set is `None`. */
  datatype MatchResult = MatchResult(winner: Option<string>, firstTetris: Option<string>,
                                     winnerScore: int, firstToReach: Option<string>)

  /** A history entry: the bet, how it went, and the match it was settled on. */
  datatype Resolved = Resolved(bet: Bet, won: bool, payout: int, matchResult: MatchResult)

  /** What `resolveBet` returns for a bet. */
  datatype Outcome = Outcome(won: bool, payout: int, profit: int)

  datatype Stats = Stats(totalBets: int, totalWon: int, totalLost: int, winStreak: int, currentStreak: int)

  /** Why `placeBet` refused a bet (the messages of its failure results). */
  datatype Refusal = NotActive | OutOfLimits | InsufficientBalance

  datatype Placement = Placed(bet: Bet) | Refused(reason: Refusal)

  /** `loadJackpot` on the parsed value: a non-negative number is kept, anything else gives 0. */
  function LoadJackpot(parsed: Option<int>): (jackpot: int)
    ensures jackpot >= 0
    ensures jackpot == if parsed.Some? && parsed.value >= 0 then parsed.value else 0
  {
    match parsed
    case Some(v) => if v >= 0 then v else 0
    case None => 0
  }

  /**
   * `getOdds`: fixed odds per bet type, a per-range table for score-range
   * bets (3 for an unknown range), and 2 for an unknown type.
   */
  function GetOdds(betType: string, target: string): (odds: real)
    ensures 1.5 <= odds <= 10.0
    ensures betType == "score_range" ==>
      odds == (if target == "0-1000" then 10.0 else if target == "1001-2000" then 5.0
               else if target == "5001+" then 8.0 else 3.0)
    ensures betType != "score_range" ==>
      odds == (if betType == "first_tetris" then 5.0 else if betType == "score_race" then 1.5 else 2.0)
  {
    if betType == "score_range" then
      if target == "0-1000" then 10.0
      else if target == "1001-2000" then 5.0
      else if target == "2001-3000" then 3.0
      else if target == "3001-5000" then 3.0
      else if target == "5001+" then 8.0
      else 3.0
    else if betType == "winner" then 2.0
    else if betType == "first_tetris" then 5.0
    else if betType == "score_race" then 1.5
    else 2.0
  }

  /** `Math.floor(amount * odds)`. */
  function Payout(amount: int, odds: real): (p: int)
    ensures p as real <= amount as real * odds < p as real + 1.0
  {
    (amount as real * odds).Floor
  }

  /** Every accepted stake wins back more than itself: with at least 10 staked and odds of at least 1.5, the payout exceeds the stake by 5 or more. */
  lemma WonBetProfits(amount: int, odds: real)
    requires MinBet <= amount && odds >= 1.5
    ensures Payout(amount, odds) >= amount + 5
  {
    var a := amount as real;
    assert a * odds >= a * 1.5 by {
      assert a * odds - a * 1.5 == a * (odds - 1.5);
    }
    assert a * 1.5 >= (amount + 5) as real;
  }

  /** `Math.floor(amount * 0.1)`, the jackpot's share of a tournament stake. */
  function JackpotShare(amount: int): (share: int)
    ensures amount >= 0 ==> 0 <= share && 10 * share <= amount < 10 * share + 10
  {
    (amount as real * 0.1).Floor
  }

  /** For a non-negative stake the share is the stake divided by 10, rounded down. */
  lemma JackpotShareIsTenth(amount: int)
    requires amount >= 0
    ensures JackpotShare(amount) == amount / 10
  {
    var q, r := amount / 10, amount % 10;
    assert amount as real * 0.1 == q as real + r as real * 0.1;
  }

  /** The named score ranges of score-range bets. */
  predicate NamedRange(range: string)
  {
    range == "0-1000" || range == "1001-2000" || range == "2001-3000" || range == "3001-5000" || range == "5001+"
  }

  /**
   * `isInScoreRange`: inclusive bounds per named range, the last one open
   * upwards; an unknown range has bounds [0, 0].
   */
  function IsInScoreRange(score: int, range: string): (inRange: bool)
    ensures !NamedRange(range) ==> (inRange <==> score == 0)
    ensures range == "0-1000" ==> (inRange <==> 0 <= score <= 1000)
    ensures range == "5001+" ==> (inRange <==> score >= 5001)
  {
    if range == "0-1000" then 0 <= score <= 1000
    else if range == "1001-2000" then 1001 <= score <= 2000
    else if range == "2001-3000" then 2001 <= score <= 3000
    else if range == "3001-5000" then 3001 <= score <= 5000
    else if range == "5001+" then score >= 5001
    else score == 0
  }

  /** The named ranges are disjoint and together cover every non-negative score. */
  lemma NamedRangesPartition(score: int, r1: string, r2: string)
    requires NamedRange(r1) && NamedRange(r2) && r1 != r2
    ensures !(IsInScoreRange(score, r1) && IsInScoreRange(score, r2))
    ensures score >= 0 ==> exists r :: NamedRange(r) && IsInScoreRange(score, r)
  {
    if score >= 0 {
      var r := if score <= 1000 then "0-1000" else if score <= 2000 then "1001-2000"
               else if score <= 3000 then "2001-3000" else if score <= 5000 then "3001-5000" else "5001+";
      assert NamedRange(r) && IsInScoreRange(score, r);
    }
  }

  /** The switch of `resolveBet`: whether a bet won on a match; a bet of an unknown type never wins. */
  function BetWon(bet: Bet, result: MatchResult): (won: bool)
    ensures won ==> bet.betType in {"winner", "first_tetris", "score_range", "score_race"}
    ensures bet.betType == "winner" ==> (won <==> result.winner == Some(bet.target))
    ensures bet.betType == "score_range" ==> (won <==> IsInScoreRange(result.winnerScore, bet.target))
  {
    if bet.betType == "winner" then result.winner == Some(bet.target)
    else if bet.betType == "first_tetris" then result.firstTetris == Some(bet.target)
    else if bet.betType == "score_range" then IsInScoreRange(result.winnerScore, bet.target)
    else if bet.betType == "score_race" then result.firstToReach == Some(bet.target)
    else false
  }

  /** Every bet is either won or lost, and the best streak is never below the current one. */
  predicate Consistent(s: Stats)
  {
    s.totalBets == s.totalWon + s.totalLost && 0 <= s.currentStreak <= s.winStreak &&
    s.totalWon >= 0 && s.totalLost >= 0
  }

  /**
   * The statistics after one resolved bet: a win extends the streak (and the
   * best streak with it), a loss ends it, and the bet is counted.
   */
  function Record(s: Stats, won: bool): (r: Stats)
    ensures r.totalBets == s.totalBets + 1
    ensures r.totalWon + r.totalLost == s.totalWon + s.totalLost + 1
    ensures won ==> r.totalWon == s.totalWon + 1 && r.currentStreak == s.currentStreak + 1
    ensures !won ==> r.totalLost == s.totalLost + 1 && r.currentStreak == 0
    ensures r.winStreak >= s.winStreak && (s.winStreak >= 0 ==> r.winStreak >= r.currentStreak)
    ensures Consistent(s) ==> Consistent(r)
  {
    if won then
      var streak := s.currentStreak + 1;
      s.(totalBets := s.totalBets + 1, totalWon := s.totalWon + 1, currentStreak := streak,
         winStreak := if streak > s.winStreak then streak else s.winStreak)
    else
      s.(totalBets := s.totalBets + 1, totalLost := s.totalLost + 1, currentStreak := 0)
  }

  class BettingSystem {
    var currentBet: Option<Bet>
    var bettingActive: bool
    /** Whether the countdown interval is scheduled (`countdownTimer` not null). */
    var countdownRunning: bool
    var countdownValue: int
    var betHistory: seq<Resolved>
    var tournamentActive: bool
    var tournamentMatches: int
    var jackpot: int
    var stats: Stats
    var coins: Currency.TetriCoins
    var achievements: Achievements.AchievementSystem?

    /**
     * The wallet (shared with the achievement system when there is one) is
     * valid, the jackpot is never negative, and a pending bet is one that
     * `placeBet` accepted.
     */
    predicate Valid()
      reads this, coins, achievements
    {
      coins.Valid() && jackpot >= 0 &&
      (achievements != null ==> achievements.coins == coins && achievements.Valid()) &&
      (currentBet.Some? ==> MinBet <= currentBet.value.amount <= MaxBet &&
                            currentBet.value.odds == GetOdds(currentBet.value.betType, currentBet.value.target))
    }

    /** The constructor with the stored history, jackpot and statistics already parsed. */
    constructor (history: seq<Resolved>, storedJackpot: Option<int>, storedStats: Option<Stats>,
                 wallet: Currency.TetriCoins, achievementSystem: Achievements.AchievementSystem?)
      requires wallet.Valid()
      requires achievementSystem != null ==> achievementSystem.coins == wallet && achievementSystem.Valid()
      ensures Valid() && coins == wallet && achievements == achievementSystem
      ensures currentBet.None? && !bettingActive && !countdownRunning && countdownValue == 0
      ensures betHistory == history && !tournamentActive && tournamentMatches == 0
      ensures jackpot == LoadJackpot(storedJackpot)
      ensures stats == if storedStats.Some? then storedStats.value else Stats(0, 0, 0, 0, 0)
    {
      currentBet, bettingActive, countdownRunning, countdownValue := None, false, false, 0;
      betHistory := history;
      tournamentActive, tournamentMatches := false, 0;
      jackpot := LoadJackpot(storedJackpot);
      stats := if storedStats.Some? then storedStats.value else Stats(0, 0, 0, 0, 0);
      coins, achievements := wallet, achievementSystem;
    }

    /** `startBetting`: refused while a betting phase runs; otherwise opens one with no bet and a full countdown. */
    method StartBetting() returns (ok: bool)
      requires Valid()
      modifies this
      ensures Valid()
      ensures ok <==> !old(bettingActive)
      ensures ok ==> bettingActive && currentBet.None? && countdownValue == CountdownTime && countdownRunning
      ensures !ok ==> currentBet == old(currentBet) && countdownValue == old(countdownValue) &&
                      countdownRunning == old(countdownRunning)
      ensures bettingActive && betHistory == old(betHistory) && jackpot == old(jackpot) && stats == old(stats)
      ensures tournamentActive == old(tournamentActive) && tournamentMatches == old(tournamentMatches)
      ensures coins == old(coins) && achievements == old(achievements)
    {
      if bettingActive {
        return false;
      }
      bettingActive := true;
      currentBet := None;
      countdownValue := CountdownTime;
      countdownRunning := true;
      return true;
    }

    /** `stopBetting`: closes the betting phase and clears the countdown. */
    method StopBetting()
      requires Valid()
      modifies this
      ensures Valid() && !bettingActive && !countdownRunning
      ensures currentBet == old(currentBet) && countdownValue == old(countdownValue)
      ensures betHistory == old(betHistory) && jackpot == old(jackpot) && stats == old(stats)
      ensures tournamentActive == old(tournamentActive) && tournamentMatches == old(tournamentMatches)
      ensures coins == old(coins) && achievements == old(achievements)
    {
      bettingActive := false;
      countdownRunning := false;
    }

    /**
     * `placeBet`: refused, with nothing changed, outside a betting phase,
     * outside [10, 500] or beyond the balance; otherwise the stake leaves the
     * wallet, a tournament's jackpot gets a tenth of it, and the bet (at the
     * table's odds, stamped `now`) becomes the current bet.
     */
    method PlaceBet(betType: string, target: string, amount: int, now: int) returns (r: Placement)
      requires Valid()
      modifies this, coins
      ensures Valid()
      ensures !old(bettingActive) ==> r == Refused(NotActive)
      ensures old(bettingActive) && (amount < MinBet || amount > MaxBet) ==> r == Refused(OutOfLimits)
      ensures r.Refused? <==> !old(bettingActive) || amount < MinBet || amount > MaxBet || amount > old(coins.balance)
      ensures r.Refused? ==> coins.balance == old(coins.balance) && jackpot == old(jackpot) && currentBet == old(currentBet)
      ensures r.Placed? ==>
        r.bet == Bet(betType, target, amount, GetOdds(betType, target), now) && currentBet == Some(r.bet) &&
        coins.balance == old(coins.balance) - amount &&
        jackpot == old(jackpot) + (if tournamentActive then JackpotShare(amount) else 0)
      ensures bettingActive == old(bettingActive) && countdownRunning == old(countdownRunning)
      ensures countdownValue == old(countdownValue) && betHistory == old(betHistory) && stats == old(stats)
      ensures tournamentActive == old(tournamentActive) && tournamentMatches == old(tournamentMatches)
      ensures coins == old(coins) && achievements == old(achievements)
    {
      if !bettingActive {
        return Refused(NotActive);
      }
      if amount < MinBet || amount > MaxBet {
        return Refused(OutOfLimits);
      }
      if !coins.CanAfford(amount) {
        return Refused(InsufficientBalance);
      }
      // the amount is positive and affordable here, so the deduction succeeds
      var _ := coins.DeductCoins(amount);
      if tournamentActive {
        JackpotShareIsTenth(amount);
        jackpot := jackpot + JackpotShare(amount);
      }
      currentBet := Some(Bet(betType, target, amount, GetOdds(betType, target), now));
      return Placed(currentBet.value);
    }

    /**
     * `resolveBet`: nothing without a current bet. Otherwise the bet is
     * settled on the match: a win pays `floor(amount * odds)` into the wallet;
     * the statistics are `Record`ed, the bet goes into the history, the
     * achievement system (if any) checks its betting achievements on the new
     * statistics, and the current bet is cleared.
     */
    method ResolveBet(result: MatchResult, now: int) returns (r: Option<Outcome>)
      requires Valid()
      modifies this, coins, achievements
      ensures Valid()
      ensures old(currentBet).None? ==>
        r.None? && coins.balance == old(coins.balance) && stats == old(stats) && betHistory == old(betHistory)
      ensures old(currentBet).None? && old(achievements) != null ==>
        old(achievements).achievements == old(achievements.achievements)
      ensures old(currentBet).Some? ==>
        var bet := old(currentBet).value;
        var won := BetWon(bet, result);
        var payout := if won then Payout(bet.amount, bet.odds) else 0;
        r == Some(Outcome(won, payout, payout - bet.amount)) &&
        stats == Record(old(stats), won) &&
        betHistory == old(betHistory) + [Resolved(bet, won, payout, result)] &&
        coins.balance >= old(coins.balance) + payout &&
        (achievements == null ==> coins.balance == old(coins.balance) + payout) &&
        (achievements != null && stats.currentStreak >= 5 ==> achievements.achievements[Achievements.Lucky].unlocked) &&
        (achievements != null && won ==> achievements.achievements[Achievements.Analyst].progress == Some(stats.totalWon))
      // with an achievement system the wallet also receives the rewards of the newly unlocked achievements
      ensures old(currentBet).Some? && old(achievements) != null ==>
        var bet := old(currentBet).value;
        var won := BetWon(bet, result);
        var payout := if won then Payout(bet.amount, bet.odds) else 0;
        var st := Record(old(stats), won);
        var m := old(achievements.achievements);
        coins.balance == old(coins.balance) + payout +
          (if st.currentStreak >= 5 && !m[Achievements.Lucky].unlocked then Achievements.Paid(m[Achievements.Lucky]) else 0) +
          (if won && st.totalWon >= 10 && !m[Achievements.Analyst].unlocked then Achievements.Paid(m[Achievements.Analyst]) else 0)
      ensures old(currentBet).Some? && BetWon(old(currentBet).value, result) ==> r.value.profit >= 5
      ensures Consistent(old(stats)) ==> Consistent(stats)
      ensures currentBet.None?
      ensures bettingActive == old(bettingActive) && jackpot == old(jackpot)
      ensures tournamentActive == old(tournamentActive) && tournamentMatches == old(tournamentMatches)
      ensures coins == old(coins) && achievements == old(achievements)
    {
      if currentBet.None? {
        return None;
      }
      var bet := currentBet.value;
      var won := BetWon(bet, result);
      var payout := if won then Payout(bet.amount, bet.odds) else 0;
      if won {
        WonBetProfits(bet.amount, bet.odds);
        var _ := coins.AddCoins(payout);
      }
      stats := Record(stats, won);
      betHistory := betHistory + [Resolved(bet, won, payout, result)];
      currentBet := None;
      NotifyAchievements(won, now);
      return Some(Outcome(won, payout, payout - bet.amount));
    }

    /** The achievement system, when there is one, checks its betting achievements on the current statistics. */
    method NotifyAchievements(won: bool, now: int)
      requires Valid()
      modifies achievements, coins
      ensures Valid()
      ensures achievements == null ==> coins.balance == old(coins.balance)
      ensures coins.balance >= old(coins.balance)
      // the wallet grows by the reward of each achievement the check newly unlocks
      ensures achievements != null ==>
                var m := old(achievements.achievements);
                coins.balance == old(coins.balance) +
                  (if stats.currentStreak >= 5 && !m[Achievements.Lucky].unlocked then Achievements.Paid(m[Achievements.Lucky]) else 0) +
                  (if won && stats.totalWon >= 10 && !m[Achievements.Analyst].unlocked then Achievements.Paid(m[Achievements.Analyst]) else 0)
      ensures achievements != null && stats.currentStreak >= 5 ==> achievements.achievements[Achievements.Lucky].unlocked
      ensures achievements != null && won ==> achievements.achievements[Achievements.Analyst].progress == Some(stats.totalWon)
    {
      if achievements != null {
        achievements.CheckBettingAchievements(stats.currentStreak, stats.totalWon, won, now);
      }
    }

    /** `startTournament`: a tournament starts with no matches played. */
    method StartTournament()
      requires Valid()
      modifies this
      ensures Valid() && tournamentActive && tournamentMatches == 0
      ensures currentBet == old(currentBet) && bettingActive == old(bettingActive) && jackpot == old(jackpot)
      ensures betHistory == old(betHistory) && stats == old(stats)
      ensures coins == old(coins) && achievements == old(achievements)
    {
      tournamentActive := true;
      tournamentMatches := 0;
    }

    /**
     * `endTournament`: the tournament ends; a positive jackpot is paid out
     * whole (and emptied) when any bet is in the history, otherwise nothing
     * is paid.
     */
    method EndTournament() returns (reward: int)
      requires Valid()
      modifies this, coins
      ensures Valid() && !tournamentActive
      ensures reward == if old(jackpot) > 0 && |betHistory| > 0 then old(jackpot) else 0
      ensures coins.balance == old(coins.balance) + reward
      ensures jackpot == old(jackpot) - reward
      ensures currentBet == old(currentBet) && bettingActive == old(bettingActive)
      ensures betHistory == old(betHistory) && stats == old(stats) && tournamentMatches == old(tournamentMatches)
      ensures coins == old(coins) && achievements == old(achievements)
    {
      tournamentActive := false;
      if jackpot > 0 && |betHistory| > 0 {
        reward := jackpot;
        var _ := coins.AddCoins(reward);
        jackpot := 0;
        return reward;
      }
      return 0;
    }

    /** `nextTournamentMatch`: during a tournament counts one more match and says whether the fifth has been reached. */
    method NextTournamentMatch() returns (done: bool)
      requires Valid()
      modifies this
      ensures Valid()
      ensures old(tournamentActive) ==> tournamentMatches == old(tournamentMatches) + 1 &&
                                        (done <==> tournamentMatches >= TournamentMaxMatches)
      ensures !old(tournamentActive) ==> !done && tournamentMatches == old(tournamentMatches)
      ensures tournamentActive == old(tournamentActive) && jackpot == old(jackpot) && currentBet == old(currentBet)
      ensures bettingActive == old(bettingActive) && betHistory == old(betHistory) && stats == old(stats)
      ensures coins == old(coins) && achievements == old(achievements)
    {
      if tournamentActive {
        tournamentMatches := tournamentMatches + 1;
        return tournamentMatches >= TournamentMaxMatches;
      }
      return false;
    }
  }
}
