/**
 * Team tournaments (js/team-tournament.js): teams of two to four computer
 * players, a bracket that pairs the teams of a shuffled order, best-of-three
 * matches whose rounds are won on the round's total score, and the team and
 * tournament statistics.
 *
 * Teams are values kept in the team list and referred to by id everywhere
 * else (the bracket, the live match, the winners); a statistics update goes
 * to the first team in the list with that id. Ids, timestamps, the shuffled
 * order and the players' simulated games are parameters. Saving is not part
 * of this model.
 */
module Tournament {
  import opened Common

  const MinTeamSize: int := 2
  const MaxTeamSize: int := 4
  /** The size `createTeam` uses when the caller gives none. */
  const DefaultTeamSize: int := 3
  /** `MATCH_ROUNDS`: a match is best of three. */
  const MatchRounds: int := 3

  datatype TeamStats = TeamStats(matchesPlayed: int, matchesWon: int, totalScore: int, avgScore: int)
  datatype PlayerStats = PlayerStats(gamesPlayed: int, totalScore: int, bestScore: int, linesCleared: int)
  /** Player `number + 1` of its team (`Player ${i + 1}`). */
  datatype Player = Player(number: int, stats: PlayerStats)
  datatype Team = Team(id: int, name: string, players: seq<Player>, stats: TeamStats)

  /** One round of a match: the two teams' round scores and whether team 1 won it. */
  datatype Round = Round(roundNumber: int, team1Score: int, team2Score: int, team1Won: bool)
  /** A bracket entry. */
  datatype Match = Match(team1: int, team2: int, winner: Option<int>, rounds: seq<Round>)
  /** `currentMatch`: a bracket entry with running totals and rounds won per side. */
  datatype LiveMatch = LiveMatch(team1: int, team2: int, rounds: seq<Round>, team1Score: int, team2Score: int,
                                 roundsWon1: int, roundsWon2: int)
  datatype Tournament = Tournament(id: int, teams: seq<int>, startTime: int, bracket: seq<Match>,
                                   currentMatchIndex: int, winners: seq<int>)
  datatype Stats = Stats(tournamentsPlayed: int, tournamentsWon: map<int, int>, totalMatches: int, bestTeamScore: int)

  /** The outcome of one simulated game of a player. */
  datatype GameResult = GameResult(score: int, lines: int)

  /** `getMatchWinner`'s result, with the side that won. */
  datatype MatchOutcome = MatchOutcome(team1Won: bool, winner: int, loser: int, winnerScore: int, loserScore: int)

  /** What `playRound` reports. */
  datatype RoundReport = RoundReport(roundNumber: int, team1RoundScore: int, team2RoundScore: int,
                                     team1TotalScore: int, team2TotalScore: int)

  /** The failure messages of the tournament operations. */
  datatype Failure = BadTeamSize | TeamNotFound | TooFewTeams | SomeTeamsNotFound
                   | NoActiveTournament | InvalidMatchIndex | NoActiveMatch

  datatype Outcome<T> = Success(value: T) | Fail(failure: Failure)

  const NoGames: PlayerStats := PlayerStats(0, 0, 0, 0)
  const NoMatches: TeamStats := TeamStats(0, 0, 0, 0)

  // ---------------------------------------------------------------------
  // Teams

  /** `teams.findIndex(t => t.id === id)`. */
  function FindTeam(teams: seq<Team>, id: int): (i: int)
    ensures -1 <= i < |teams|
    ensures i >= 0 ==> teams[i].id == id && forall j :: 0 <= j < i ==> teams[j].id != id
    ensures i == -1 <==> forall j :: 0 <= j < |teams| ==> teams[j].id != id
  {
    if |teams| == 0 then -1
    else if teams[0].id == id then 0
    else
      var k := FindTeam(teams[1..], id);
      if k == -1 then -1 else k + 1
  }

  /** The player-generation loop of `createTeam`: players 1 to `count`, none with a game played. */
  method NewPlayers(count: int) returns (players: seq<Player>)
    requires count >= 0
    ensures |players| == count
    ensures forall i :: 0 <= i < count ==> players[i] == Player(i, NoGames)
  {
    players := [];
    var i := 0;
    while i < count
      invariant 0 <= i <= count && |players| == i
      invariant forall k :: 0 <= k < i ==> players[k] == Player(k, NoGames)
    {
      players := players + [Player(i, NoGames)];
      i := i + 1;
    }
  }

  /** A team's statistics after one more match: played, won if it won, score added, average rounded down. */
  function AfterMatch(s: TeamStats, won: bool, score: int): (r: TeamStats)
    requires s.matchesPlayed >= 0
    ensures r.matchesPlayed == s.matchesPlayed + 1 >= 1
    ensures r.matchesWon == s.matchesWon + (if won then 1 else 0)
    ensures r.totalScore == s.totalScore + score
    ensures r.avgScore * r.matchesPlayed <= r.totalScore < (r.avgScore + 1) * r.matchesPlayed
  {
    var played := s.matchesPlayed + 1;
    var total := s.totalScore + score;
    TeamStats(played, s.matchesWon + (if won then 1 else 0), total, total / played)
  }

  /** The first team with id `id` gets `AfterMatch`; the list is unchanged when there is none. */
  function RecordMatch(teams: seq<Team>, id: int, won: bool, score: int): (r: seq<Team>)
    requires forall i :: 0 <= i < |teams| ==> teams[i].stats.matchesPlayed >= 0
    ensures |r| == |teams|
    ensures forall i :: 0 <= i < |r| ==> r[i].stats.matchesPlayed >= 0
    ensures forall i :: 0 <= i < |r| && i != FindTeam(teams, id) ==> r[i] == teams[i]
    ensures var k := FindTeam(teams, id);
      k >= 0 ==> r[k].id == id && r[k].name == teams[k].name && r[k].players == teams[k].players &&
                 r[k].stats == AfterMatch(teams[k].stats, won, score)
  {
    var i := FindTeam(teams, id);
    if i < 0 then teams
    else teams[i := teams[i].(stats := AfterMatch(teams[i].stats, won, score))]
  }

  /** A player's statistics after one simulated game. */
  function AfterGame(p: Player, g: GameResult): (q: Player)
    ensures q.number == p.number
    ensures q.stats.gamesPlayed == p.stats.gamesPlayed + 1
    ensures q.stats.bestScore == if g.score > p.stats.bestScore then g.score else p.stats.bestScore
  {
    var s := p.stats;
    p.(stats := PlayerStats(s.gamesPlayed + 1, s.totalScore + g.score,
                            if g.score > s.bestScore then g.score else s.bestScore,
                            s.linesCleared + g.lines))
  }

  /** Whether `games` holds one game for every player of the first team with id `id` (any list will do when there is none). */
  predicate GamesFit(teams: seq<Team>, id: int, games: seq<GameResult>)
  {
    var i := FindTeam(teams, id);
    i >= 0 ==> |games| == |teams[i].players|
  }

  /**
   * The team list after the first team with id `id` has played one round:
   * each of its players has played its game of `games`; every other team,
   * every id and every team's match statistics stay as they were.
   */
  function Played(teams: seq<Team>, id: int, games: seq<GameResult>): (r: seq<Team>)
    requires GamesFit(teams, id, games)
    ensures |r| == |teams|
    ensures forall j :: 0 <= j < |r| ==>
              r[j].id == teams[j].id && r[j].name == teams[j].name && r[j].stats == teams[j].stats &&
              |r[j].players| == |teams[j].players|
    ensures forall j :: 0 <= j < |r| && j != FindTeam(teams, id) ==> r[j] == teams[j]
    ensures FindTeam(teams, id) >= 0 ==>
              forall k :: 0 <= k < |games| ==>
                r[FindTeam(teams, id)].players[k] == AfterGame(teams[FindTeam(teams, id)].players[k], games[k])
  {
    var i := FindTeam(teams, id);
    if i < 0 then teams
    else teams[i := teams[i].(players := seq(|games|, k requires 0 <= k < |games| => AfterGame(teams[i].players[k], games[k])))]
  }

  /** Playing a round changes no id, so the teams are found where they were. */
  lemma PlayedKeepsPlaces(teams: seq<Team>, id: int, games: seq<GameResult>, other: int)
    requires GamesFit(teams, id, games)
    ensures FindTeam(Played(teams, id, games), other) == FindTeam(teams, other)
  {
    var r := Played(teams, id, games);
    var a, b := FindTeam(r, other), FindTeam(teams, other);
    if a >= 0 && b >= 0 {
      assert !(a < b) && !(b < a);
    }
  }

  /** The sum of the scores of some games. */
  function TotalScore(games: seq<GameResult>): int
  {
    if |games| == 0 then 0 else TotalScore(games[..|games| - 1]) + games[|games| - 1].score
  }

  /**
   * One team's loop in `playRound`: every player plays one game (the `i`-th
   * result), its statistics are updated, and the round score is the sum of
   * the scores.
   */
  method PlayTeam(players: seq<Player>, games: seq<GameResult>) returns (updated: seq<Player>, roundScore: int)
    requires |games| == |players|
    ensures |updated| == |players|
    ensures forall i :: 0 <= i < |players| ==> updated[i] == AfterGame(players[i], games[i])
    ensures roundScore == TotalScore(games)
  {
    updated, roundScore := [], 0;
    var i := 0;
    while i < |players|
      invariant 0 <= i <= |players| && |updated| == i
      invariant forall k :: 0 <= k < i ==> updated[k] == AfterGame(players[k], games[k])
      invariant roundScore == TotalScore(games[..i])
    {
      assert games[..i + 1][..i] == games[..i];
      roundScore := roundScore + games[i].score;
      updated := updated + [AfterGame(players[i], games[i])];
      i := i + 1;
    }
    assert games[..i] == games;
  }

  // ---------------------------------------------------------------------
  // Bracket

  /** The bracket of a team order: consecutive teams are paired, and a last odd team sits out. */
  predicate PairsOf(bracket: seq<Match>, order: seq<int>)
  {
    |bracket| == |order| / 2 &&
    forall k :: 0 <= k < |bracket| ==> bracket[k] == Match(order[2 * k], order[2 * k + 1], None, [])
  }

  /** `generateBracket` on the shuffled order: matches of teams `2k` and `2k + 1`, none decided, no rounds. */
  method GenerateBracket(order: seq<int>) returns (bracket: seq<Match>)
    ensures PairsOf(bracket, order)
  {
    bracket := [];
    var i := 0;
    while i < |order|
      invariant 0 <= i && i % 2 == 0 && (i <= |order| || i == |order| + 1)
      invariant |bracket| == (if i <= |order| then i else |order|) / 2
      invariant forall k :: 0 <= k < |bracket| ==> bracket[k] == Match(order[2 * k], order[2 * k + 1], None, [])
      decreases |order| - i
    {
      if i + 1 < |order| {
        bracket := bracket + [Match(order[i], order[i + 1], None, [])];
      }
      i := i + 2;
    }
  }

  predicate Distinct(s: seq<int>)
  {
    forall i, j :: 0 <= i < j < |s| ==> s[i] != s[j]
  }

  /**
   * When the order names every team once, no team plays two matches of the
   * bracket and no team meets itself.
   */
  lemma BracketTeamsDisjoint(bracket: seq<Match>, order: seq<int>, k1: int, k2: int)
    requires PairsOf(bracket, order) && Distinct(order)
    requires 0 <= k1 < |bracket| && 0 <= k2 < |bracket|
    ensures bracket[k1].team1 != bracket[k1].team2
    ensures k1 != k2 ==> bracket[k1].team1 !in {bracket[k2].team1, bracket[k2].team2} &&
                         bracket[k1].team2 !in {bracket[k2].team1, bracket[k2].team2}
  {
    assert bracket[k1] == Match(order[2 * k1], order[2 * k1 + 1], None, []);
    assert bracket[k2] == Match(order[2 * k2], order[2 * k2 + 1], None, []);
  }

  /** Every team of the order but (for an odd count) the last one is in some match. */
  lemma BracketCoversOrder(bracket: seq<Match>, order: seq<int>, i: int)
    requires PairsOf(bracket, order)
    requires 0 <= i < |order| && !(i == |order| - 1 && |order| % 2 == 1)
    ensures order[i] == bracket[i / 2].team1 || order[i] == bracket[i / 2].team2
  {
    assert bracket[i / 2] == Match(order[2 * (i / 2)], order[2 * (i / 2) + 1], None, []);
  }

  // ---------------------------------------------------------------------
  // Matches

  /**
   * `getMatchWinner` on a live match: more rounds won wins; on equal rounds
   * the higher total wins, and equal totals go to team 2.
   */
  function MatchWinner(m: LiveMatch): (o: MatchOutcome)
    ensures o.team1Won <==> m.roundsWon1 > m.roundsWon2 ||
                            (m.roundsWon1 == m.roundsWon2 && m.team1Score > m.team2Score)
    ensures o.team1Won ==> o.winner == m.team1 && o.loser == m.team2 &&
                           o.winnerScore == m.team1Score && o.loserScore == m.team2Score
    ensures !o.team1Won ==> o.winner == m.team2 && o.loser == m.team1 &&
                            o.winnerScore == m.team2Score && o.loserScore == m.team1Score
    ensures m.team1 != m.team2 ==> o.winner != o.loser
  {
    if m.roundsWon1 > m.roundsWon2 then MatchOutcome(true, m.team1, m.team2, m.team1Score, m.team2Score)
    else if m.roundsWon2 > m.roundsWon1 then MatchOutcome(false, m.team2, m.team1, m.team2Score, m.team1Score)
    else if m.team1Score > m.team2Score then MatchOutcome(true, m.team1, m.team2, m.team1Score, m.team2Score)
    else MatchOutcome(false, m.team2, m.team1, m.team2Score, m.team1Score)
  }

  /** `isMatchComplete` on a live match: a side has won two rounds, or three rounds have been played. */
  predicate MatchComplete(m: LiveMatch, currentRound: int)
  {
    m.roundsWon1 >= 2 || m.roundsWon2 >= 2 || currentRound >= MatchRounds
  }

  /** A side that has won two rounds has won the match on rounds, whatever the totals. */
  lemma TwoRoundsDecide(m: LiveMatch)
    requires m.roundsWon1 >= 0 && m.roundsWon2 >= 0 && m.roundsWon1 + m.roundsWon2 <= MatchRounds
    requires m.roundsWon1 >= 2 || m.roundsWon2 >= 2
    ensures MatchWinner(m).team1Won <==> m.roundsWon1 >= 2
  {
  }

  /**
   * The statistics after a tournament: a winner's count of tournaments won
   * goes up by one (from 0 when it had none); nothing else changes.
   */
  function Credited(s: Stats, winner: Option<int>): (r: Stats)
    ensures winner.None? ==> r == s
    ensures r.tournamentsPlayed == s.tournamentsPlayed && r.totalMatches == s.totalMatches &&
            r.bestTeamScore == s.bestTeamScore
    ensures winner.Some? ==>
              r.tournamentsWon.Keys == s.tournamentsWon.Keys + {winner.value} &&
              r.tournamentsWon[winner.value] ==
                (if winner.value in s.tournamentsWon then s.tournamentsWon[winner.value] else 0) + 1 &&
              forall id :: id in s.tournamentsWon && id != winner.value ==> r.tournamentsWon[id] == s.tournamentsWon[id]
  {
    if winner.None? then s
    else
      var won := if winner.value in s.tournamentsWon then s.tournamentsWon[winner.value] else 0;
      s.(tournamentsWon := s.tournamentsWon[winner.value := won + 1])
  }

  class TeamTournamentSystem {
    var teams: seq<Team>
    var activeTournament: Option<Tournament>
    var currentMatch: Option<LiveMatch>
    var currentRound: int
    var stats: Stats

    /**
     * A running tournament points at an existing bracket entry, the rounds a
     * live match has been played are exactly the rounds its sides have won,
     * and no team has a negative match count.
     */
    predicate Valid()
      reads this
    {
      (activeTournament.Some? ==>
        0 <= activeTournament.value.currentMatchIndex < |activeTournament.value.bracket|) &&
      (currentMatch.Some? ==>
        currentMatch.value.roundsWon1 >= 0 && currentMatch.value.roundsWon2 >= 0 &&
        currentMatch.value.roundsWon1 + currentMatch.value.roundsWon2 == currentRound) &&
      forall i :: 0 <= i < |teams| ==> teams[i].stats.matchesPlayed >= 0
    }

    /** The constructor with the stored teams and statistics already parsed (each may be missing). */
    constructor (storedTeams: Option<seq<Team>>, storedStats: Option<Stats>)
      requires storedTeams.Some? ==> forall i :: 0 <= i < |storedTeams.value| ==> storedTeams.value[i].stats.matchesPlayed >= 0
      ensures Valid()
      ensures teams == if storedTeams.Some? then storedTeams.value else []
      ensures stats == if storedStats.Some? then storedStats.value else Stats(0, map[], 0, 0)
      ensures activeTournament.None? && currentMatch.None? && currentRound == 0
    {
      teams := if storedTeams.Some? then storedTeams.value else [];
      stats := if storedStats.Some? then storedStats.value else Stats(0, map[], 0, 0);
      activeTournament, currentMatch, currentRound := None, None, 0;
    }

    /**
     * `createTeam`: a size outside [2, 4] is refused; otherwise one team with
     * id `id`, `playerCount` fresh players and no matches is appended. An
     * omitted size (`None`) is the default of 3.
     */
    method CreateTeam(name: string, requestedCount: Option<int>, id: int) returns (r: Outcome<Team>)
      requires Valid()
      modifies this
      ensures Valid()
      ensures requestedCount.None? ==> r.Success? && |r.value.players| == DefaultTeamSize
      ensures var playerCount := if requestedCount.Some? then requestedCount.value else DefaultTeamSize;
        r.Fail? <==> playerCount < MinTeamSize || playerCount > MaxTeamSize
      ensures r.Fail? ==> r.failure == BadTeamSize && teams == old(teams)
      ensures var playerCount := if requestedCount.Some? then requestedCount.value else DefaultTeamSize;
        r.Success? ==>
        teams == old(teams) + [r.value] && r.value.id == id && r.value.name == name &&
        |r.value.players| == playerCount && r.value.stats == NoMatches &&
        forall i :: 0 <= i < playerCount ==> r.value.players[i] == Player(i, NoGames)
      ensures activeTournament == old(activeTournament) && currentMatch == old(currentMatch)
      ensures currentRound == old(currentRound) && stats == old(stats)
    {
      var playerCount := if requestedCount.Some? then requestedCount.value else DefaultTeamSize;
      if playerCount < MinTeamSize || playerCount > MaxTeamSize {
        return Fail(BadTeamSize);
      }
      var players := NewPlayers(playerCount);
      var team := Team(id, name, players, NoMatches);
      teams := teams + [team];
      return Success(team);
    }

    /** `deleteTeam`: the first team with that id is removed; without one, the call fails and nothing changes. */
    method DeleteTeam(teamId: int) returns (ok: Outcome<()>)
      requires Valid()
      modifies this
      ensures Valid()
      ensures ok.Success? <==> exists i :: 0 <= i < |old(teams)| && old(teams)[i].id == teamId
      ensures ok.Fail? ==> ok.failure == TeamNotFound && teams == old(teams)
      ensures ok.Success? ==>
        var i := FindTeam(old(teams), teamId);
        teams == old(teams)[..i] + old(teams)[i + 1..] && |teams| == |old(teams)| - 1
      ensures activeTournament == old(activeTournament) && currentMatch == old(currentMatch)
      ensures currentRound == old(currentRound) && stats == old(stats)
    {
      var index := FindTeam(teams, teamId);
      if index != -1 {
        teams := teams[..index] + teams[index + 1..];
        return Success(());
      }
      return Fail(TeamNotFound);
    }

    /**
     * `startTournament`: fewer than two ids, or an id with no team, is
     * refused; otherwise a tournament over those teams starts at the first
     * match of the bracket paired from `shuffled` (the random order of the
     * same teams), with no winners yet, and one more tournament is counted.
     */
    method StartTournament(teamIds: seq<int>, shuffled: seq<int>, now: int) returns (r: Outcome<Tournament>)
      requires Valid()
      requires multiset(shuffled) == multiset(teamIds)
      modifies this
      ensures Valid()
      ensures |teamIds| < 2 ==> r == Fail(TooFewTeams)
      ensures r.Success? <==> |teamIds| >= 2 && forall k :: 0 <= k < |teamIds| ==> FindTeam(teams, teamIds[k]) >= 0
      ensures r.Fail? ==> activeTournament == old(activeTournament) && stats == old(stats)
      ensures r.Success? ==>
        activeTournament == Some(r.value) && r.value.teams == teamIds && PairsOf(r.value.bracket, shuffled) &&
        r.value.currentMatchIndex == 0 && r.value.winners == [] &&
        stats == old(stats).(tournamentsPlayed := old(stats).tournamentsPlayed + 1)
      ensures teams == old(teams) && currentMatch == old(currentMatch) && currentRound == old(currentRound)
    {
      if |teamIds| < 2 {
        return Fail(TooFewTeams);
      }
      var k := 0;
      while k < |teamIds|
        invariant 0 <= k <= |teamIds|
        invariant forall j :: 0 <= j < k ==> FindTeam(teams, teamIds[j]) >= 0
      {
        if FindTeam(teams, teamIds[k]) < 0 {
          return Fail(SomeTeamsNotFound);
        }
        k := k + 1;
      }
      assert |shuffled| == |teamIds| by {
        assert |multiset(shuffled)| == |multiset(teamIds)|;
      }
      var bracket := GenerateBracket(shuffled);
      var t := Tournament(now, teamIds, now, bracket, 0, []);
      activeTournament := Some(t);
      stats := stats.(tournamentsPlayed := stats.tournamentsPlayed + 1);
      return Success(t);
    }

    /**
     * `startTeamMatch`: refused without a tournament or for an index outside
     * the bracket; otherwise that bracket entry becomes the live match with
     * no score and no rounds won, at round 0.
     */
    method StartTeamMatch(matchIndex: int) returns (r: Outcome<LiveMatch>)
      requires Valid()
      modifies this
      ensures Valid()
      ensures old(activeTournament).None? ==> r == Fail(NoActiveTournament)
      ensures r.Success? <==> old(activeTournament).Some? && 0 <= matchIndex < |old(activeTournament).value.bracket|
      ensures r.Fail? ==> currentMatch == old(currentMatch) && currentRound == old(currentRound)
      ensures r.Success? ==>
        var m := old(activeTournament).value.bracket[matchIndex];
        r.value == LiveMatch(m.team1, m.team2, m.rounds, 0, 0, 0, 0) &&
        currentMatch == Some(r.value) && currentRound == 0
      ensures teams == old(teams) && activeTournament == old(activeTournament) && stats == old(stats)
    {
      if activeTournament.None? {
        return Fail(NoActiveTournament);
      }
      var bracket := activeTournament.value.bracket;
      if !(0 <= matchIndex < |bracket|) {
        return Fail(InvalidMatchIndex);
      }
      var m := bracket[matchIndex];
      currentMatch := Some(LiveMatch(m.team1, m.team2, m.rounds, 0, 0, 0, 0));
      currentRound := 0;
      return Success(currentMatch.value);
    }

    /** Every player of the first team with id `id` plays its game of `games`; returns the team's round score. */
    method PlayFor(id: int, games: seq<GameResult>) returns (roundScore: int)
      requires Valid() && GamesFit(teams, id, games)
      modifies this
      ensures Valid() && roundScore == TotalScore(games)
      ensures teams == Played(old(teams), id, games)
      ensures activeTournament == old(activeTournament) && currentMatch == old(currentMatch)
      ensures currentRound == old(currentRound) && stats == old(stats)
    {
      var i := FindTeam(teams, id);
      if i < 0 {
        roundScore := TotalScore(games);
        return;
      }
      var players;
      players, roundScore := PlayTeam(teams[i].players, games);
      ghost var r := Played(teams, id, games);
      assert r[i].players == players;
      teams := teams[i := teams[i].(players := players)];
      assert teams == r;
    }

    /** Both teams of a round play, team 1 first; returns their round scores. */
    method PlayBoth(id1: int, games1: seq<GameResult>, id2: int, games2: seq<GameResult>) returns (s1: int, s2: int)
      requires Valid() && GamesFit(teams, id1, games1) && GamesFit(teams, id2, games2)
      modifies this
      ensures Valid() && s1 == TotalScore(games1) && s2 == TotalScore(games2)
      ensures GamesFit(old(teams), id1, games1) &&
              GamesFit(Played(old(teams), id1, games1), id2, games2) &&
              teams == Played(Played(old(teams), id1, games1), id2, games2)
      ensures activeTournament == old(activeTournament) && currentMatch == old(currentMatch)
      ensures currentRound == old(currentRound) && stats == old(stats)
    {
      s1 := PlayFor(id1, games1);
      PlayedKeepsPlaces(old(teams), id1, games1, id2);
      s2 := PlayFor(id2, games2);
    }

    /**
     * `playRound` with the players' simulated games given: both teams play
     * (team 1 first), the totals grow by the round scores, team 1 wins the
     * round only with a strictly higher score, the round is recorded, and the
     * round counter advances.
     */
    method PlayRound(games1: seq<GameResult>, games2: seq<GameResult>) returns (r: Outcome<RoundReport>)
      requires Valid()
      requires currentMatch.Some? ==>
                 GamesFit(teams, currentMatch.value.team1, games1) && GamesFit(teams, currentMatch.value.team2, games2)
      modifies this
      ensures Valid()
      ensures old(currentMatch).None? ==> r == Fail(NoActiveMatch) && teams == old(teams) &&
                                          currentMatch == old(currentMatch) && currentRound == old(currentRound)
      ensures old(currentMatch).Some? ==>
        var m := old(currentMatch).value;
        var s1, s2 := TotalScore(games1), TotalScore(games2);
        var won1 := s1 > s2;
        GamesFit(Played(old(teams), m.team1, games1), m.team2, games2) &&
        teams == Played(Played(old(teams), m.team1, games1), m.team2, games2) &&
        currentRound == old(currentRound) + 1 &&
        currentMatch == Some(m.(team1Score := m.team1Score + s1, team2Score := m.team2Score + s2,
                                roundsWon1 := m.roundsWon1 + (if won1 then 1 else 0),
                                roundsWon2 := m.roundsWon2 + (if won1 then 0 else 1),
                                rounds := m.rounds + [Round(old(currentRound) + 1, s1, s2, won1)])) &&
        r == Success(RoundReport(currentRound, s1, s2, m.team1Score + s1, m.team2Score + s2))
      ensures activeTournament == old(activeTournament) && stats == old(stats)
    {
      if currentMatch.None? {
        return Fail(NoActiveMatch);
      }
      var m := currentMatch.value;
      var team1RoundScore, team2RoundScore := PlayBoth(m.team1, games1, m.team2, games2);
      var won1 := team1RoundScore > team2RoundScore;
      m := m.(team1Score := m.team1Score + team1RoundScore, team2Score := m.team2Score + team2RoundScore);
      if won1 {
        m := m.(roundsWon1 := m.roundsWon1 + 1);
      } else {
        m := m.(roundsWon2 := m.roundsWon2 + 1);
      }
      m := m.(rounds := m.rounds + [Round(currentRound + 1, team1RoundScore, team2RoundScore, won1)]);
      currentMatch := Some(m);
      currentRound := currentRound + 1;
      return Success(RoundReport(currentRound, team1RoundScore, team2RoundScore, m.team1Score, m.team2Score));
    }

    /** `isMatchComplete`: there is a live match and it is decided. */
    function IsMatchComplete(): (done: bool)
      reads this
      ensures done <==> currentMatch.Some? && MatchComplete(currentMatch.value, currentRound)
    {
      currentMatch.Some? &&
      (currentMatch.value.roundsWon1 >= 2 || currentMatch.value.roundsWon2 >= 2 || currentRound >= MatchRounds)
    }

    /** After three rounds of a live match the match is complete. */
    lemma ThreeRoundsComplete()
      requires Valid() && currentMatch.Some? && currentRound >= MatchRounds
      ensures IsMatchComplete()
    {
    }

    /** `getMatchWinner`: `None` without a live match. */
    function GetMatchWinner(): (o: Option<MatchOutcome>)
      reads this
      ensures o.None? <==> currentMatch.None?
      ensures o.Some? ==> o.value == MatchWinner(currentMatch.value)
    {
      if currentMatch.None? then None else Some(MatchWinner(currentMatch.value))
    }

    /**
     * `completeMatch`: refused without a live match or a tournament.
     * Otherwise both teams record the match (the winner as won), the current
     * bracket entry gets its winner, the winner joins the winners, the match
     * count and the best team score are updated, and the live match ends.
     */
    method CompleteMatch() returns (r: Outcome<MatchOutcome>)
      requires Valid()
      modifies this
      ensures Valid()
      ensures r.Fail? <==> old(currentMatch).None? || old(activeTournament).None?
      ensures r.Fail? ==> r.failure == NoActiveMatch && teams == old(teams) &&
                          activeTournament == old(activeTournament) && stats == old(stats) &&
                          currentMatch == old(currentMatch)
      ensures r.Success? ==>
        var o := MatchWinner(old(currentMatch).value);
        var t := old(activeTournament).value;
        r.value == o &&
        teams == RecordMatch(RecordMatch(old(teams), o.winner, true, o.winnerScore), o.loser, false, o.loserScore) &&
        activeTournament == Some(t.(bracket := t.bracket[t.currentMatchIndex := t.bracket[t.currentMatchIndex].(winner := Some(o.winner))],
                                    winners := t.winners + [o.winner])) &&
        stats == old(stats).(totalMatches := old(stats).totalMatches + 1,
                             bestTeamScore := if o.winnerScore > old(stats).bestTeamScore then o.winnerScore
                                              else old(stats).bestTeamScore) &&
        currentMatch.None?
      ensures currentRound == old(currentRound)
    {
      if currentMatch.None? || activeTournament.None? {
        return Fail(NoActiveMatch);
      }
      var result := MatchWinner(currentMatch.value);
      teams := RecordMatch(teams, result.winner, true, result.winnerScore);
      teams := RecordMatch(teams, result.loser, false, result.loserScore);
      var t := activeTournament.value;
      var matchIndex := t.currentMatchIndex;
      t := t.(bracket := t.bracket[matchIndex := t.bracket[matchIndex].(winner := Some(result.winner))]);
      t := t.(winners := t.winners + [result.winner]);
      activeTournament := Some(t);
      stats := stats.(totalMatches := stats.totalMatches + 1);
      if result.winnerScore > stats.bestTeamScore {
        stats := stats.(bestTeamScore := result.winnerScore);
      }
      currentMatch := None;
      return Success(result);
    }

    /** `isTournamentComplete`: a tournament runs and its match index has reached the end of the bracket. */
    function IsTournamentComplete(): (done: bool)
      reads this
      ensures done <==> activeTournament.Some? &&
                        activeTournament.value.currentMatchIndex >= |activeTournament.value.bracket|
      ensures Valid() ==> !done
    {
      activeTournament.Some? && activeTournament.value.currentMatchIndex >= |activeTournament.value.bracket|
    }

    /**
     * `getTournamentWinner`: the last match winner once the tournament is
     * complete, `None` while it is not or when no match has been won.
     */
    function GetTournamentWinner(): (w: Option<int>)
      reads this
      ensures w.Some? <==> IsTournamentComplete() && |activeTournament.value.winners| > 0
      ensures w.Some? ==> w.value in activeTournament.value.winners
    {
      if !IsTournamentComplete() then None
      else
        var winners := activeTournament.value.winners;
        if |winners| == 0 then None else Some(winners[|winners| - 1])
    }

    /**
     * `completeTournament`: refused without a tournament; otherwise the
     * tournament winner (if any) is credited with one more tournament won and
     * the tournament ends.
     */
    method CompleteTournament() returns (r: Outcome<Option<int>>)
      modifies this
      ensures old(activeTournament).None? ==> r == Fail(NoActiveTournament) && stats == old(stats)
      ensures old(activeTournament).Some? ==>
        r == Success(old(GetTournamentWinner())) && stats == Credited(old(stats), old(GetTournamentWinner()))
      ensures activeTournament.None?
      ensures teams == old(teams) && currentMatch == old(currentMatch) && currentRound == old(currentRound)
    {
      if activeTournament.None? {
        return Fail(NoActiveTournament);
      }
      var winner := GetTournamentWinner();
      if winner.Some? {
        var won := if winner.value in stats.tournamentsWon then stats.tournamentsWon[winner.value] else 0;
        stats := stats.(tournamentsWon := stats.tournamentsWon[winner.value := won + 1]);
      }
      activeTournament := None;
      return Success(winner);
    }

    /** While a tournament is running within its bracket, ending it credits nobody. */
    lemma EarlyEndCreditsNobody()
      requires Valid()
      ensures GetTournamentWinner().None?
      ensures Credited(stats, GetTournamentWinner()) == stats
    {
    }

    /**
     * `nextMatch`: refused without a tournament; otherwise the match index
     * advances, and either the tournament completes (the index is past the
     * bracket) or the next bracket entry becomes the live match.
     */
    method NextMatch() returns (r: Outcome<Option<LiveMatch>>, finished: bool)
      requires Valid()
      modifies this
      ensures Valid()
      ensures old(activeTournament).None? ==> r == Fail(NoActiveTournament) && !finished && stats == old(stats)
      ensures old(activeTournament).Some? ==>
        var t := old(activeTournament).value;
        var next := t.currentMatchIndex + 1;
        (finished <==> next >= |t.bracket|) &&
        (finished ==> activeTournament.None? && currentMatch == old(currentMatch) &&
                      r == Success(None) && stats == Credited(old(stats), if |t.winners| > 0 then Some(t.winners[|t.winners| - 1]) else None)) &&
        (!finished ==> activeTournament == Some(t.(currentMatchIndex := next)) &&
                       r == Success(Some(LiveMatch(t.bracket[next].team1, t.bracket[next].team2, t.bracket[next].rounds, 0, 0, 0, 0))) &&
                       currentMatch == r.value && currentRound == 0 && stats == old(stats))
      ensures teams == old(teams)
    {
      if activeTournament.None? {
        return Fail(NoActiveTournament), false;
      }
      var t := activeTournament.value;
      activeTournament := Some(t.(currentMatchIndex := t.currentMatchIndex + 1));
      if activeTournament.value.currentMatchIndex >= |activeTournament.value.bracket| {
        var c := CompleteTournament();
        return Success(None), true;
      }
      var started := StartTeamMatch(activeTournament.value.currentMatchIndex);
      return Success(Some(started.value)), false;
    }
  }
}
