/**
 * The achievement table and the leaderboard (js/achievements.js).
 *
 * Achievements are kept by id in a map; unlocking one may pay its reward into
 * the wallet. Timestamps are parameters; saving, notifications and sharing
 * are not modelled.
 */
module Achievements {
  import opened Common
  import Currency

  /** One achievement: its reward, whether and when it was unlocked, and (for some) a progress counter. */
  datatype Achievement = Achievement(reward: int, unlocked: bool, unlockedAt: Option<int>, progress: Option<int>)

  const Lucky: string := "lucky"
  const Analyst: string := "analyst"
  const Rich: string := "rich"
  const Sniper: string := "sniper"
  const Streak: string := "streak"

  /** The five achievements as the constructor defines them. */
  function InitialTable(): (m: map<string, Achievement>)
    ensures m.Keys == {Lucky, Analyst, Rich, Sniper, Streak}
    ensures forall id :: id in m ==> !m[id].unlocked && m[id].unlockedAt.None?
  {
    map[
      Lucky := Achievement(200, false, None, None),
      Analyst := Achievement(500, false, None, Some(0)),
      Rich := Achievement(0, false, None, None),
      Sniper := Achievement(300, false, None, Some(0)),
      Streak := Achievement(150, false, None, Some(0))]
  }

  /** Whether `unlockAchievement(id)` succeeds: the id is known and not yet unlocked. */
  predicate CanUnlock(m: map<string, Achievement>, id: string)
  {
    id in m && !m[id].unlocked
  }

  /** One achievement once it is unlocked at time `now`. */
  function Unlocked(a: Achievement, now: int): (b: Achievement)
    ensures b.unlocked && b.unlockedAt == Some(now)
    ensures b.reward == a.reward && b.progress == a.progress
  {
    a.(unlocked := true, unlockedAt := Some(now))
  }

  /** The coins an unlock of `a` pays: its reward when positive, otherwise nothing. */
  function Paid(a: Achievement): (n: int)
    ensures n >= 0 && (n > 0 <==> a.reward > 0)
    ensures n > 0 ==> n == a.reward
  {
    if a.reward > 0 then a.reward else 0
  }

  /** The table after a successful unlock of `id` at time `now`. */
  function Unlock(m: map<string, Achievement>, id: string, now: int): (r: map<string, Achievement>)
    requires id in m
    ensures r.Keys == m.Keys && r[id].unlocked
    ensures forall k :: k in m && k != id ==> r[k] == m[k]
  {
    m[id := Unlocked(m[id], now)]
  }

  /** Unlocking is idempotent: once unlocked, a second unlock of the same id is refused. */
  lemma UnlockIdempotent(m: map<string, Achievement>, id: string, now: int)
    requires id in m
    ensures !CanUnlock(Unlock(m, id, now), id)
    ensures forall k :: CanUnlock(Unlock(m, id, now), k) <==> CanUnlock(m, k) && k != id
  {
  }

  function UnlockedIds(m: map<string, Achievement>): (s: set<string>)
    ensures s <= m.Keys && |s| <= |m.Keys|
    ensures |s| == |m.Keys| <==> forall k :: k in m ==> m[k].unlocked
    ensures forall k :: k in s <==> k in m && m[k].unlocked
  {
    var s := set k | k in m && m[k].unlocked;
    Common.SubsetCard(s, m.Keys);
    assert (forall k :: k in m ==> m[k].unlocked) ==> s == m.Keys;
    s
  }

  /** A leaderboard entry. */
  datatype Entry = Entry(name: string, balance: int, date: int)

  /** `findIndex` on the name. */
  function FindName(board: seq<Entry>, name: string): (i: int)
    ensures -1 <= i < |board|
    ensures i >= 0 ==> board[i].name == name && forall j :: 0 <= j < i ==> board[j].name != name
    ensures i == -1 ==> forall j :: 0 <= j < |board| ==> board[j].name != name
  {
    if board == [] then -1
    else if board[0].name == name then 0
    else
      var i := FindName(board[1..], name);
      if i < 0 then -1 else i + 1
  }

  /** The entry update of `addLeaderboardEntry`: raise an existing entry's balance, or append a new entry. */
  function Upsert(board: seq<Entry>, name: string, balance: int, now: int): (r: seq<Entry>)
    ensures var i := FindName(board, name);
      if i >= 0 then
        |r| == |board| && r[i].name == name &&
        r[i].balance == (if balance > board[i].balance then balance else board[i].balance) &&
        forall j :: 0 <= j < |board| && j != i ==> r[j] == board[j]
      else
        r == board + [Entry(name, balance, now)]
  {
    var i := FindName(board, name);
    if i >= 0 then
      if balance > board[i].balance then board[i := board[i].(balance := balance, date := now)] else board
    else board + [Entry(name, balance, now)]
  }

  predicate SortedByBalance(s: seq<Entry>)
  {
    forall i, j :: 0 <= i < j < |s| ==> s[i].balance >= s[j].balance
  }

  /** Insert before the first entry whose balance is not larger (keeps equal entries in their original order). */
  function InsertByBalance(e: Entry, s: seq<Entry>): (r: seq<Entry>)
    ensures multiset(r) == multiset(s) + multiset{e}
  {
    if s == [] || s[0].balance <= e.balance then [e] + s
    else
      assert s == [s[0]] + s[1..];
      [s[0]] + InsertByBalance(e, s[1..])
  }

  /** Every entry after an insertion is the inserted one or an entry that was already there. */
  lemma InsertedEntry(e: Entry, s: seq<Entry>, k: int)
    requires 0 <= k < |InsertByBalance(e, s)|
    ensures InsertByBalance(e, s)[k] == e || InsertByBalance(e, s)[k] in s
  {
    assert InsertByBalance(e, s)[k] in multiset(InsertByBalance(e, s));
  }

  /** Inserting into a board sorted by descending balance keeps it sorted. */
  lemma {:induction false} InsertByBalanceSorted(e: Entry, s: seq<Entry>)
    requires SortedByBalance(s)
    ensures SortedByBalance(InsertByBalance(e, s))
  {
    if s != [] && s[0].balance > e.balance {
      var tail := s[1..];
      InsertByBalanceSorted(e, tail);
      var t := InsertByBalance(e, tail);
      forall k | 0 <= k < |t|
        ensures s[0].balance >= t[k].balance
      {
        InsertedEntry(e, tail, k);
      }
      assert InsertByBalance(e, s) == [s[0]] + t;
    }
  }

  /** `sort((a, b) => b.balance - a.balance)`: a permutation in descending balance order. */
  function SortByBalance(s: seq<Entry>): (r: seq<Entry>)
    ensures multiset(r) == multiset(s) && SortedByBalance(r)
  {
    if s == [] then []
    else
      assert s == [s[0]] + s[1..];
      var t := SortByBalance(s[1..]);
      InsertByBalanceSorted(s[0], t);
      InsertByBalance(s[0], t)
  }

  /** `addLeaderboardEntry`, given the stored board: update, sort, keep the top ten. */
  function AddLeaderboardEntry(board: seq<Entry>, name: string, balance: int, now: int): (r: seq<Entry>)
    ensures |r| <= 10 && SortedByBalance(r)
  {
    Take(SortByBalance(Upsert(board, name, balance, now)), 10)
  }

  lemma MultisetLength<T>(a: seq<T>, b: seq<T>)
    requires multiset(a) == multiset(b)
    ensures |a| == |b|
  {
    assert |multiset(a)| == |a| && |multiset(b)| == |b|;
  }

  /**
   * The kept entries are the best of the updated board: every updated entry
   * left out has a balance no larger than any kept one, and the board holds
   * min(10, n) entries.
   */
  lemma LeaderboardKeepsTop(board: seq<Entry>, name: string, balance: int, now: int)
    ensures var u := Upsert(board, name, balance, now);
      var r := AddLeaderboardEntry(board, name, balance, now);
      var s := SortByBalance(u);
      |r| == (if |u| < 10 then |u| else 10) &&
      multiset(s) == multiset(u) && r == s[..|r|] &&
      forall i, j :: 0 <= i < |r| <= j < |s| ==> s[j].balance <= r[i].balance
  {
    var u := Upsert(board, name, balance, now);
    MultisetLength(SortByBalance(u), u);
  }

  /**
   * An existing player's entry never loses balance: if the name was on the board
   * and it is still in the top ten, its (first) entry holds the larger of the old
   * and the new balance. A new name is appended with the given balance.
   */
  lemma UpsertNeverLowers(board: seq<Entry>, name: string, balance: int, now: int)
    ensures var i := FindName(board, name);
      var u := Upsert(board, name, balance, now);
      (i >= 0 ==> u[i].balance >= board[i].balance && u[i].balance >= balance) &&
      (i < 0 ==> Entry(name, balance, now) in u)
  {
    var u := Upsert(board, name, balance, now);
    if FindName(board, name) < 0 {
      assert u[|board|] == Entry(name, balance, now);
    }
  }

  class AchievementSystem {
    var achievements: map<string, Achievement>
    var coins: Currency.TetriCoins

    /** The wallet is valid and the table holds exactly the five achievements, the counting ones with a counter. */
    predicate Valid()
      reads this, coins
    {
      coins.Valid() && achievements.Keys == InitialTable().Keys &&
      achievements[Analyst].progress.Some? && achievements[Sniper].progress.Some? &&
      achievements[Streak].progress.Some?
    }

    constructor (wallet: Currency.TetriCoins)
      requires wallet.Valid()
      ensures Valid() && achievements == InitialTable() && coins == wallet
    {
      achievements := InitialTable();
      coins := wallet;
    }

    /** `unlockAchievement`: refuses an unknown or already unlocked id; otherwise unlocks it and pays a positive reward. */
    method UnlockAchievement(id: string, now: int) returns (ok: bool)
      requires Valid()
      modifies this, coins
      ensures Valid() && coins == old(coins)
      ensures ok <==> old(CanUnlock(achievements, id))
      ensures ok ==> achievements == Unlock(old(achievements), id, now)
      ensures !ok ==> achievements == old(achievements)
      ensures coins.balance == old(coins.balance) + (if ok then Paid(old(achievements)[id]) else 0)
    {
      if !(id in achievements) || achievements[id].unlocked {
        return false;
      }
      var a := achievements[id];
      achievements := Unlock(achievements, id, now);
      if a.reward > 0 {
        var _ := coins.AddCoins(a.reward);
      }
      return true;
    }

    /** `checkBettingAchievements`: Lucky at a streak of 5; on a win, Analyst progress follows the win total and unlocks at 10. */
    method CheckBettingAchievements(currentStreak: int, totalWon: int, wonLastBet: bool, now: int)
      requires Valid()
      modifies this, coins
      ensures Valid() && coins == old(coins)
      // Lucky: unlocked at a streak of 5 unless it already was
      ensures achievements[Lucky] ==
                if currentStreak >= 5 && !old(achievements[Lucky].unlocked) then Unlocked(old(achievements[Lucky]), now)
                else old(achievements[Lucky])
      // Analyst: on a win, progress := totalWon, and an unlock at 10 unless it already was
      ensures achievements[Analyst] ==
                if !wonLastBet then old(achievements[Analyst])
                else
                  var a := old(achievements[Analyst]).(progress := Some(totalWon));
                  if totalWon >= 10 && !a.unlocked then Unlocked(a, now) else a
      // the wallet grows by the reward of each newly unlocked achievement
      ensures coins.balance == old(coins.balance) +
                (if currentStreak >= 5 && !old(achievements[Lucky].unlocked) then Paid(old(achievements[Lucky])) else 0) +
                (if wonLastBet && totalWon >= 10 && !old(achievements[Analyst].unlocked) then Paid(old(achievements[Analyst])) else 0)
      ensures currentStreak >= 5 ==> achievements[Lucky].unlocked
      ensures currentStreak < 5 ==> achievements[Lucky] == old(achievements[Lucky])
      ensures wonLastBet ==> achievements[Analyst].progress == Some(totalWon)
      ensures wonLastBet && totalWon >= 10 ==> achievements[Analyst].unlocked
      ensures !wonLastBet ==> achievements[Analyst] == old(achievements[Analyst])
      ensures forall k :: k in achievements && k != Lucky && k != Analyst ==> achievements[k] == old(achievements[k])
    {
      if currentStreak >= 5 && !achievements[Lucky].unlocked {
        var _ := UnlockAchievement(Lucky, now);
      }
      if wonLastBet {
        achievements := achievements[Analyst := achievements[Analyst].(progress := Some(totalWon))];
        if totalWon >= 10 && !achievements[Analyst].unlocked {
          var _ := UnlockAchievement(Analyst, now);
        }
      }
    }

    /** `checkSniperAchievement`: a won score-range bet advances Sniper while it is locked; it unlocks at 3. */
    method CheckSniperAchievement(betWon: bool, betType: string, now: int)
      requires Valid()
      modifies this, coins
      ensures Valid() && coins == old(coins)
      ensures var before := old(achievements[Sniper]);
        var a := before.(progress := Some(before.progress.value + 1));
        if betWon && betType == "score_range" && !before.unlocked then
          achievements[Sniper] == (if a.progress.value >= 3 then Unlocked(a, now) else a) &&
          coins.balance == old(coins.balance) + (if a.progress.value >= 3 then Paid(before) else 0)
        else achievements[Sniper] == before && coins.balance == old(coins.balance)
      ensures var before := old(achievements[Sniper]);
        if betWon && betType == "score_range" && !before.unlocked then
          achievements[Sniper].progress == Some(before.progress.value + 1) &&
          achievements[Sniper].unlocked == (before.progress.value + 1 >= 3)
        else achievements[Sniper] == before
      ensures forall k :: k in achievements && k != Sniper ==> achievements[k] == old(achievements[k])
    {
      if betWon && betType == "score_range" && !achievements[Sniper].unlocked {
        var a := achievements[Sniper];
        achievements := achievements[Sniper := a.(progress := Some(a.progress.value + 1))];
        if a.progress.value + 1 >= 3 {
          var _ := UnlockAchievement(Sniper, now);
        }
      }
    }

    /** `checkBalanceAchievement`: Rich unlocks at a balance of 10000. */
    method CheckBalanceAchievement(balance: int, now: int)
      requires Valid()
      modifies this, coins
      ensures Valid() && coins == old(coins)
      ensures achievements[Rich] ==
                if balance >= 10000 && !old(achievements[Rich].unlocked) then Unlocked(old(achievements[Rich]), now)
                else old(achievements[Rich])
      ensures coins.balance == old(coins.balance) +
                (if balance >= 10000 && !old(achievements[Rich].unlocked) then Paid(old(achievements[Rich])) else 0)
      ensures balance >= 10000 ==> achievements[Rich].unlocked
      ensures balance < 10000 ==> achievements == old(achievements)
      ensures forall k :: k in achievements && k != Rich ==> achievements[k] == old(achievements[k])
    {
      if balance >= 10000 && !achievements[Rich].unlocked {
        var _ := UnlockAchievement(Rich, now);
      }
    }

    /** `checkTetrisStreak`: while Streak is locked its progress follows the count, and it unlocks at 3. */
    method CheckTetrisStreak(consecutiveTetris: int, now: int)
      requires Valid()
      modifies this, coins
      ensures Valid() && coins == old(coins)
      ensures old(achievements[Streak].unlocked) ==> achievements == old(achievements) && coins.balance == old(coins.balance)
      ensures !old(achievements[Streak].unlocked) ==>
                var a := old(achievements[Streak]).(progress := Some(consecutiveTetris));
                achievements[Streak] == (if consecutiveTetris >= 3 then Unlocked(a, now) else a) &&
                coins.balance == old(coins.balance) + (if consecutiveTetris >= 3 then Paid(a) else 0)
      ensures !old(achievements[Streak].unlocked) ==>
                achievements[Streak].progress == Some(consecutiveTetris) &&
                achievements[Streak].unlocked == (consecutiveTetris >= 3)
      ensures forall k :: k in achievements && k != Streak ==> achievements[k] == old(achievements[k])
    {
      if !achievements[Streak].unlocked {
        achievements := achievements[Streak := achievements[Streak].(progress := Some(consecutiveTetris))];
        if consecutiveTetris >= 3 {
          var _ := UnlockAchievement(Streak, now);
        }
      }
    }

    /** `resetTetrisStreak`: clears Streak progress only while it is locked. */
    method ResetTetrisStreak()
      requires achievements.Keys == InitialTable().Keys
      modifies this
      ensures achievements.Keys == old(achievements.Keys) && coins == old(coins)
      ensures old(achievements[Streak].unlocked) ==> achievements == old(achievements)
      ensures !old(achievements[Streak].unlocked) ==> achievements == old(achievements)[Streak := old(achievements[Streak]).(progress := Some(0))]
    {
      if !achievements[Streak].unlocked {
        achievements := achievements[Streak := achievements[Streak].(progress := Some(0))];
      }
    }

    /** `getProgress`: `floor(unlocked / total * 100)` over the five achievements, 20 points each. */
    function GetProgress(): (p: int)
      reads this, coins
      requires Valid()
      ensures 0 <= p <= 100 && p == 20 * |UnlockedIds(achievements)|
      ensures p == 100 <==> forall k :: k in achievements ==> achievements[k].unlocked
      ensures (forall k :: k in achievements ==> !achievements[k].unlocked) ==> p == 0
    {
      var u := UnlockedIds(achievements);
      assert |achievements.Keys| == 5;
      assert (forall k :: k in achievements ==> !achievements[k].unlocked) ==> u == {};
      (|u| * 100) / |achievements.Keys|
    }

    /** `resetAll`: every achievement locked, without a date, and with progress 0 where it tracks progress. */
    method ResetAll()
      modifies this
      ensures coins == old(coins) && achievements.Keys == old(achievements.Keys)
      ensures forall k :: k in achievements ==>
                var a := old(achievements[k]);
                achievements[k] == a.(unlocked := false, unlockedAt := None,
                                      progress := if a.progress.Some? then Some(0) else None)
    {
      achievements := map k | k in achievements :: achievements[k].(unlocked := false, unlockedAt := None,
                                                      progress := if achievements[k].progress.Some? then Some(0) else None);
    }
  }

}
