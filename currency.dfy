/**
 * The TetriCoins wallet (js/currency.js): a non-negative balance that line
 * clears, bets and achievements add to and take from.
 *
 * Persistence is reduced to its values: the stored balance arrives already
 * parsed, and saving (with the listener notifications it triggers) changes no
 * state of the wallet.
 */
module Currency {
  import opened Common

  const InitialBalance: int := 1000

  /**
   * `loadBalance`, given what `parseInt` made of the stored string (`None` when
   * nothing was stored or it did not parse): a non-negative parsed value is
   * kept, anything else falls back to the initial balance.
   */
  function LoadBalance(parsed: Option<int>): (b: int)
    ensures b >= 0
    ensures parsed.Some? && parsed.value >= 0 ==> b == parsed.value
    ensures parsed.None? || parsed.value < 0 ==> b == InitialBalance
  {
    if parsed.Some? && parsed.value >= 0 then parsed.value else InitialBalance
  }

  /** Saving a valid balance and loading it again gives the same balance. */
  lemma SaveThenLoad(balance: int)
    requires balance >= 0
    ensures LoadBalance(Some(balance)) == balance
  {
  }

  /** `getLineReward`: 1, 2, 3 and 4 lines pay 10, 30, 100 and 500 coins, anything else nothing. */
  function GetLineReward(linesCleared: int): (reward: int)
    ensures reward >= 0
    ensures reward > 0 <==> 1 <= linesCleared <= 4
  {
    if linesCleared == 1 then 10
    else if linesCleared == 2 then 30
    else if linesCleared == 3 then 100
    else if linesCleared == 4 then 500
    else 0
  }

  /** Clearing more lines at once always pays strictly more. */
  lemma LineRewardIncreasing(a: int, b: int)
    requires 1 <= a < b <= 4
    ensures GetLineReward(a) < GetLineReward(b)
  {
  }

  class TetriCoins {
    var balance: int

    predicate Valid()
      reads this
    {
      balance >= 0
    }

    /** The constructor loads the stored balance. */
    constructor (stored: Option<int>)
      ensures Valid() && balance == LoadBalance(stored)
    {
      balance := LoadBalance(stored);
    }

    /** `canAfford`. */
    function CanAfford(amount: int): (ok: bool)
      reads this
      ensures ok <==> amount <= balance
    {
      balance >= amount
    }

    /** `addCoins`: only a positive amount is added. */
    method AddCoins(amount: int) returns (ok: bool)
      requires Valid()
      modifies this
      ensures Valid()
      ensures ok <==> amount > 0
      ensures balance == if ok then old(balance) + amount else old(balance)
    {
      if amount > 0 {
        balance := balance + amount;
        return true;
      }
      return false;
    }

    /** `deductCoins`: succeeds only for a positive amount the balance covers, so the balance never goes negative. */
    method DeductCoins(amount: int) returns (ok: bool)
      requires Valid()
      modifies this
      ensures Valid()
      ensures ok <==> amount > 0 && old(CanAfford(amount))
      ensures balance == if ok then old(balance) - amount else old(balance)
    {
      if amount > 0 && balance >= amount {
        balance := balance - amount;
        return true;
      }
      return false;
    }

    /** `awardLinesCleared`: adds and returns the line reward, or returns 0 and changes nothing. */
    method AwardLinesCleared(linesCleared: int) returns (reward: int)
      requires Valid()
      modifies this
      ensures Valid()
      ensures reward == GetLineReward(linesCleared)
      ensures balance == old(balance) + reward
    {
      reward := GetLineReward(linesCleared);
      if reward > 0 {
        var _ := AddCoins(reward);
        return reward;
      }
      return 0;
    }

    /** `reset`: back to the initial balance. */
    method Reset()
      modifies this
      ensures Valid() && balance == InitialBalance
    {
      balance := InitialBalance;
    }
  }
}
