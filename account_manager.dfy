/**
 * The player's account: a balance in whole credits, a fixed bet per spin, and
 * the two operations the reels' controller calls.  Balances are unbounded
 * integers; the on-screen balance text is not modelled.
 */
module Account {
  /** The inspector defaults: 100 credits to start with, 1 credit per spin. */
  const DefaultStartingBalance: int := 100
  const DefaultBetAmount: int := 1

  /** Whether a bet of `bet` can be placed from `balance`, and the balance afterwards. */
  function BetPlaced(balance: int, bet: int): (r: (bool, int))
    ensures r.0 <==> balance >= bet
    ensures r.0 ==> r.1 == balance - bet && (bet >= 0 ==> 0 <= r.1 <= balance)
    ensures !r.0 ==> r.1 == balance
  {
    if balance < bet then (false, balance) else (true, balance - bet)
  }

  /** The balance after a win of `multiplier` times the bet. */
  function WinAdded(balance: int, bet: int, multiplier: int): (r: int)
    ensures multiplier >= 0 && bet >= 0 ==> r >= balance
    ensures r - balance == multiplier * bet
  {
    balance + multiplier * bet
  }

  class AccountManager {
    const startingBalance: int
    const betAmount: int
    var balance: int

    /** `Start`: the balance begins at the starting balance. */
    constructor(startingBalance: int, betAmount: int)
      ensures this.startingBalance == startingBalance && this.betAmount == betAmount
      ensures balance == startingBalance
    {
      this.startingBalance := startingBalance;
      this.betAmount := betAmount;
      balance := startingBalance;
    }

    /** `PlaceBet`: take the bet if the balance covers it, and say whether it did. */
    method PlaceBet() returns (placed: bool)
      modifies this
      ensures (placed, balance) == BetPlaced(old(balance), betAmount)
    {
      if balance < betAmount {
        return false;
      }
      balance := balance - betAmount;
      return true;
    }

    /** `AddWin`: credit `multiplier` times the bet. */
    method AddWin(multiplier: int)
      modifies this
      ensures balance == WinAdded(old(balance), betAmount, multiplier)
    {
      var winAmount := multiplier * betAmount;
      balance := balance + winAmount;
    }
  }

  /**
   * With a non-negative bet, a balance that starts non-negative never goes
   * negative, however bets and non-negative wins are interleaved.
   */
  lemma {:induction false} BalanceStaysNonNegative(balance: int, bet: int, wins: seq<int>)
    requires balance >= 0 && bet >= 0
    requires forall i :: 0 <= i < |wins| ==> wins[i] >= 0
    ensures Session(balance, bet, wins) >= 0
    decreases |wins|
  {
    if wins != [] {
      var placed := BetPlaced(balance, bet);
      var next := if placed.0 then WinAdded(placed.1, bet, wins[0]) else placed.1;
      BalanceStaysNonNegative(next, bet, wins[1..]);
    }
  }

  /**
   * The balance after one spin per entry of `wins`: a bet, then (if it was
   * placed) that win.  With non-negative wins, `n` spins lose at most `n` bets.
   */
  function Session(balance: int, bet: int, wins: seq<int>): (r: int)
    ensures bet >= 0 && (forall i :: 0 <= i < |wins| ==> wins[i] >= 0) ==> r >= balance - |wins| * bet
    decreases |wins|
  {
    if wins == [] then balance
    else
      var placed := BetPlaced(balance, bet);
      var next := if placed.0 then WinAdded(placed.1, bet, wins[0]) else placed.1;
      assert |wins| * bet == bet + (|wins| - 1) * bet;
      assert forall i :: 0 <= i < |wins[1..]| ==> wins[1..][i] == wins[i + 1];
      Session(next, bet, wins[1..])
  }
}
