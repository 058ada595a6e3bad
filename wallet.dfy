/** The console's `Wallet`: a balance that bets are checked against and round results are applied to. */
module WalletModel {
  import opened Wrappers

  /** `canBet`: a positive amount no larger than the balance. */
  predicate MayBet(balance: int, amount: int)
  {
    amount > 0 && amount <= balance
  }

  /**
   * An allowed bet can be lost in full without the balance going negative, and at most the
   * whole balance can be bet.
   */
  lemma MayBetSafe(balance: int, amount: int, delta: int)
    requires MayBet(balance, amount) && delta >= -amount
    ensures balance + delta >= 0
    ensures MayBet(balance, balance) || balance <= 0
  {
  }

  /** Only a positive balance allows a bet, and then the amounts allowed are exactly 1 to the balance. */
  lemma MayBetRange(balance: int)
    ensures balance <= 0 ==> forall a :: !MayBet(balance, a)
    ensures balance > 0 ==> MayBet(balance, 1) && MayBet(balance, balance) && !MayBet(balance, balance + 1) && !MayBet(balance, 0)
  {
  }

  class Wallet {
    var bal: int

    /** The part of `new Wallet(initial)` after the check. */
    constructor (initial: int)
      requires initial >= 0
      ensures bal == initial
    {
      bal := initial;
    }

    /** `balance`. */
    function Balance(): (b: int)
      reads this
      ensures b == bal
    {
      bal
    }

    /** `canBet`. */
    method CanBet(amount: int) returns (b: bool)
      ensures b == MayBet(bal, amount)
    {
      b := amount > 0 && amount <= bal;
    }

    /** `applyDelta`: the balance moves by `delta`, with no lower bound. */
    method ApplyDelta(delta: int)
      modifies this
      ensures bal == old(bal) + delta
    {
      bal := bal + delta;
    }
  }

  /** `new Wallet(initial)`: a negative initial balance is rejected. */
  method NewWallet(initial: int) returns (r: Result<Wallet>)
    ensures r.Err? <==> initial < 0
    ensures r.Ok? ==> fresh(r.value) && r.value.bal == initial
  {
    if initial < 0 {
      return Err("초기 잔액은 0 이상");
    }
    var w := new Wallet(initial);
    return Ok(w);
  }
}
