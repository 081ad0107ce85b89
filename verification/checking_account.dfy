/**
 * The checking account: a balance without interest, readable only through
 * a getter and changed only by guarded deposits and withdrawals
 * (models/CheckingAccount.ts). Amounts are never tested for finiteness, so
 * they are plain reals here.
 */
module CheckingModel {
  import opened Base

  const NonPositiveDeposit := "Deposit amount must be positive"
  const NonPositiveRetire := "Retire amount must be positive"
  const InsufficientFunds := "Insufficient funds"

  class CheckingAccount {
    const Id: string
    /** The private `_balance`; callers read it through `Balance()`. */
    var balance: real

    constructor(id: string, initial: real)
      ensures Id == id && balance == initial
    {
      Id := id;
      balance := initial;
    }

    /** The `Balance` getter: reads the private balance and changes nothing. */
    function Balance(): (b: real)
      reads this
      ensures b == balance
    {
      balance
    }

    /** Adds a positive amount and returns the new balance. */
    method Deposit(amount: real) returns (r: Result<real>)
      modifies this
      ensures r.Err? <==> amount <= 0.0
      ensures r.Err? ==> r.message == NonPositiveDeposit && balance == old(balance)
      ensures r.Ok? ==> balance == old(balance) + amount && r.value == balance
    {
      if amount <= 0.0 {
        return Err(NonPositiveDeposit);
      }
      balance := balance + amount;
      return Ok(balance);
    }

    /** Subtracts a positive amount no larger than the balance and returns the new balance. */
    method Retire(amount: real) returns (r: Result<real>)
      modifies this
      ensures r.Err? <==> amount <= 0.0 || amount > old(balance)
      ensures amount <= 0.0 ==> r == Err(NonPositiveRetire)
      ensures 0.0 < amount && amount > old(balance) ==> r == Err(InsufficientFunds)
      ensures r.Err? ==> balance == old(balance)
      ensures r.Ok? ==> balance == old(balance) - amount && r.value == balance
      ensures old(balance) >= 0.0 ==> balance >= 0.0
    {
      if amount <= 0.0 {
        return Err(NonPositiveRetire);
      }
      if amount > balance {
        return Err(InsufficientFunds);
      }
      balance := balance - amount;
      return Ok(balance);
    }
  }
}
