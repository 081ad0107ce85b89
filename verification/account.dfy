/**
 * The ledger account of models/Account.ts: a record in the general ledger
 * with read-only owner and account ids and a balance whose setter rejects
 * anything that is not a number. Infinity is a number, so it is accepted.
 */
module AccountModel {
  import opened Base

  const InvalidBalance := "Balance must be a valid number"

  class Account {
    const clientId: string
    const accountId: string
    var balance: JsNumber

    /** An omitted balance defaults to 0. */
    constructor(clientId: string, accountId: string, balance: Option<JsNumber>)
      ensures this.clientId == clientId && this.accountId == accountId
      ensures balance.None? ==> this.balance == Finite(0.0)
      ensures balance.Some? ==> this.balance == balance.value
    {
      this.clientId := clientId;
      this.accountId := accountId;
      this.balance := balance.GetOr(Finite(0.0));
    }

    /** `getBalance`: reads the stored balance and changes nothing. */
    function GetBalance(): (b: JsNumber)
      reads this
      ensures b == balance
    {
      balance
    }

    /** Stores any number but NaN; NaN is refused with a type error and changes nothing. */
    method SetBalance(newBalance: JsNumber) returns (r: Outcome)
      modifies this`balance
      ensures r.Fail? <==> newBalance.IsNaN()
      ensures r.Fail? ==> r.message == InvalidBalance && balance == old(balance)
      ensures r.Pass? ==> GetBalance() == newBalance
    {
      if newBalance.IsNaN() {
        return Fail(InvalidBalance);
      }
      balance := newBalance;
      return Pass;
    }
  }
}
