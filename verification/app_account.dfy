/**
 * The second ledger account class (app/models/Account.ts): owner and account
 * ids, a total balance read by `GetBalance`, and a write-only `Balance`
 * setter that refuses NaN.
 */
module AppAccountModel {
  import opened Base

  const InvalidBalance := "newBalance must be a valid number"

  class Account {
    var idCliente: string
    var idAccount: string
    var totalBalance: JsNumber

    /** An omitted total balance defaults to 0. */
    constructor(idCliente: string, idAccount: string, totalBalance: Option<JsNumber>)
      ensures this.idCliente == idCliente && this.idAccount == idAccount
      ensures totalBalance.None? ==> this.totalBalance == Finite(0.0)
      ensures totalBalance.Some? ==> this.totalBalance == totalBalance.value
    {
      this.idCliente := idCliente;
      this.idAccount := idAccount;
      this.totalBalance := totalBalance.GetOr(Finite(0.0));
    }

    /** `GetBalance`: reads the stored total balance and changes nothing. */
    function GetBalance(): (b: JsNumber)
      reads this
      ensures b == totalBalance
    {
      totalBalance
    }

    /** The `Balance` setter: stores any number but NaN; NaN is refused and changes nothing. */
    method SetBalance(newBalance: JsNumber) returns (r: Outcome)
      modifies this`totalBalance
      ensures r.Fail? <==> newBalance.IsNaN()
      ensures r.Fail? ==> r.message == InvalidBalance && totalBalance == old(totalBalance)
      ensures r.Pass? ==> GetBalance() == newBalance
    {
      if newBalance.IsNaN() {
        return Fail(InvalidBalance);
      }
      totalBalance := newBalance;
      return Pass;
    }
  }
}
