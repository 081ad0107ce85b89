/**
 * The second CDT class (app/models/CDT.ts): it keeps the opening amount and a
 * balance copied from it, and like the first one only ever clears `Active`.
 */
module AppCdtModel {

  class Cdt {
    /** Id of the ledger account the CDT belongs to. */
    var IdAccount: string
    var Id: int
    var Balance: real
    /** The amount used to open the CDT. */
    var Amount: real
    var Rate: real
    var Active: bool

    constructor(idAccount: string, id: int, amount: real, rate: real)
      ensures IdAccount == idAccount && Id == id && Amount == amount && Rate == rate
      ensures Balance == amount
      ensures Active
    {
      IdAccount := idAccount;
      Id := id;
      Amount := amount;
      Rate := rate;
      Balance := amount;
      Active := true;
    }

    /** Marks the CDT closed and returns its balance unchanged. */
    method ClosedCdt() returns (r: real)
      modifies this`Active
      ensures !Active
      ensures r == Balance
    {
      Active := false;
      r := Balance;
    }
  }

  /** `ClosedCdt` is idempotent: a second call leaves the CDT closed and returns the same value. */
  method CloseTwice(c: Cdt) returns (first: real, second: real)
    modifies c
    ensures first == second == old(c.Balance)
    ensures !c.Active
    ensures c.Balance == old(c.Balance) && c.Amount == old(c.Amount)
    ensures c.IdAccount == old(c.IdAccount) && c.Id == old(c.Id) && c.Rate == old(c.Rate)
  {
    first := c.ClosedCdt();
    second := c.ClosedCdt();
  }
}
