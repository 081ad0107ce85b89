/**
 * The term deposit (CDT) of models/CDT.ts: a principal, a term in months and
 * an annual rate, open when created. `ClosedCdt` is the only method that
 * writes `Active`, and it only ever clears it; the class itself never reopens
 * a CDT.
 */
module CdtModel {

  class Cdt {
    var Id: string
    /** The principal used to open the CDT. */
    var Balance: real
    /** Term in months. */
    var Time: int
    /** Annual rate as a fraction. */
    var Rate: real
    var Active: bool

    constructor(id: string, time: int, balance: real, rate: real)
      ensures Id == id && Time == time && Balance == balance && Rate == rate
      ensures Active
    {
      Id := id;
      Time := time;
      Rate := rate;
      Balance := balance;
      Active := true;
    }

    /**
     * Marks the CDT closed and returns its principal (not the matured
     * value). There is no guard: closing a closed CDT succeeds again.
     */
    method ClosedCdt() returns (r: real)
      modifies this`Active
      ensures !Active
      ensures r == Balance
    {
      Active := false;
      r := Balance;
    }
  }

  /** Closing twice gives the same answer both times and leaves the CDT closed. */
  method CloseTwice(c: Cdt) returns (first: real, second: real)
    modifies c
    ensures first == second == old(c.Balance)
    ensures !c.Active
    ensures c.Id == old(c.Id) && c.Time == old(c.Time) && c.Rate == old(c.Rate) && c.Balance == old(c.Balance)
  {
    first := c.ClosedCdt();
    second := c.ClosedCdt();
  }
}
