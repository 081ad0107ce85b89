/**
 * The two pieces of app/page.tsx that touch the accounts: the total shown on
 * the page, and the transition run when the form creates a CDT, which
 * replaces the CDT singleton, pays for it from the checking account and then
 * syncs the ledger.
 */
module HomePage {
  import opened Base
  import Store
  import CheckingModel
  import AccountService

  /** The total shown on the page: the portfolio total of the three singletons. */
  function TotalBalance(s: Store.Session): (total: real)
    reads s.saving, s.checking, s.cdt
    ensures total == s.saving.Balance + s.checking.Balance() + s.cdt.Balance
  {
    AccountService.CalculateTotalBalance(s.saving, s.checking, s.cdt)
  }

  /**
   * `handleAccountUpdated`: after any account change the ledger is synced.
   * Syncing mirrors every balance and never changes the page total.
   */
  method HandleAccountUpdated(s: Store.Session)
    requires s.Valid()
    modifies s.registry[0], s.registry[1], s.registry[2]
    ensures s.Valid() && s.Mirrored()
    ensures TotalBalance(s) == old(TotalBalance(s))
  {
    s.SyncAccountsRegistry();
  }

  /**
   * `handleCreateCDT` as written: the CDT is overwritten and reopened first,
   * then checking is debited. When the debit fails the CDT stays overwritten,
   * checking is not debited and the ledger is not synced.
   */
  method HandleCreateCdt(s: Store.Session, id: string, months: int, balance: real, rate: real) returns (r: Outcome)
    requires s.Valid()
    modifies s.cdt, s.checking, s.registry[0], s.registry[1], s.registry[2]
    ensures s.Valid()
    ensures s.cdt.Id == id && s.cdt.Time == months && s.cdt.Balance == balance && s.cdt.Rate == rate && s.cdt.Active
    ensures r.Pass? <==> 0.0 < balance <= old(s.checking.Balance())
    ensures r.Pass? ==> s.checking.Balance() == old(s.checking.Balance()) - balance && s.Mirrored()
    ensures r.Pass? ==> TotalBalance(s) == old(TotalBalance(s)) - old(s.cdt.Balance)
    ensures r.Fail? ==> s.checking.Balance() == old(s.checking.Balance())
    ensures r.Fail? ==> unchanged(s.registry[0], s.registry[1], s.registry[2])
    ensures r.Fail? ==> TotalBalance(s) == old(TotalBalance(s)) - old(s.cdt.Balance) + balance
  {
    s.cdt.Id := id;
    s.cdt.Time := months;
    s.cdt.Balance := balance;
    s.cdt.Rate := rate;
    s.cdt.Active := true;
    var debit := s.checking.Retire(balance);
    if debit.Err? {
      return Fail(debit.message);
    }
    s.SyncAccountsRegistry();
    return Pass;
  }

  /**
   * Creating a CDT of 2,000,000 from the initial state, where checking holds
   * only 1,500,000: the debit fails after the CDT was replaced, and the total
   * on the page grows from 4,500,000 to 5,500,000.
   */
  method OverdrawnCreationExample() returns (before: real, after: real, r: Outcome)
    ensures r.Fail?
    ensures before == 4500000.0 && after == 5500000.0
  {
    var s := new Store.Session();
    before := TotalBalance(s);
    r := HandleCreateCdt(s, "CDT_2", 12, 2000000.0, 0.05);
    after := TotalBalance(s);
  }

  /**
   * The transition as evidently intended: the debit is checked before
   * anything is written, so a refused creation leaves every account and the
   * ledger as they were.
   */
  method HandleCreateCdtChecked(s: Store.Session, id: string, months: int, balance: real, rate: real) returns (r: Outcome)
    requires s.Valid()
    modifies s.cdt, s.checking, s.registry[0], s.registry[1], s.registry[2]
    ensures s.Valid()
    ensures r.Pass? <==> 0.0 < balance <= old(s.checking.Balance())
    ensures r.Pass? ==> s.cdt.Id == id && s.cdt.Time == months && s.cdt.Balance == balance && s.cdt.Rate == rate && s.cdt.Active
    ensures r.Pass? ==> s.checking.Balance() == old(s.checking.Balance()) - balance && s.Mirrored()
    ensures r.Fail? ==> unchanged(s.cdt, s.checking, s.registry[0], s.registry[1], s.registry[2])
  {
    if balance <= 0.0 {
      return Fail(CheckingModel.NonPositiveRetire);
    }
    if balance > s.checking.Balance() {
      return Fail(CheckingModel.InsufficientFunds);
    }
    r := HandleCreateCdt(s, id, months, balance, rate);
  }

  /** With the check first, the same overdrawn request changes nothing and the total stays 4,500,000. */
  method CheckedCreationExample() returns (before: real, after: real, r: Outcome)
    ensures r.Fail?
    ensures before == after == 4500000.0
  {
    var s := new Store.Session();
    before := TotalBalance(s);
    r := HandleCreateCdtChecked(s, "CDT_2", 12, 2000000.0, 0.05);
    after := TotalBalance(s);
  }
}
