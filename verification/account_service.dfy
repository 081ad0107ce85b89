/**
 * The service façade of services/AccountService.ts. Each wrapper re-checks
 * the guard of the entity method it calls and reports the outcome as a
 * record instead of an error; a failure from the entity itself becomes the
 * same kind of record. It also holds the simple-interest maturity formula of
 * a CDT and the portfolio total.
 */
module AccountService {
  import opened Base
  import SavingModel
  import CheckingModel
  import CdtModel

  const CdtAlreadyClosed := "CDT ya estaba cerrado"

  /** `{ success, newBalance, error? }` */
  datatype BalanceOutcome = BalanceOutcome(success: bool, newBalance: real, error: Option<string>)

  /** `{ success, interest, totalWithInterest, error? }` */
  datatype InterestOutcome = InterestOutcome(success: bool, interest: real, totalWithInterest: real, error: Option<string>)

  /** `{ finalBalance, accumulatedInterest }` */
  datatype Maturity = Maturity(finalBalance: real, accumulatedInterest: real)

  /** `{ success, finalBalance, error? }` */
  datatype CloseOutcome = CloseOutcome(success: bool, finalBalance: real, error: Option<string>)

  method DepositToSavingAccount(account: SavingModel.SavingAccount, amount: JsNumber) returns (r: BalanceOutcome)
    modifies account
    ensures r.newBalance == account.Balance
    ensures r.success <==> amount.IsPositiveFinite()
    ensures !r.success ==> account.Balance == old(account.Balance) && r.error == Some(SavingModel.InvalidDeposit)
    ensures r.success ==> account.Balance == old(account.Balance) + amount.value && r.error.None?
    ensures account.Rate == old(account.Rate) && account.Id == old(account.Id)
  {
    if !amount.IsPositiveFinite() {
      return BalanceOutcome(false, account.Balance, Some(SavingModel.InvalidDeposit));
    }
    var res := account.Deposit(amount);
    return BalanceOutcome(res.Ok?, account.Balance, res.ErrorMessage());
  }

  method WithdrawFromSavingAccount(account: SavingModel.SavingAccount, amount: JsNumber) returns (r: BalanceOutcome)
    modifies account
    ensures r.newBalance == account.Balance
    ensures r.success <==> amount.IsPositiveFinite() && amount.value <= old(account.Balance)
    ensures !amount.IsPositiveFinite() ==> r.error == Some(SavingModel.InvalidWithdrawal)
    ensures amount.IsPositiveFinite() && amount.value > old(account.Balance) ==> r.error == Some(SavingModel.InsufficientFunds)
    ensures !r.success ==> account.Balance == old(account.Balance)
    ensures r.success ==> account.Balance == old(account.Balance) - amount.value && account.Balance >= 0.0 && r.error.None?
    ensures account.Rate == old(account.Rate) && account.Id == old(account.Id)
  {
    if !amount.IsPositiveFinite() {
      return BalanceOutcome(false, account.Balance, Some(SavingModel.InvalidWithdrawal));
    }
    if amount.value > account.Balance {
      return BalanceOutcome(false, account.Balance, Some(SavingModel.InsufficientFunds));
    }
    var res := account.Retire(amount);
    return BalanceOutcome(res.Ok?, account.Balance, res.ErrorMessage());
  }

  /** Only a non-positive amount is refused; there is no finiteness test. */
  method DepositToCheckingAccount(account: CheckingModel.CheckingAccount, amount: real) returns (r: BalanceOutcome)
    modifies account
    ensures r.newBalance == account.Balance()
    ensures r.success <==> amount > 0.0
    ensures !r.success ==> account.Balance() == old(account.Balance()) && r.error == Some(SavingModel.InvalidDeposit)
    ensures r.success ==> account.Balance() == old(account.Balance()) + amount && r.error.None?
  {
    if amount <= 0.0 {
      return BalanceOutcome(false, account.Balance(), Some(SavingModel.InvalidDeposit));
    }
    var res := account.Deposit(amount);
    return BalanceOutcome(res.Ok?, account.Balance(), res.ErrorMessage());
  }

  /** Refuses a non-positive amount or one above the balance; there is no finiteness test. */
  method WithdrawFromCheckingAccount(account: CheckingModel.CheckingAccount, amount: real) returns (r: BalanceOutcome)
    modifies account
    ensures r.newBalance == account.Balance()
    ensures r.success <==> 0.0 < amount <= old(account.Balance())
    ensures amount <= 0.0 ==> r.error == Some(SavingModel.InvalidWithdrawal)
    ensures 0.0 < amount && amount > old(account.Balance()) ==> r.error == Some(SavingModel.InsufficientFunds)
    ensures !r.success ==> account.Balance() == old(account.Balance())
    ensures r.success ==> account.Balance() == old(account.Balance()) - amount && account.Balance() >= 0.0 && r.error.None?
  {
    if amount <= 0.0 {
      return BalanceOutcome(false, account.Balance(), Some(SavingModel.InvalidWithdrawal));
    }
    if amount > account.Balance() {
      return BalanceOutcome(false, account.Balance(), Some(SavingModel.InsufficientFunds));
    }
    var res := account.Retire(amount);
    return BalanceOutcome(res.Ok?, account.Balance(), res.ErrorMessage());
  }

  /**
   * Interest of a savings account after `months` months, with the balance
   * it would then hold. Fails for a month count that is not a non-negative
   * whole number. Changes nothing.
   */
  function CalculateSavingAccountInterest(account: SavingModel.SavingAccount, months: JsNumber): (r: InterestOutcome)
    reads account
    ensures r.success <==> months.IsNonNegativeInteger()
    ensures !r.success ==> r.interest == 0.0 && r.totalWithInterest == account.Balance
    ensures !r.success ==> r.error == Some(SavingModel.InvalidMonths)
    ensures r.success ==> r.interest == SavingModel.CompoundInterest(account.Balance, account.Rate, WholeMonths(months))
    ensures r.success ==> r.totalWithInterest == account.Balance + r.interest && r.error.None?
  {
    if !months.IsNonNegativeInteger() then
      InterestOutcome(false, 0.0, account.Balance, Some(SavingModel.InvalidMonths))
    else
      var interest := account.CalculateRate(months);
      InterestOutcome(interest.Ok?, interest.GetOr(0.0), account.Balance + interest.GetOr(0.0), interest.ErrorMessage())
  }

  /**
   * Simple interest on `balance` at the annual `rate` for a term of `time`
   * months, prorated by the term in years, and the balance at maturity.
   */
  function MaturityOf(balance: real, rate: real, time: int): (m: Maturity)
    ensures m.finalBalance == balance + m.accumulatedInterest
    ensures time == 12 ==> m.accumulatedInterest == balance * rate
    ensures time == 0 || rate == 0.0 || balance == 0.0 ==> m.accumulatedInterest == 0.0
    ensures balance >= 0.0 && rate >= 0.0 && time >= 0 ==> m.finalBalance >= balance
  {
    var accumulatedInterest := balance * (rate * (time as real / 12.0));
    assert balance >= 0.0 && rate >= 0.0 && time >= 0 ==> accumulatedInterest >= 0.0 by {
      if balance >= 0.0 && rate >= 0.0 && time >= 0 {
        var f := rate * (time as real / 12.0);
        assert f >= 0.0;
        assert balance * f >= 0.0 * f;
      }
    }
    Maturity(balance + accumulatedInterest, accumulatedInterest)
  }

  /** `calculateCDTMaturity`: the maturity of the CDT as it is now, whether or not it is still active. */
  function CalculateCdtMaturity(cdt: CdtModel.Cdt): (m: Maturity)
    reads cdt
    ensures m == MaturityOf(cdt.Balance, cdt.Rate, cdt.Time)
  {
    MaturityOf(cdt.Balance, cdt.Rate, cdt.Time)
  }

  /** One million at 5% for twelve months matures at 1,050,000 with 50,000 of interest. */
  lemma MaturityExample()
    ensures MaturityOf(1000000.0, 0.05, 12) == Maturity(1050000.0, 50000.0)
  {
  }

  /**
   * Closes an active CDT and reports its maturity balance; an inactive CDT is
   * refused with its principal. Either way the CDT ends closed and its
   * principal, term, rate and id are untouched.
   */
  method CloseCdt(cdt: CdtModel.Cdt) returns (r: CloseOutcome)
    modifies cdt
    ensures !cdt.Active
    ensures r.success <==> old(cdt.Active)
    ensures !r.success ==> r.finalBalance == cdt.Balance && r.error == Some(CdtAlreadyClosed)
    ensures r.success ==> r.finalBalance == MaturityOf(cdt.Balance, cdt.Rate, cdt.Time).finalBalance && r.error.None?
    ensures cdt.Balance == old(cdt.Balance) && cdt.Time == old(cdt.Time) && cdt.Rate == old(cdt.Rate) && cdt.Id == old(cdt.Id)
  {
    if !cdt.Active {
      return CloseOutcome(false, cdt.Balance, Some(CdtAlreadyClosed));
    }
    var maturity := CalculateCdtMaturity(cdt);
    var _ := cdt.ClosedCdt();
    return CloseOutcome(true, maturity.finalBalance, None);
  }

  /** The portfolio total: exactly the sum of the three current balances. */
  function CalculateTotalBalance(saving: SavingModel.SavingAccount, checking: CheckingModel.CheckingAccount, cdt: CdtModel.Cdt): (total: real)
    reads saving, checking, cdt
    ensures total - cdt.Balance == saving.Balance + checking.Balance()
    ensures saving.Balance >= 0.0 && checking.Balance() >= 0.0 && cdt.Balance >= 0.0 ==> total >= cdt.Balance
  {
    saving.Balance + checking.Balance() + cdt.Balance
  }

  /*
   * The total stays exact across the service's transitions: every accepted
   * deposit or withdrawal moves it by exactly the amount, and every refusal
   * and every CDT closing leaves it where it was.
   */

  /** A savings deposit raises the total by the amount, or leaves it when refused. */
  method TotalAfterSavingDeposit(saving: SavingModel.SavingAccount, checking: CheckingModel.CheckingAccount, cdt: CdtModel.Cdt, amount: JsNumber)
    returns (r: BalanceOutcome)
    modifies saving
    ensures r.success <==> amount.IsPositiveFinite()
    ensures r.success ==> CalculateTotalBalance(saving, checking, cdt) == old(CalculateTotalBalance(saving, checking, cdt)) + amount.value
    ensures !r.success ==> CalculateTotalBalance(saving, checking, cdt) == old(CalculateTotalBalance(saving, checking, cdt))
  {
    r := DepositToSavingAccount(saving, amount);
  }

  /** A savings withdrawal lowers the total by the amount, or leaves it when refused. */
  method TotalAfterSavingWithdrawal(saving: SavingModel.SavingAccount, checking: CheckingModel.CheckingAccount, cdt: CdtModel.Cdt, amount: JsNumber)
    returns (r: BalanceOutcome)
    modifies saving
    ensures r.success <==> amount.IsPositiveFinite() && amount.value <= old(saving.Balance)
    ensures r.success ==> CalculateTotalBalance(saving, checking, cdt) == old(CalculateTotalBalance(saving, checking, cdt)) - amount.value
    ensures !r.success ==> CalculateTotalBalance(saving, checking, cdt) == old(CalculateTotalBalance(saving, checking, cdt))
  {
    r := WithdrawFromSavingAccount(saving, amount);
  }

  /** A checking deposit raises the total by the amount, or leaves it when refused. */
  method TotalAfterCheckingDeposit(saving: SavingModel.SavingAccount, checking: CheckingModel.CheckingAccount, cdt: CdtModel.Cdt, amount: real)
    returns (r: BalanceOutcome)
    modifies checking
    ensures r.success ==> CalculateTotalBalance(saving, checking, cdt) == old(CalculateTotalBalance(saving, checking, cdt)) + amount
    ensures !r.success ==> CalculateTotalBalance(saving, checking, cdt) == old(CalculateTotalBalance(saving, checking, cdt))
  {
    r := DepositToCheckingAccount(checking, amount);
  }

  /** A checking withdrawal lowers the total by the amount, or leaves it when refused. */
  method TotalAfterCheckingWithdrawal(saving: SavingModel.SavingAccount, checking: CheckingModel.CheckingAccount, cdt: CdtModel.Cdt, amount: real)
    returns (r: BalanceOutcome)
    modifies checking
    ensures r.success ==> CalculateTotalBalance(saving, checking, cdt) == old(CalculateTotalBalance(saving, checking, cdt)) - amount
    ensures !r.success ==> CalculateTotalBalance(saving, checking, cdt) == old(CalculateTotalBalance(saving, checking, cdt))
  {
    r := WithdrawFromCheckingAccount(checking, amount);
  }

  /**
   * Closing the CDT never changes the total, accepted or refused: the total
   * keeps counting the principal, not the maturity balance reported.
   */
  method TotalAfterCloseCdt(saving: SavingModel.SavingAccount, checking: CheckingModel.CheckingAccount, cdt: CdtModel.Cdt)
    returns (r: CloseOutcome)
    modifies cdt
    ensures CalculateTotalBalance(saving, checking, cdt) == old(CalculateTotalBalance(saving, checking, cdt))
  {
    r := CloseCdt(cdt);
  }
}
