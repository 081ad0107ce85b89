/**
 * The portfolio table of components/ModalPortfolioSimulation.tsx: for each
 * month from 0 to the chosen horizon, the projected balance of the savings
 * account, the checking account and the CDT, their total, and the growth of
 * the total over today's.
 */
module PortfolioProjection {
  import opened Base
  import SavingModel
  import CheckingModel
  import CdtModel
  import AccountService
  import BalanceProjection

  /** `PortfolioData` */
  datatype PortfolioRow = PortfolioRow(
    month: nat,
    savingBalance: real,
    checkingBalance: real,
    cdtBalance: real,
    totalBalance: real,
    totalInterest: real)

  /** The fields of the three accounts that the table depends on. */
  datatype Portfolio = Portfolio(
    savingBalance: real,
    savingRate: real,
    checkingBalance: real,
    cdtBalance: real,
    cdtRate: real,
    cdtTime: int,
    cdtActive: bool)

  function PortfolioOf(saving: SavingModel.SavingAccount, checking: CheckingModel.CheckingAccount, cdt: CdtModel.Cdt): Portfolio
    reads saving, checking, cdt
  {
    Portfolio(saving.Balance, saving.Rate, checking.Balance(), cdt.Balance, cdt.Rate, cdt.Time, cdt.Active)
  }

  /** Today's total of the three balances. */
  function InitialTotal(p: Portfolio): real {
    p.savingBalance + p.checkingBalance + p.cdtBalance
  }

  /**
   * Projected CDT balance after `i` months: the principal for a closed CDT;
   * for an open one, linear simple interest up to the term and the maturity
   * balance after it.
   */
  function CdtBalanceAt(p: Portfolio, i: nat): real {
    if !p.cdtActive then p.cdtBalance
    else if i <= p.cdtTime then p.cdtBalance + BalanceProjection.LinearInterest(p.cdtBalance, p.cdtRate, i)
    else AccountService.MaturityOf(p.cdtBalance, p.cdtRate, p.cdtTime).finalBalance
  }

  /** The row for month `i`. */
  function PortfolioRowAt(p: Portfolio, i: nat): PortfolioRow {
    var saving := p.savingBalance + SavingModel.Interest(p.savingBalance, p.savingRate, i);
    var cdt := CdtBalanceAt(p, i);
    var total := saving + p.checkingBalance + cdt;
    PortfolioRow(i, saving, p.checkingBalance, cdt, total, total - InitialTotal(p))
  }

  /**
   * `portfolioData`: one row per month from 0 to `months`, row `i` for month
   * `i`, with the checking balance the same in every row.
   */
  method PortfolioData(saving: SavingModel.SavingAccount, checking: CheckingModel.CheckingAccount, cdt: CdtModel.Cdt, months: nat)
    returns (data: seq<PortfolioRow>)
    ensures |data| == months + 1
    ensures forall i :: 0 <= i < |data| ==> data[i] == PortfolioRowAt(PortfolioOf(saving, checking, cdt), i)
    ensures forall i :: 0 <= i < |data| ==> data[i].month == i && data[i].checkingBalance == checking.Balance()
  {
    data := [];
    var i := 0;
    while i <= months
      invariant 0 <= i <= months + 1
      invariant |data| == i
      invariant forall k :: 0 <= k < i ==> data[k] == PortfolioRowAt(PortfolioOf(saving, checking, cdt), k)
    {
      var savingResult := AccountService.CalculateSavingAccountInterest(saving, Finite(i as real));
      var savingBalance := saving.Balance;
      if savingResult.success {
        savingBalance := savingResult.totalWithInterest;
      }
      var checkingBalance := checking.Balance();
      var cdtBalance := cdt.Balance;
      if cdt.Active {
        var cdtMonths := cdt.Time;
        if i <= cdtMonths {
          var monthlyRate := cdt.Rate / 12.0;
          var interestAtMonth := cdt.Balance * (monthlyRate * i as real);
          cdtBalance := cdt.Balance + interestAtMonth;
        } else {
          var maturity := AccountService.CalculateCdtMaturity(cdt);
          cdtBalance := maturity.finalBalance;
        }
      }
      var totalBalance := savingBalance + checkingBalance + cdtBalance;
      var initialTotal := saving.Balance + checking.Balance() + cdt.Balance;
      var totalInterest := totalBalance - initialTotal;
      data := data + [PortfolioRow(i, savingBalance, checkingBalance, cdtBalance, totalBalance, totalInterest)];
      i := i + 1;
    }
  }

  /** A closed CDT contributes its principal in every row. */
  lemma ClosedCdtIsFlat(p: Portfolio, i: nat)
    requires !p.cdtActive
    ensures PortfolioRowAt(p, i).cdtBalance == p.cdtBalance
  {
  }

  /** For an open CDT the portfolio column agrees with the CDT's own growth table, month by month. */
  lemma OpenCdtMatchesGrowthTable(p: Portfolio, i: nat)
    requires p.cdtActive
    ensures PortfolioRowAt(p, i).cdtBalance == BalanceProjection.CdtRow(p.cdtBalance, p.cdtRate, p.cdtTime, i).balance
  {
  }

  /** The first row shows today's balances, so its total interest is 0. */
  lemma FirstRowHasNoGrowth(p: Portfolio)
    requires p.cdtTime >= 0 || !p.cdtActive
    ensures PortfolioRowAt(p, 0).totalBalance == InitialTotal(p)
    ensures PortfolioRowAt(p, 0).totalInterest == 0.0
  {
    assert BalanceProjection.LinearInterest(p.cdtBalance, p.cdtRate, 0) == 0.0;
  }

  /**
   * With non-negative balances, rates and term, no row shows a loss: every
   * account is projected at or above its current balance.
   */
  lemma TotalInterestNonNegative(p: Portfolio, i: nat)
    requires p.savingBalance >= 0.0 && p.savingRate >= 0.0
    requires p.cdtBalance >= 0.0 && p.cdtRate >= 0.0 && p.cdtTime >= 0
    ensures PortfolioRowAt(p, i).savingBalance >= p.savingBalance
    ensures PortfolioRowAt(p, i).cdtBalance >= p.cdtBalance
    ensures PortfolioRowAt(p, i).totalInterest >= 0.0
  {
    SavingModel.InterestNonNegative(p.savingBalance, p.savingRate, i);
    if p.cdtActive && i <= p.cdtTime {
      BalanceProjection.LinearInterestMonotone(p.cdtBalance, p.cdtRate, 0, i);
    }
  }
}
