/**
 * The month-by-month growth table of components/ModalShowBalance.tsx: how the
 * modal tells the three account kinds apart by the members an object has,
 * and the rows it builds for each kind.
 */
module BalanceProjection {
  import opened Base
  import SavingModel
  import CheckingModel
  import CdtModel
  import AccountService

  datatype Kind = SavingKind | CdtKind | CheckingKind

  /** Which of the members the modal looks for an account object has. */
  datatype Shape = Shape(hasCalculateRate: bool, hasTime: bool, hasActive: bool)

  /** `'CalculateRate' in acc` */
  predicate IsSavingAccount(s: Shape) {
    s.hasCalculateRate
  }

  /** `'Time' in acc && 'Active' in acc` */
  predicate IsCdt(s: Shape) {
    s.hasTime && s.hasActive
  }

  /** Neither of the other two guards holds. */
  predicate IsCheckingAccount(s: Shape) {
    !IsSavingAccount(s) && !IsCdt(s)
  }

  /** `accountType`: savings first, then CDT, otherwise checking; exactly one kind is chosen. */
  function KindOf(s: Shape): (k: Kind)
    ensures k == SavingKind <==> IsSavingAccount(s)
    ensures k == CdtKind <==> !IsSavingAccount(s) && IsCdt(s)
    ensures k == CheckingKind <==> IsCheckingAccount(s)
  {
    if IsSavingAccount(s) then SavingKind
    else if IsCdt(s) then CdtKind
    else CheckingKind
  }

  /** An account handed to the modal. */
  datatype AccountRef =
    | SavingRef(saving: SavingModel.SavingAccount)
    | CheckingRef(checking: CheckingModel.CheckingAccount)
    | CdtRef(cdt: CdtModel.Cdt)

  /** The members each account class has; the guards then pick the right kind for every class. */
  function ShapeOf(a: AccountRef): (s: Shape)
    ensures KindOf(s) == SavingKind <==> a.SavingRef?
    ensures KindOf(s) == CdtKind <==> a.CdtRef?
    ensures KindOf(s) == CheckingKind <==> a.CheckingRef?
  {
    match a
    case SavingRef(_) => Shape(true, false, false)
    case CheckingRef(_) => Shape(false, false, false)
    case CdtRef(_) => Shape(false, true, true)
  }

  /** `{ month, balance, interest }` */
  datatype GrowthRow = GrowthRow(month: int, balance: real, interest: real)

  /** Savings row for month `i`: compound interest so far and the balance with it. */
  function SavingRow(balance: real, rate: real, i: nat): GrowthRow {
    var interest := SavingModel.Interest(balance, rate, i);
    GrowthRow(i, balance + interest, interest)
  }

  /** Simple interest accrued after `i` months at the annual `rate`, counted month by month. */
  function LinearInterest(balance: real, rate: real, i: int): real {
    balance * (rate / 12.0 * i as real)
  }

  /**
   * CDT row for month `m`: simple interest grows linearly up to the term and
   * is pinned to the maturity values after it. The CDT's `Active` flag plays
   * no part.
   */
  function CdtRow(balance: real, rate: real, time: int, m: int): GrowthRow {
    if m <= time then
      var interest := LinearInterest(balance, rate, m);
      GrowthRow(m, balance + interest, interest)
    else
      var maturity := AccountService.MaturityOf(balance, rate, time);
      GrowthRow(m, maturity.finalBalance, maturity.accumulatedInterest)
  }

  /** Month of the first CDT row: 0, unless the term is negative and only the pinned rows remain. */
  function CdtFirstMonth(time: int): int {
    if time >= 0 then 0 else time + 1
  }

  /** Checking row: no interest, the balance as it is. */
  function CheckingRow(balance: real, i: nat): GrowthRow {
    GrowthRow(i, balance, 0.0)
  }

  /** The linear CDT row at the end of the term is the maturity: the pinned rows continue it without a jump. */
  lemma CdtRowMeetsMaturity(balance: real, rate: real, time: int)
    ensures CdtRow(balance, rate, time, time).balance == AccountService.MaturityOf(balance, rate, time).finalBalance
    ensures CdtRow(balance, rate, time, time).interest == AccountService.MaturityOf(balance, rate, time).accumulatedInterest
  {
  }

  /** Simple interest does not decrease month over month when balance and rate are not negative. */
  lemma LinearInterestMonotone(balance: real, rate: real, m: int, n: int)
    requires balance >= 0.0 && rate >= 0.0 && m <= n
    ensures LinearInterest(balance, rate, m) <= LinearInterest(balance, rate, n)
  {
    var c := balance * (rate / 12.0);
    assert c >= 0.0 by {
      assert balance * (rate / 12.0) >= 0.0 * (rate / 12.0);
    }
    assert c * (n - m) as real >= 0.0 * (n - m) as real;
    assert LinearInterest(balance, rate, n) - LinearInterest(balance, rate, m) == c * (n - m) as real;
  }

  /** The balances of the CDT table never decrease from one month to a later one. */
  lemma CdtRowsNonDecreasing(balance: real, rate: real, time: int, m: int, n: int)
    requires balance >= 0.0 && rate >= 0.0 && m <= n
    ensures CdtRow(balance, rate, time, m).balance <= CdtRow(balance, rate, time, n).balance
  {
    if n <= time {
      LinearInterestMonotone(balance, rate, m, n);
    } else if m <= time {
      LinearInterestMonotone(balance, rate, m, time);
      CdtRowMeetsMaturity(balance, rate, time);
    }
  }

  /** The balances of the savings table never decrease, and its first row earns nothing. */
  lemma SavingRowsNonDecreasing(balance: real, rate: real, m: nat, n: nat)
    requires balance >= 0.0 && rate >= 0.0 && m <= n
    ensures SavingRow(balance, rate, m).balance <= SavingRow(balance, rate, n).balance
    ensures SavingRow(balance, rate, 0).interest == 0.0
  {
    SavingModel.InterestMonotone(balance, rate, m, n);
  }

  /**
   * `growthData`: the table for `months` months of the given account. The
   * savings and checking tables have one row per month from 0 to `months`;
   * the CDT table has its linear rows up to the term and pinned rows after it.
   */
  method GrowthData(account: AccountRef, months: nat) returns (data: seq<GrowthRow>)
    ensures account.SavingRef? ==>
      && |data| == months + 1
      && forall k :: 0 <= k < |data| ==> data[k] == SavingRow(account.saving.Balance, account.saving.Rate, k)
    ensures account.CdtRef? ==>
      var cdt := account.cdt;
      var first := CdtFirstMonth(cdt.Time);
      && |data| == months + 1 - first
      && forall k :: 0 <= k < |data| ==> data[k] == CdtRow(cdt.Balance, cdt.Rate, cdt.Time, first + k)
    ensures account.CheckingRef? ==>
      && |data| == months + 1
      && forall k :: 0 <= k < |data| ==> data[k] == CheckingRow(account.checking.Balance(), k)
  {
    data := [];
    var kind := KindOf(ShapeOf(account));
    if kind == SavingKind {
      var saving := account.saving;
      var i := 0;
      while i <= months
        invariant 0 <= i <= months + 1
        invariant |data| == i
        invariant forall k :: 0 <= k < i ==> data[k] == SavingRow(saving.Balance, saving.Rate, k)
      {
        var result := AccountService.CalculateSavingAccountInterest(saving, Finite(i as real));
        if result.success {
          data := data + [GrowthRow(i, result.totalWithInterest, result.interest)];
        }
        i := i + 1;
      }
    } else if kind == CdtKind {
      var cdt := account.cdt;
      var maturity := AccountService.CalculateCdtMaturity(cdt);
      var monthlyRate := cdt.Rate / 12.0;
      var last := if months < cdt.Time then months else cdt.Time;
      var i := 0;
      while i <= last
        invariant 0 <= i && (last >= 0 ==> i <= last + 1) && (last < 0 ==> i == 0)
        invariant |data| == i
        invariant forall k :: 0 <= k < i ==> data[k] == CdtRow(cdt.Balance, cdt.Rate, cdt.Time, k)
      {
        var interestAtMonth := cdt.Balance * (monthlyRate * i as real);
        data := data + [GrowthRow(i, cdt.Balance + interestAtMonth, interestAtMonth)];
        i := i + 1;
      }
      var first := CdtFirstMonth(cdt.Time);
      if cdt.Time < months {
        var j := cdt.Time + 1;
        while j <= months
          invariant cdt.Time + 1 <= j <= months + 1
          invariant |data| == j - first
          invariant forall k :: 0 <= k < |data| ==> data[k] == CdtRow(cdt.Balance, cdt.Rate, cdt.Time, first + k)
        {
          data := data + [GrowthRow(j, maturity.finalBalance, maturity.accumulatedInterest)];
          j := j + 1;
        }
      }
    } else {
      var checking := account.checking;
      var i := 0;
      while i <= months
        invariant 0 <= i <= months + 1
        invariant |data| == i
        invariant forall k :: 0 <= k < i ==> data[k] == CheckingRow(checking.Balance(), k)
      {
        data := data + [GrowthRow(i, checking.Balance(), 0.0)];
        i := i + 1;
      }
    }
  }

  /** `growthPercentage`: interest as a percentage of the initial balance, 0 when that balance is not positive. */
  function GrowthPercentage(initialBalance: real, totalInterest: real): (pct: real)
    ensures initialBalance <= 0.0 ==> pct == 0.0
    ensures initialBalance > 0.0 ==> pct * initialBalance == totalInterest * 100.0
  {
    if initialBalance > 0.0 then totalInterest / initialBalance * 100.0 else 0.0
  }
}
