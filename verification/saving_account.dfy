/**
 * The savings account: a balance earning monthly compound interest, with
 * guarded deposits and withdrawals (app/models/SavingAccount.ts).
 */
module SavingModel {
  import opened Base

  const InvalidMonths := "Meses inválidos"
  const InvalidDeposit := "Monto de depósito inválido"
  const InvalidWithdrawal := "Monto de retiro inválido"
  const InsufficientFunds := "Fondos insuficientes"

  /** `Math.pow(x, n)` for a whole exponent. */
  function Pow(x: real, n: nat): (r: real)
    ensures x >= 1.0 ==> r >= 1.0
  {
    if n == 0 then 1.0
    else
      var p := Pow(x, n - 1);
      assert x >= 1.0 ==> x * p >= 1.0 * p;
      x * p
  }

  lemma {:induction false} PowOfOne(n: nat)
    ensures Pow(1.0, n) == 1.0
  {
    if n > 0 {
      PowOfOne(n - 1);
    }
  }

  lemma {:induction false} PowMonotone(x: real, m: nat, n: nat)
    requires x >= 1.0 && m <= n
    ensures Pow(x, m) <= Pow(x, n)
  {
    if m < n {
      PowMonotone(x, m, n - 1);
      var p := Pow(x, n - 1);
      assert p >= 1.0;
      assert x * p >= 1.0 * p;
    }
  }

  /**
   * The compound-interest formula the class documents: the interest, not
   * including the principal, that `balance` earns after `months` months
   * at the monthly `rate`.
   */
  function CompoundInterest(balance: real, rate: real, months: nat): real {
    balance * (Pow(1.0 + rate, months) - 1.0)
  }

  /** The formula gives zero in every case the shortcut of `CalculateRate` catches. */
  lemma ShortcutIsConsistent(balance: real, rate: real, months: nat)
    requires rate == 0.0 || balance == 0.0 || months == 0
    ensures CompoundInterest(balance, rate, months) == 0.0
  {
    if rate == 0.0 {
      PowOfOne(months);
    }
  }

  /** What `CalculateRate` computes once `months` is known to be valid: zero shortcut, else the formula. */
  function Interest(balance: real, rate: real, months: nat): (r: real)
    ensures r == CompoundInterest(balance, rate, months)
  {
    if rate == 0.0 || balance == 0.0 || months == 0 then
      ShortcutIsConsistent(balance, rate, months);
      0.0
    else
      balance * (Pow(1.0 + rate, months) - 1.0)
  }

  /** With a non-negative balance and rate the interest is never negative. */
  lemma InterestNonNegative(balance: real, rate: real, months: nat)
    requires balance >= 0.0 && rate >= 0.0
    ensures Interest(balance, rate, months) >= 0.0
  {
    var p := Pow(1.0 + rate, months);
    assert p - 1.0 >= 0.0;
    assert balance * (p - 1.0) >= 0.0 * (p - 1.0);
  }

  /** With a non-negative balance and rate the interest does not decrease as months pass. */
  lemma InterestMonotone(balance: real, rate: real, m: nat, n: nat)
    requires balance >= 0.0 && rate >= 0.0 && m <= n
    ensures Interest(balance, rate, m) <= Interest(balance, rate, n)
  {
    PowMonotone(1.0 + rate, m, n);
    var p, q := Pow(1.0 + rate, m), Pow(1.0 + rate, n);
    assert balance * (q - 1.0) - balance * (p - 1.0) == balance * (q - p);
    assert balance * (q - p) >= 0.0 * (q - p);
  }

  class SavingAccount {
    var Id: string
    var Balance: real
    /** Monthly rate as a fraction (0.006 is 0.6% a month). */
    var Rate: real

    /** A missing balance or rate defaults to 0. */
    constructor(id: string, balance: Option<real>, rate: Option<real>)
      ensures Id == id
      ensures balance.None? ==> Balance == 0.0
      ensures balance.Some? ==> Balance == balance.value
      ensures rate.None? ==> Rate == 0.0
      ensures rate.Some? ==> Rate == rate.value
    {
      Id := id;
      Balance := balance.GetOr(0.0);
      Rate := rate.GetOr(0.0);
    }

    /**
     * Interest earned after `months` months; fails for a month count that is
     * not a non-negative whole number. Reads the account and changes nothing.
     */
    function CalculateRate(months: JsNumber): (r: Result<real>)
      reads this
      ensures r.Err? <==> !months.IsNonNegativeInteger()
      ensures r.Err? ==> r.message == InvalidMonths
      ensures r.Ok? ==> r.value == CompoundInterest(Balance, Rate, WholeMonths(months))
      ensures r.Ok? && (Rate == 0.0 || Balance == 0.0 || months.value == 0.0) ==> r.value == 0.0
    {
      if !months.IsNonNegativeInteger() then Err(InvalidMonths)
      else Ok(Interest(Balance, Rate, WholeMonths(months)))
    }

    /** Adds a finite positive amount and returns the new balance. */
    method Deposit(amount: JsNumber) returns (r: Result<real>)
      modifies this`Balance
      ensures r.Err? <==> !amount.IsPositiveFinite()
      ensures r.Err? ==> r.message == InvalidDeposit && Balance == old(Balance)
      ensures r.Ok? ==> Balance == old(Balance) + amount.value && r.value == Balance
      ensures r.Ok? ==> Balance > old(Balance)
    {
      if !amount.IsPositiveFinite() {
        return Err(InvalidDeposit);
      }
      Balance := Balance + amount.value;
      return Ok(Balance);
    }

    /** Subtracts a finite positive amount no larger than the balance and returns the new balance. */
    method Retire(amount: JsNumber) returns (r: Result<real>)
      modifies this`Balance
      ensures r.Err? <==> !amount.IsPositiveFinite() || amount.value > old(Balance)
      ensures !amount.IsPositiveFinite() ==> r == Err(InvalidWithdrawal)
      ensures amount.IsPositiveFinite() && amount.value > old(Balance) ==> r == Err(InsufficientFunds)
      ensures r.Err? ==> Balance == old(Balance)
      ensures r.Ok? ==> Balance == old(Balance) - amount.value && r.value == Balance
      ensures old(Balance) >= 0.0 ==> Balance >= 0.0
    {
      if !amount.IsPositiveFinite() {
        return Err(InvalidWithdrawal);
      }
      if amount.value > Balance {
        return Err(InsufficientFunds);
      }
      Balance := Balance - amount.value;
      return Ok(Balance);
    }
  }
}
