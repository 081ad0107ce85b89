/**
 * The logic of the CDT creation form (components/CreateCDT.tsx): how its
 * numeric fields are read, the chain of checks run on submit, and the
 * interest estimate shown beside the form.
 */
module CreateCdtForm {
  import opened Base
  import AccountService

  const BlankId := "ID del CDT no puede estar vacío"
  const NonPositiveBalance := "El balance debe ser mayor a 0"
  const TermOutOfRange := "El plazo debe estar entre 1 y 60 meses"
  const RateOutOfRange := "La tasa debe estar entre 0.01% y 20%"

  /** The form state once its fields are read. The term comes from a list of whole months. */
  datatype CdtForm = CdtForm(id: string, balance: real, months: int, rate: real)

  /** The arguments handed to the creation callback, in its order `(id, months, balance, rate)`. */
  datatype CdtRequest = CdtRequest(id: string, months: int, balance: real, rate: real)

  /**
   * `parseFloat(value) || 0` for the balance and rate fields: `None` is text
   * that does not parse (NaN). Text that fails to parse, or parses to zero,
   * gives 0; any other number is kept.
   */
  function FieldValue(parsed: Option<real>): (v: real)
    ensures v == 0.0 <==> parsed.None? || parsed == Some(0.0)
    ensures parsed.Some? && parsed.value != 0.0 ==> v == parsed.value
  {
    match parsed
    case None => 0.0
    case Some(x) => if x == 0.0 then 0.0 else x
  }

  /** The same coercion for the term field, whose options are whole months. */
  function MonthsValue(parsed: Option<int>): (v: int)
    ensures v == 0 <==> parsed.None? || parsed == Some(0)
    ensures parsed.Some? && parsed.value != 0 ==> v == parsed.value
  {
    match parsed
    case None => 0
    case Some(x) => if x == 0 then 0 else x
  }

  /** The characters `String.prototype.trim` removes: ECMAScript white space and line terminators. */
  predicate IsWhitespace(c: char) {
    || c == '\t' || c == '\n' || c == '\r' || c == ' '
    || c == '\U{000B}' || c == '\U{000C}' || c == '\U{00A0}' || c == '\U{1680}'
    || ('\U{2000}' <= c <= '\U{200A}')
    || c == '\U{2028}' || c == '\U{2029}' || c == '\U{202F}' || c == '\U{205F}'
    || c == '\U{3000}' || c == '\U{FEFF}'
  }

  /** `!s.trim()`: the text is empty once trimmed. */
  predicate IsBlank(s: string) {
    forall i :: 0 <= i < |s| ==> IsWhitespace(s[i])
  }

  /**
   * The checks run on submit, in order: the first one that fails gives the
   * message, and the form is accepted only when all of them pass.
   */
  function ValidateCdtForm(f: CdtForm): (v: Outcome)
    ensures v.Pass? <==> !IsBlank(f.id) && f.balance > 0.0 && 1 <= f.months <= 60 && 0.0 < f.rate <= 0.2
    ensures IsBlank(f.id) ==> v == Fail(BlankId)
    ensures !IsBlank(f.id) && f.balance <= 0.0 ==> v == Fail(NonPositiveBalance)
    ensures !IsBlank(f.id) && f.balance > 0.0 && !(1 <= f.months <= 60) ==> v == Fail(TermOutOfRange)
    ensures !IsBlank(f.id) && f.balance > 0.0 && 1 <= f.months <= 60 && !(0.0 < f.rate <= 0.2) ==> v == Fail(RateOutOfRange)
  {
    if IsBlank(f.id) then Fail(BlankId)
    else if f.balance <= 0.0 then Fail(NonPositiveBalance)
    else if f.months <= 0 || f.months > 60 then Fail(TermOutOfRange)
    else if f.rate <= 0.0 || f.rate > 0.2 then Fail(RateOutOfRange)
    else Pass
  }

  /** What a submit hands to the creation callback: the form's values, only when every check passes. */
  function Submit(f: CdtForm): (call: Option<CdtRequest>)
    ensures call.Some? <==> ValidateCdtForm(f).Pass?
    ensures call.Some? ==> call.value == CdtRequest(f.id, f.months, f.balance, f.rate)
  {
    if ValidateCdtForm(f).Pass? then Some(CdtRequest(f.id, f.months, f.balance, f.rate)) else None
  }

  /** `{ estimatedInterest, finalBalance }` shown beside the form. */
  datatype Estimate = Estimate(interest: real, finalBalance: real)

  /**
   * The simple-interest estimate for the form's values. It is the maturity
   * the service computes for a CDT opened with those values.
   */
  function EstimateOf(f: CdtForm): (e: Estimate)
    ensures e.finalBalance == f.balance + e.interest
    ensures e.interest == AccountService.MaturityOf(f.balance, f.rate, f.months).accumulatedInterest
    ensures e.finalBalance == AccountService.MaturityOf(f.balance, f.rate, f.months).finalBalance
  {
    var estimatedInterest := f.balance * (f.rate * (f.months as real / 12.0));
    Estimate(estimatedInterest, f.balance + estimatedInterest)
  }

  /**
   * For a form that passes the checks the estimate is positive and at most the
   * balance itself: 20% a year for at most five years.
   */
  lemma AcceptedEstimateBounds(f: CdtForm)
    requires ValidateCdtForm(f).Pass?
    ensures 0.0 < EstimateOf(f).interest <= f.balance
  {
    var years := f.months as real / 12.0;
    assert 0.0 < years <= 5.0;
    var factor := f.rate * years;
    assert 0.0 < factor <= 1.0 by {
      assert f.rate * years > 0.0 * years;
      assert f.rate * years <= 0.2 * years;
    }
    ScaledDown(f.balance, factor, EstimateOf(f).interest);
  }

  /** Scaling a positive amount by a factor in (0, 1] gives a positive amount no larger than it. */
  lemma ScaledDown(b: real, factor: real, scaled: real)
    requires b > 0.0 && 0.0 < factor <= 1.0 && scaled == b * factor
    ensures 0.0 < scaled <= b
  {
    assert b * factor > b * 0.0;
    assert b * (1.0 - factor) >= 0.0 * (1.0 - factor);
    assert b * (1.0 - factor) == b - b * factor;
  }
}
