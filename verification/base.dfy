/**
 * Values shared by every part of the model: JavaScript numbers that may be
 * non-finite, optional values, and the success/failure outcome that stands
 * for a thrown error.
 */
module Base {

  /** A JavaScript `number`: a finite value, NaN, or one of the infinities. */
  datatype JsNumber = Finite(value: real) | NaN | PositiveInfinity | NegativeInfinity {

    /** `isFinite(x)` / `Number.isFinite(x)` */
    predicate IsFinite() {
      Finite?
    }

    /** `isNaN(x)` */
    predicate IsNaN() {
      NaN?
    }

    /** `Number.isInteger(x) && x >= 0`: a finite whole number that is not negative. */
    predicate IsNonNegativeInteger() {
      IsFinite() && value >= 0.0 && value.Floor as real == value
    }

    /** `isFinite(x) && x > 0`: the amount the savings account accepts. */
    predicate IsPositiveFinite() {
      IsFinite() && value > 0.0
    }
  }

  /** The month count carried by a number that passed `IsNonNegativeInteger`. */
  function WholeMonths(n: JsNumber): (m: nat)
    requires n.IsNonNegativeInteger()
    ensures m as real == n.value
  {
    n.value.Floor
  }

  datatype Option<+T> = None | Some(value: T) {
    function GetOr(default: T): T {
      match this
      case Some(v) => v
      case None => default
    }
  }

  /** The result of an entity method that either returns a value or throws an `Error` with a message. */
  datatype Result<+T> = Ok(value: T) | Err(message: string) {

    /** The value on success, `default` on failure. */
    function GetOr(default: T): T {
      match this
      case Ok(v) => v
      case Err(_) => default
    }

    /** The message of a failure, `None` on success. */
    function ErrorMessage(): Option<string> {
      match this
      case Ok(_) => None
      case Err(m) => Some(m)
    }
  }

  /** The result of an entity method that returns nothing or throws. */
  datatype Outcome = Pass | Fail(message: string)
}
