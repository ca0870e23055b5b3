/** Values shared by the package classifier and its fixtures. */
module Types {

  /** The three handling categories; no other value is possible. */
  datatype SortResult = Standard | Special | Rejected

  /** Severity of a category, used to state monotonicity. */
  function Rank(c: SortResult): nat {
    match c
    case Standard => 0
    case Special => 1
    case Rejected => 2
  }

  /** The severities order the categories Standard < Special < Rejected. */
  lemma RankOrder()
    ensures Rank(Standard) < Rank(Special) < Rank(Rejected)
  {
  }

  /**
   * A JavaScript number as the classifier sees it: a finite value, or one of
   * the three non-finite values. The finite value is an exact real; IEEE 754
   * rounding is not modelled.
   */
  datatype Num = Finite(val: real) | PosInf | NegInf | NaN

  /** JavaScript `x <= 0`: true for -Infinity, false for NaN and +Infinity. */
  predicate AtMostZero(x: Num) {
    match x
    case Finite(v) => v <= 0.0
    case NegInf => true
    case PosInf => false
    case NaN => false
  }

  /** JavaScript `isFinite(x)` on a number: false exactly for NaN and the two infinities. */
  predicate IsFinite(x: Num) {
    x.Finite?
  }

  /**
   * Of the non-finite values, the positivity test catches -Infinity alone;
   * NaN and +Infinity are left to the finiteness test.
   */
  lemma NonFiniteSplitByPositivity(x: Num)
    requires !IsFinite(x)
    ensures AtMostZero(x) <==> x == NegInf
    ensures !AtMostZero(x) <==> x == NaN || x == PosInf
  {
  }

  /** The two failures the classifier raises, in the order it checks them. */
  datatype SortError = NonPositive | NonFinite

  datatype Result<+T> = Ok(value: T) | Err(error: SortError)
}
