// The states a discount assignment's state rows record.
module DiscountStates {

  datatype DynDiscountState = Active | Suspended | Deactive
  {
    /** The one-letter code stored in the state row. */
    function Code(): string
    {
      match this
      case Active => "A"
      case Suspended => "S"
      case Deactive => "D"
    }
  }

  /** The three codes are distinct, so a stored code names one state. */
  lemma CodesDistinct(s: DynDiscountState, t: DynDiscountState)
    ensures s.Code() == t.Code() <==> s == t
  {
  }
}
