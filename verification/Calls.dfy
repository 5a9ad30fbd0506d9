/** How a call to the API server can end. */
module Calls {
  /** Answered; never arrived; or took effect with its answer lost, which the caller cannot tell from the second. */
  datatype Ending = Answered | Lost | Unanswered {
    predicate Effective() {
      Answered? || Unanswered?
    }
  }
}
