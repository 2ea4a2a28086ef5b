/** The inbox a consumer keeps: the first delivery of an event claims it, for ever. */
module Inbox {
  datatype ClaimState = Processing | Processed | ClaimFailed

  // How a delivery ends: at full length, with an error or a crash before the transaction commits, or with an
  // error or a crash between the commit and the inbox update.
  datatype Landing = Completed | FailedEarly | CrashedEarly | FailedLate | CrashedLate

  /** Whether the delivery's transaction commits. */
  predicate Begun(landing: Landing) {
    landing.Completed? || landing.FailedLate? || landing.CrashedLate?
  }

  /** What the delivery leaves in the inbox. */
  function Ending(landing: Landing): ClaimState {
    match landing
    case Completed => Processed
    case FailedEarly => ClaimFailed
    case FailedLate => ClaimFailed
    case CrashedEarly => Processing
    case CrashedLate => Processing
  }
}
