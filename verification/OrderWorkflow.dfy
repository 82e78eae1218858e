/** Order statuses and the moves the services make between them. */
module OrderWorkflow {

  datatype Status =
    | Pending | Confirmed | Preparing | Ready | Completed | Cancelled | Paid | Held | Refunded

  /** The forward transitions `update_status` allows. */
  predicate ValidTransition(current: Status, target: Status) {
    match current
    case Pending => target == Confirmed
    case Confirmed => target == Preparing || target == Ready
    case Preparing => target == Ready
    case Ready => target == Completed
    case Paid => target == Completed
    case _ => false
  }

  predicate Cancellable(status: Status) {
    status == Pending || status == Confirmed || status == Preparing
  }

  predicate Checkoutable(status: Status) {
    Cancellable(status) || status == Ready || status == Held
  }

  predicate Completable(status: Status) {
    status == Pending || status == Ready || status == Paid
  }

  /** Every status write outside cancellation: `update_status`, `checkout_order`,
      `complete_order`, and slip approval, which sets `paid` whatever the status was. */
  predicate Moves(current: Status, target: Status) {
    || ValidTransition(current, target)
    || (Completable(current) && target == Completed)
    || target == Paid
  }

  /** No move and no cancellation leads from a settled status back to a checkoutable one. */
  predicate Settled(status: Status) {
    !Checkoutable(status)
  }

  lemma SettledStays(current: Status, target: Status)
    requires Settled(current) && (Moves(current, target) || (Cancellable(current) && target == Cancelled))
    ensures Settled(target) && !Cancellable(target)
  {
  }
}
