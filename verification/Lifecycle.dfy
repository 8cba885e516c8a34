/** Payment statuses and their transition table (services/payment_service/app/domain/payment.py). */
module Lifecycle {

  datatype Status = Created | Pending | Authorized | Captured | PartiallyRefunded | Refunded | Failed | Cancelled

  function Allowed(current: Status): set<Status>
  {
    match current
    case Created => {Pending, Cancelled, Failed}
    case Pending => {Authorized, Failed, Cancelled}
    case Authorized => {Captured, Cancelled, Failed}
    case Captured => {PartiallyRefunded, Status.Refunded}
    case PartiallyRefunded => {PartiallyRefunded, Status.Refunded}
    case Refunded => {}
    case Failed => {}
    case Cancelled => {}
  }

  /** Whether `transition(current, target)` returns rather than raising `PaymentTransitionError`. */
  predicate Transition(current: Status, target: Status)
  {
    target in Allowed(current)
  }

  /** The table is the documented lifecycle diagram and one edge more, from PARTIALLY_REFUNDED to itself. */
  lemma TableIsDiagram(current: Status, target: Status)
    ensures Transition(current, target) <==>
      (current, target) in {
        (Created, Pending), (Created, Failed), (Created, Cancelled),
        (Pending, Authorized), (Pending, Failed), (Pending, Cancelled),
        (Authorized, Captured), (Authorized, Failed), (Authorized, Cancelled),
        (Captured, PartiallyRefunded), (Captured, Status.Refunded),
        (PartiallyRefunded, Status.Refunded), (PartiallyRefunded, PartiallyRefunded)}
  {
  }
}
