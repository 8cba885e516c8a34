/** The order in which a payment's events appear in its outbox rows: what the lifecycle diagram promises a
    reader of the topic (docs/architecture/payment-lifecycle.md). */
module Stories {
  import opened Lifecycle
  import opened Database
  import opened Invariants
  import opened EventLog

  function Kinds(events: seq<Event>): seq<EventKind>
  {
    seq(|events|, i requires 0 <= i < |events| => events[i].kind)
  }

  lemma OneMoreKind(events: seq<Event>, e: Event)
    ensures Kinds(events + [e]) == Kinds(events) + [e.kind]
  {
  }

  /** The events of a payment that stands at `status`, in their order. */
  predicate Shape(status: Status, kinds: seq<EventKind>)
  {
    match status
    case Created => false
    case Pending => kinds == [PaymentCreated]
    case Authorized => kinds == [PaymentCreated, PaymentAuthorized]
    case Captured => kinds == [PaymentCreated, PaymentAuthorized, PaymentCaptured]
    case PartiallyRefunded => Refunding(kinds)
    case Refunded => Refunding(kinds)
    case Failed => kinds == [PaymentFailed] || kinds == [PaymentCreated, PaymentFailed]
    case Cancelled =>
      kinds == [PaymentCreated, PaymentCancelled] || kinds == [PaymentCreated, PaymentAuthorized, PaymentCancelled]
  }

  /** Created, authorized, captured, and from then on refunded. */
  predicate Refunding(kinds: seq<EventKind>)
  {
    && |kinds| > 3 && kinds[..3] == [PaymentCreated, PaymentAuthorized, PaymentCaptured]
    && forall i :: 3 <= i < |kinds| ==> kinds[i] == PaymentRefunded
  }

  ghost predicate StoriesOk(db: Db)
  {
    forall p :: p in db.payments ==> Shape(db.payments[p].status, Kinds(OutboxOf(db, p)))
  }

  /** The event that leaves a payment at `status`. */
  function Telling(status: Status): EventKind
  {
    match status
    case Authorized => PaymentAuthorized
    case Captured => PaymentCaptured
    case PartiallyRefunded => PaymentRefunded
    case Refunded => PaymentRefunded
    case Failed => PaymentFailed
    case Cancelled => PaymentCancelled
    case _ => PaymentCreated
  }

  /** Along every edge of the lifecycle the story goes on in its order. */
  lemma ShapeGoesOn(before: Status, after: Status, kinds: seq<EventKind>)
    requires Shape(before, kinds) && Edge(before, after)
    ensures Shape(after, kinds + [Telling(after)])
  {
    if after in {PartiallyRefunded, Status.Refunded} { RefundShape(kinds); }
  }

  lemma RefundShape(kinds: seq<EventKind>)
    requires Refunding(kinds) || kinds == [PaymentCreated, PaymentAuthorized, PaymentCaptured]
    ensures Refunding(kinds + [PaymentRefunded])
  {
  }

  lemma EventTells(db: Db, op: Op)
    requires Writing(db, op) && !op.Fund?
    ensures EventLeft(db, op).kind == Telling(RowLeft(db, op).status)
    ensures op.Create? ==> RowLeft(db, op).status in {Pending, Failed}
  {
    match op
    case Create(_, _, _, _, _) =>
    case Authorize(_, _) => AuthorizeTells(db, op);
    case Capture(_, _, _) =>
    case Cancel(_, _) =>
    case Refund(_, _, _, _, _) =>
  }

  lemma AuthorizeTells(db: Db, op: Op)
    requires Writing(db, op) && op.Authorize?
    ensures EventLeft(db, op).kind == Telling(RowLeft(db, op).status)
  {
  }

  lemma StoryBegins(status: Status)
    requires status in {Pending, Failed}
    ensures Shape(status, [] + [Telling(status)])
  {
    assert [] + [Telling(status)] == [Telling(status)];
  }

  /** An operation's event continues the story of its payment. */
  lemma OneStoryGoesOn(db: Db, op: Op)
    requires PaymentsOk(db) && EventsOk(db) && StoriesOk(db) && Writing(db, op) && !op.Fund?
    ensures Shape(RowLeft(db, op).status, Kinds(OutboxOf(db, PaymentId(op)) + [EventLeft(db, op)]))
  {
    var events := OutboxOf(db, PaymentId(op));
    PaymentsAfter(db, op);
    EventTells(db, op);
    OneMoreKind(events, EventLeft(db, op));
    if op.Create? {
      assert Kinds(events) == [];
      StoryBegins(RowLeft(db, op).status);
    } else {
      RowLeftOk(db, op);
      ShapeGoesOn(db.payments[op.payment].status, RowLeft(db, op).status, Kinds(events));
    }
  }

  lemma StoriesKept(db: Db, op: Op)
    requires PaymentsOk(db) && EventsOk(db) && StoriesOk(db)
    ensures StoriesOk(After(db, op))
  {
    if Writing(db, op) {
      PaymentsAfter(db, op);
      OutboxAfter(db, op);
      if !op.Fund? { OneStoryGoesOn(db, op); }
    } else {
      NothingAfter(db, op);
    }
  }

  /** Money is only ever captured after an authorization: the second event of such a payment is its
      authorization, the third its capture. */
  lemma CapturedWasAuthorized(db: Db, p: nat)
    requires PaymentsOk(db) && StoriesOk(db) && p in db.payments && db.payments[p].captured > 0
    ensures var events := OutboxOf(db, p);
      && |events| >= 3 && events[0].kind == PaymentCreated
      && events[1].kind == PaymentAuthorized && events[2].kind == PaymentCaptured
  {
    var kinds := Kinds(OutboxOf(db, p));
    assert PaymentOk(db.customers, db.payments[p]) && Shape(db.payments[p].status, kinds);
    assert kinds[..3] == [PaymentCreated, PaymentAuthorized, PaymentCaptured];
    assert kinds[1] == kinds[..3][1] && kinds[2] == kinds[..3][2] && kinds[0] == kinds[..3][0];
  }
}
