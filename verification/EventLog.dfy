/** The outbox rows of a payment tell its whole story: folding them rebuilds the row, one row was left
    for each committed change, and there are never more than the amount allows. */
module EventLog {
  import opened Lifecycle
  import opened Database
  import opened Invariants

  /** What the events say about a payment. */
  datatype Projection = Unseen | Seen(status: Status, captured: int, refunded: int)

  /** One event applied, reading only its kind and payload. */
  function Observe(p: Projection, e: Event): Projection
  {
    match (p, e.kind, e.payload)
    case (_, PaymentCreated, _) => Seen(Pending, 0, 0)
    case (Unseen, PaymentFailed, _) => Seen(Failed, 0, 0)
    case (Seen(_, captured, refunded), PaymentFailed, _) => Seen(Failed, captured, refunded)
    case (Seen(_, captured, refunded), PaymentAuthorized, _) => Seen(Authorized, captured, refunded)
    case (Seen(_, captured, refunded), PaymentCancelled, _) => Seen(Cancelled, captured, refunded)
    case (Seen(_, captured, refunded), PaymentCaptured, AmountPayload(_, amount, _)) =>
      Seen(Captured, captured + amount, refunded)
    case (Seen(_, captured, refunded), PaymentRefunded, RefundPayload(_, _, amount)) =>
      Seen(if refunded + amount == captured then Status.Refunded else PartiallyRefunded, captured, refunded + amount)
    case _ => p
  }

  function Fold(events: seq<Event>): Projection
  {
    if |events| == 0 then Unseen else Observe(Fold(events[..|events| - 1]), events[|events| - 1])
  }

  function ProjectionOf(row: Payment): Projection
  {
    Seen(row.status, row.captured, row.refunded)
  }

  /** How many more changes a payment can see: each committed one lowers it. */
  function Potential(row: Payment): int
  {
    match row.status
    case Pending => row.amount + 2
    case Authorized => row.amount + 1
    case Captured => row.amount - row.refunded
    case PartiallyRefunded => row.amount - row.refunded
    case _ => 0
  }

  /** An event names its payment in its payload, unless it is a cancellation. */
  predicate Named(e: Event, payment: nat)
  {
    if e.kind == PaymentCancelled then e.payload == EmptyPayload
      else !e.payload.EmptyPayload? && e.payload.payment == payment
  }

  function Count(events: seq<Event>, kind: EventKind): nat
  {
    if |events| == 0 then 0
    else Count(events[..|events| - 1], kind) + (if events[|events| - 1].kind == kind then 1 else 0)
  }

  predicate StoryOk(events: seq<Event>, payment: nat, row: Payment)
  {
    && Fold(events) == ProjectionOf(row)
    && |events| + Potential(row) <= row.amount + 3
    && 0 <= Potential(row)
    && Count(events, PaymentFailed) == (if row.status == Failed then 1 else 0)
    && (forall e :: e in events ==> Named(e, payment))
  }

  ghost predicate EventsOk(db: Db)
  {
    && db.outbox.Keys == db.payments.Keys
    && forall p :: p in db.payments ==> StoryOk(db.outbox[p], p, db.payments[p])
  }

  lemma StoryGoesOn(events: seq<Event>, payment: nat, before: Payment, row: Payment, e: Event)
    requires StoryOk(events, payment, before) && row.amount == before.amount
    requires Observe(ProjectionOf(before), e) == ProjectionOf(row) && 0 <= Potential(row) < Potential(before)
      && Named(e, payment)
    requires e.kind == PaymentFailed <==> row.status == Failed
    ensures StoryOk(events + [e], payment, row)
  {
    assert (events + [e])[..|events|] == events;
  }

  lemma StoryStarts(payment: nat, row: Payment, e: Event)
    requires Observe(Unseen, e) == ProjectionOf(row) && 0 <= Potential(row) <= row.amount + 2 && Named(e, payment)
    requires e.kind == PaymentFailed <==> row.status == Failed
    ensures StoryOk([e], payment, row)
  {
    assert [e][..0] == [] && Fold([]) == Unseen && Count([], PaymentFailed) == 0;
  }

  /** A new payment's event starts its story. */
  lemma CreationFits(db: Db, op: Op)
    requires Writing(db, op) && op.Create?
    ensures var row, e := RowLeft(db, op), EventLeft(db, op);
      && Observe(Unseen, e) == ProjectionOf(row) && 0 <= Potential(row) <= row.amount + 2 && Named(e, op.newId)
      && (e.kind == PaymentFailed <==> row.status == Failed)
  {
  }

  /** The event `e` turns one row's projection into the next one's, and uses up potential. */
  predicate Fits(payment: nat, before: Payment, row: Payment, e: Event)
  {
    && row.amount == before.amount && Observe(ProjectionOf(before), e) == ProjectionOf(row)
    && 0 <= Potential(row) < Potential(before) && Named(e, payment)
    && (e.kind == PaymentFailed <==> row.status == Failed)
  }

  lemma AuthorizationFits(db: Db, op: Op)
    requires PaymentsOk(db) && Writing(db, op) && op.Authorize?
    ensures Fits(op.payment, db.payments[op.payment], RowLeft(db, op), EventLeft(db, op))
  {
    assert PaymentOk(db.customers, db.payments[op.payment]);
  }

  lemma CaptureFits(db: Db, op: Op)
    requires PaymentsOk(db) && Writing(db, op) && op.Capture?
    ensures Fits(op.payment, db.payments[op.payment], RowLeft(db, op), EventLeft(db, op))
  {
    assert PaymentOk(db.customers, db.payments[op.payment]);
  }

  lemma CancelFits(db: Db, op: Op)
    requires PaymentsOk(db) && Writing(db, op) && op.Cancel?
    ensures Fits(op.payment, db.payments[op.payment], RowLeft(db, op), EventLeft(db, op))
  {
    assert PaymentOk(db.customers, db.payments[op.payment]);
  }

  lemma RefundFits(db: Db, op: Op)
    requires PaymentsOk(db) && Writing(db, op) && op.Refund?
    ensures Fits(op.payment, db.payments[op.payment], RowLeft(db, op), EventLeft(db, op))
  {
    assert PaymentOk(db.customers, db.payments[op.payment]);
  }

  lemma ChangeFits(db: Db, op: Op)
    requires PaymentsOk(db) && Writing(db, op) && !op.Fund? && !op.Create?
    ensures op.payment in db.payments
    ensures Fits(op.payment, db.payments[op.payment], RowLeft(db, op), EventLeft(db, op))
  {
    match op
    case Authorize(_, _) => AuthorizationFits(db, op);
    case Capture(_, _, _) => CaptureFits(db, op);
    case Cancel(_, _) => CancelFits(db, op);
    case Refund(_, _, _, _, _) => RefundFits(db, op);
  }

  lemma StoryKept(db: Db, op: Op)
    requires PaymentsOk(db) && EventsOk(db) && Writing(db, op) && !op.Fund?
    ensures StoryOk(OutboxOf(db, PaymentId(op)) + [EventLeft(db, op)], PaymentId(op), RowLeft(db, op))
  {
    var p, row, e := PaymentId(op), RowLeft(db, op), EventLeft(db, op);
    PaymentsAfter(db, op);
    if op.Create? {
      CreationFits(db, op);
      StoryStarts(p, row, e);
      assert OutboxOf(db, p) + [e] == [e];
    } else {
      ChangeFits(db, op);
      StoryGoesOn(db.outbox[p], p, db.payments[p], row, e);
    }
  }

  lemma OneStoryKept(db: Db, op: Op, p: nat)
    requires PaymentsOk(db) && EventsOk(db) && Writing(db, op) && p in After(db, op).payments
    ensures p in After(db, op).outbox && StoryOk(After(db, op).outbox[p], p, After(db, op).payments[p])
  {
    OutboxAfter(db, op);
    PaymentsAfter(db, op);
    if !op.Fund? && p == PaymentId(op) {
      StoryKept(db, op);
    } else {
      assert StoryOk(db.outbox[p], p, db.payments[p]);
    }
  }

  lemma SameKeysKept(db: Db, op: Op)
    requires db.outbox.Keys == db.payments.Keys && Writing(db, op)
    ensures After(db, op).outbox.Keys == After(db, op).payments.Keys
  {
    OutboxAfter(db, op);
    PaymentsAfter(db, op);
  }

  lemma EventsKept(db: Db, op: Op)
    requires PaymentsOk(db) && EventsOk(db)
    ensures EventsOk(After(db, op))
  {
    if Writing(db, op) {
      SameKeysKept(db, op);
      forall p | p in After(db, op).payments
        ensures StoryOk(After(db, op).outbox[p], p, After(db, op).payments[p])
      {
        OneStoryKept(db, op, p);
      }
    } else {
      NothingAfter(db, op);
    }
  }

  lemma OutboxAfter(db: Db, op: Op)
    requires Writing(db, op)
    ensures After(db, op).outbox
         == if op.Fund? then db.outbox
           else db.outbox[PaymentId(op) := OutboxOf(db, PaymentId(op)) + [EventLeft(db, op)]]
  {
    AfterIs(db, op);
  }

  /** A payment's events are at most its amount plus three. */
  lemma EventsAreBounded(db: Db, p: nat)
    requires EventsOk(db) && p in db.payments
    ensures |db.outbox[p]| <= db.payments[p].amount + 3
  {
    assert StoryOk(db.outbox[p], p, db.payments[p]);
  }
}
