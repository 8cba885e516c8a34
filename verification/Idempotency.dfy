/** Creation requests under one idempotency key: the first one to commit decides. */
module Idempotency {
  import opened Money
  import opened Lifecycle
  import opened Database
  import opened Invariants

  /** A committed record is complete and names a payment that exists. */
  predicate RecordOk(payments: map<nat, Payment>, key: IdemKey, record: IdemRecord)
  {
    && record.response.Some? && record.resource == Some(record.response.value.payment)
    && record.resource.value in payments
    && payments[record.resource.value].merchant == key.merchant
    && record.fingerprint == RequestOf(payments[record.resource.value])
    && AsCreated(record.fingerprint, record.response.value)
  }

  /** The body that answers a creation: the amount asked for, nothing captured or refunded yet. */
  predicate AsCreated(request: Request, view: View)
  {
    && view.amount == request.amount && view.currency == request.currency
    && view.captured == 0 && view.refunded == 0 && view.status in {Pending, Failed}
  }

  function RequestOf(row: Payment): Request
  {
    Request(row.customer, row.amount, row.currency)
  }

  predicate Names(db: Db, key: IdemKey, payment: nat)
  {
    key in db.idem && db.idem[key].resource == Some(payment)
  }

  /** Records and payments correspond one to one through `resource_id`. */
  ghost predicate RecordsOk(db: Db)
  {
    && (forall key :: key in db.idem ==> RecordOk(db.payments, key, db.idem[key]))
    && (forall p :: p in db.payments ==> exists key :: Names(db, key, p))
    && (forall j, k, p :: Names(db, j, p) && Names(db, k, p) ==> j == k)
  }

  lemma IdemAfter(db: Db, op: Op)
    requires Writing(db, op)
    ensures After(db, op).idem
         == if !op.Create? then db.idem
            else db.idem[IdemKey(op.merchant, op.key) := IdemRecord(op.request,
              Some(ViewOf(op.newId, NewPayment(op))), Some(op.newId))]
  {
    AfterIs(db, op);
  }

  /** Once every record is complete, a creation writes only under a key nobody has claimed. */
  lemma WritesUnclaimed(db: Db, op: Op)
    requires RecordsOk(db) && Writing(db, op) && op.Create?
    ensures IdemKey(op.merchant, op.key) !in db.idem
  {
    assert IdemKey(op.merchant, op.key) in db.idem ==>
      RecordOk(db.payments, IdemKey(op.merchant, op.key), db.idem[IdemKey(op.merchant, op.key)]);
  }

  lemma RowsKeepRequest(db: Db, op: Op, p: nat)
    requires Writing(db, op) && p in db.payments
    ensures p in After(db, op).payments && After(db, op).payments[p].merchant == db.payments[p].merchant
    ensures RequestOf(After(db, op).payments[p]) == RequestOf(db.payments[p])
  {
    PaymentsAfter(db, op);
    match op
    case Fund(_, _, _, _, _) =>
    case Create(_, _, _, _, _) =>
    case Authorize(_, _) =>
    case Capture(_, _, _) =>
    case Cancel(_, _) =>
    case Refund(_, _, _, _, _) =>
  }

  lemma RecordsKept(db: Db, op: Op)
    requires RecordsOk(db)
    ensures RecordsOk(After(db, op))
  {
    if Writing(db, op) {
      RecordsComplete(db, op);
      PaymentsNamed(db, op);
      forall j, k, p | Names(After(db, op), j, p) && Names(After(db, op), k, p)
        ensures j == k
      {
        NamesBefore(db, op, j, p);
        NamesBefore(db, op, k, p);
      }
    } else {
      NothingAfter(db, op);
    }
  }

  lemma RecordsComplete(db: Db, op: Op)
    requires RecordsOk(db) && Writing(db, op)
    ensures forall key :: key in After(db, op).idem ==> RecordOk(After(db, op).payments, key, After(db, op).idem[key])
  {
    IdemAfter(db, op);
    PaymentsAfter(db, op);
    forall key | key in After(db, op).idem
      ensures RecordOk(After(db, op).payments, key, After(db, op).idem[key])
    {
      if op.Create? { WritesUnclaimed(db, op); }
      if key in db.idem {
        assert RecordOk(db.payments, key, db.idem[key]);
        RowsKeepRequest(db, op, db.idem[key].resource.value);
      }
    }
  }

  lemma NamesStay(db: Db, op: Op, key: IdemKey, p: nat)
    requires RecordsOk(db) && Writing(db, op) && Names(db, key, p)
    ensures Names(After(db, op), key, p)
  {
    IdemAfter(db, op);
    if op.Create? { WritesUnclaimed(db, op); }
  }

  lemma CreationNamed(db: Db, op: Op)
    requires Writing(db, op) && op.Create?
    ensures Names(After(db, op), KeyOf(op), op.newId)
  {
    IdemAfter(db, op);
  }

  lemma PaymentNamed(db: Db, op: Op, p: nat)
    requires RecordsOk(db) && Writing(db, op) && p in After(db, op).payments
    ensures exists key :: Names(After(db, op), key, p)
  {
    PaymentsAfter(db, op);
    if p in db.payments {
      var key :| Names(db, key, p);
      NamesStay(db, op, key, p);
    } else {
      CreationNamed(db, op);
    }
  }

  lemma PaymentsNamed(db: Db, op: Op)
    requires RecordsOk(db) && Writing(db, op)
    ensures forall p :: p in After(db, op).payments ==> exists key :: Names(After(db, op), key, p)
  {
    forall p | p in After(db, op).payments
      ensures exists key :: Names(After(db, op), key, p)
    {
      PaymentNamed(db, op, p);
    }
  }

  lemma NamesBefore(db: Db, op: Op, key: IdemKey, p: nat)
    requires RecordsOk(db) && Writing(db, op) && Names(After(db, op), key, p)
    ensures Names(db, key, p) || (op.Create? && key == IdemKey(op.merchant, op.key) && p == op.newId)
    ensures Names(db, key, p) ==> p in db.payments
    ensures op.Create? ==> op.newId !in db.payments
  {
    IdemAfter(db, op);
    PaymentsAfter(db, op);
    if key in db.idem { assert RecordOk(db.payments, key, db.idem[key]); }
  }

  // ---------------------------------------------------------------- the first one decides

  predicate ClaimedAs(db: Db, key: IdemKey, request: Request, view: View)
  {
    key in db.idem && db.idem[key].fingerprint == request && db.idem[key].response == Some(view)
  }

  /** Once claimed, a key keeps its request and its stored answer. */
  lemma ClaimStays(db: Db, op: Op, key: IdemKey, request: Request, view: View)
    requires RecordsOk(db) && ClaimedAs(db, key, request, view)
    ensures ClaimedAs(After(db, op), key, request, view)
  {
    if Writing(db, op) {
      IdemAfter(db, op);
      if op.Create? { WritesUnclaimed(db, op); }
    } else {
      NothingAfter(db, op);
    }
  }

  /** What a creation is told, in terms of the committed records alone: a claimed key answers with the
      stored body, and refuses exactly the other requests. */
  lemma CreationAnswers(db: Db, op: Op)
    requires RecordsOk(db) && op.Create?
    ensures Serial(db, op).outcome == Refused(IdempotencyConflict)
       <==> IdemKey(op.merchant, op.key) in db.idem && db.idem[IdemKey(op.merchant, op.key)].fingerprint != op.request
    ensures Serial(db, op).outcome.Done? ==>
      ClaimedAs(After(db, op), IdemKey(op.merchant, op.key), op.request, Serial(db, op).outcome.view)
    ensures IdemKey(op.merchant, op.key) in db.idem ==> After(db, op) == db
  {
    var key := IdemKey(op.merchant, op.key);
    if key in db.idem {
      assert RecordOk(db.payments, key, db.idem[key]);
      NothingAfter(db, op);
    } else if Writing(db, op) {
      IdemAfter(db, op);
    }
  }

  predicate Shows(view: View, payment: nat, row: Payment)
  {
    && view.payment == payment && view.status == row.status && view.amount == row.amount
    && view.currency == row.currency && view.captured == row.captured && view.refunded == row.refunded
  }

  lemma ViewLeft(db: Db, op: Op)
    requires Writing(db, op) && Serial(db, op).outcome.Done?
    ensures !op.Fund? && Shows(Serial(db, op).outcome.view, PaymentId(op), RowLeft(db, op))
  {
    match op
    case Fund(_, _, _, _, _) =>
    case Create(_, _, _, _, _) =>
    case Authorize(_, _) =>
    case Capture(_, _, _) =>
    case Cancel(_, _) =>
    case Refund(_, _, _, _, _) =>
  }

  /** What a caller is told about a payment: how it stands after the call, or, from the stored body, how
      it was created. */
  lemma RepliesShowRows(db: Db, op: Op)
    requires RecordsOk(db) && Serial(db, op).outcome.Done?
    ensures var view := Serial(db, op).outcome.view;
      && view.payment in After(db, op).payments
      && (if Writing(db, op) then Shows(view, view.payment, After(db, op).payments[view.payment])
          else AsCreated(RequestOf(After(db, op).payments[view.payment]), view))
  {
    if Writing(db, op) {
      ViewLeft(db, op);
      PaymentsAfter(db, op);
    } else {
      NothingAfter(db, op);
      AnswersAsCreated(db, op);
    }
  }

  lemma AnswersAsCreated(db: Db, op: Op)
    requires RecordsOk(db) && Serial(db, op).outcome.Done? && !Writing(db, op)
    ensures var view := Serial(db, op).outcome.view;
      view.payment in db.payments && AsCreated(RequestOf(db.payments[view.payment]), view)
  {
    var key := IdemKey(op.merchant, op.key);
    assert RecordOk(db.payments, key, db.idem[key]);
  }
}
