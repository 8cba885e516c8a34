/** What every operation keeps true of the database. By serializability each law holds of the
    committed database in every state of every interleaved run. */
module Invariants {
  import opened Money
  import opened Ledger
  import opened Lifecycle
  import opened Database
  import opened Totals

  // ---------------------------------------------------------------- the tables after an operation

  function After(db: Db, op: Op): Db
  {
    Serial(db, op).db
  }

  predicate Accepted(db: Db, op: Op)
  {
    Decide(db, op).Accept?
  }

  /** Whether an accepted operation writes anything: an answer from an idempotency record does not. */
  predicate Writing(db: Db, op: Op)
  {
    Accepted(db, op)
      && !(op.Create? && IdemKey(op.merchant, op.key) in db.idem
        && db.idem[IdemKey(op.merchant, op.key)].response.Some?)
  }

  predicate Posts(op: Op)
  {
    op.Fund? || op.Capture? || op.Refund?
  }

  function PaymentId(op: Op): nat
    requires !op.Fund?
  {
    if op.Create? then op.newId else op.payment
  }

  /** The payment row an operation leaves behind. */
  function RowLeft(db: Db, op: Op): Payment
    requires Writing(db, op) && !op.Fund?
  {
    match op
    case Create(_, _, _, _, _) => NewPayment(op)
    case Authorize(_, p) =>
      if Decide(db, op).outcome.PersistedRefusal? then db.payments[p].(status := Failed)
        else AuthorizedRow(db.payments[p])
    case Capture(_, p, _) => CapturedRow(db.payments[p])
    case Cancel(_, p) => CancelledRow(db.payments[p])
    case Refund(_, p, amount, _, _) => RefundedRow(db.payments[p], amount)
  }

  /** Whose cash an accepted operation moves, and how much. */
  function Moved(db: Db, op: Op): (nat, Amount)
    requires Posts(op) && Accepted(db, op)
  {
    match op
    case Fund(_, account, amount, _, _) =>
      (db.accounts[account].customer, Amount(amount, db.accounts[account].currency))
    case Capture(_, payment, _) =>
      (db.payments[payment].customer, Amount(db.payments[payment].amount, db.payments[payment].currency))
    case Refund(_, payment, amount, _, _) =>
      (db.payments[payment].customer, Amount(amount, db.payments[payment].currency))
  }

  lemma NothingAfter(db: Db, op: Op)
    requires !Writing(db, op)
    ensures After(db, op) == db
  {
    if Accepted(db, op) {
      assert Decide(db, op).writes == NO_WRITES;
    }
  }

  function LedgerLeft(db: Db, op: Op): Tables
    requires Writing(db, op)
  {
    if !Posts(op) then db.ledger
    else Tables(db.ledger.journals[JournalOf(op) := PostedJournal(JournalOf(op), Moved(db, op).1.currency, op.at)],
                db.ledger.entries + RowsPosted(op, Moved(db, op).0, Moved(db, op).1))
  }

  function RefundsLeft(db: Db, op: Op): map<nat, RefundRow>
    requires Writing(db, op)
  {
    if op.Refund? then db.refunds[op.newId := RefundRow(op.payment, op.amount, db.payments[op.payment].currency)]
      else db.refunds
  }

  /** The event an operation leaves in the outbox. */
  function EventLeft(db: Db, op: Op): Event
    requires Writing(db, op) && !op.Fund?
  {
    var row := RowLeft(db, op);
    match op
    case Create(_, _, _, approved, newId) =>
      Event(if approved then PaymentCreated else PaymentFailed, CreationPayload(newId, row.status, approved))
    case Authorize(_, p) =>
      if row.status == Failed then Event(PaymentFailed, ReasonPayload(p, InsufficientFunds))
      else Event(PaymentAuthorized, AmountPayload(p, row.amount, row.currency))
    case Capture(_, p, _) => Event(PaymentCaptured, AmountPayload(p, row.amount, row.currency))
    case Cancel(_, p) => Event(PaymentCancelled, EmptyPayload)
    case Refund(_, p, amount, newId, _) => Event(PaymentRefunded, RefundPayload(p, newId, amount))
  }

  /** Everything an operation changes, table by table. */
  predicate Changed(db: Db, op: Op, after: Db)
    requires Writing(db, op)
  {
    && after.merchants == db.merchants && after.customers == db.customers && after.accounts == db.accounts
    && after.payments == (if op.Fund? then db.payments else db.payments[PaymentId(op) := RowLeft(db, op)])
    && after.ledger == LedgerLeft(db, op)
    && after.refunds == RefundsLeft(db, op)
    && after.idem == (if !op.Create? then db.idem
                      else db.idem[IdemKey(op.merchant, op.key) := IdemRecord(op.request,
                        Some(ViewOf(op.newId, NewPayment(op))), Some(op.newId))])
    && after.outbox
      == (if op.Fund? then db.outbox else db.outbox[PaymentId(op) := OutboxOf(db, PaymentId(op)) + [EventLeft(db, op)]])
    && db.keys <= after.keys
    && (Posts(op) ==>
      JournalOf(op) !in db.ledger.journals && KeysIn(after.keys, op, Moved(db, op).0, Moved(db, op).1.currency))
    && (if op.Create? then op.newId !in db.payments else op.Fund? || op.payment in db.payments)
    && (op.Refund? ==> op.newId !in db.refunds)
  }

  predicate KeysIn(keys: set<LedgerKey>, op: Op, customer: nat, currency: Currency)
  {
    CashKey(customer, currency) in keys && OtherKey(op, currency) in keys
  }

  lemma LedgerUntouched(db: Db, w: Writes)
    requires w.journals == map[] && w.entries == []
    ensures Apply(db, w).ledger == db.ledger
  {
    assert db.ledger.entries + [] == db.ledger.entries;
    assert db.ledger.journals + map[] == db.ledger.journals;
  }

  lemma FundAfter(db: Db, op: Op)
    requires op.Fund? && Writing(db, op)
    ensures Changed(db, op, After(db, op))
  {
  }

  lemma CreateDecided(db: Db, op: Op)
    requires op.Create? && Writing(db, op)
    ensures Decide(db, op) == Accept(Done(ViewOf(op.newId, NewPayment(op))), CreateWrites(op))
      && op.newId !in db.payments
  {
  }

  lemma CreateAfter(db: Db, op: Op)
    requires op.Create? && Writing(db, op)
    ensures Changed(db, op, After(db, op))
  {
    CreateDecided(db, op);
    LedgerUntouched(db, CreateWrites(op));
  }

  lemma AuthorizeAfter(db: Db, op: Op)
    requires op.Authorize? && Writing(db, op)
    ensures Changed(db, op, After(db, op))
  {
    LedgerUntouched(db, Decide(db, op).writes);
  }

  lemma CaptureAfter(db: Db, op: Op)
    requires op.Capture? && Writing(db, op)
    ensures Changed(db, op, After(db, op))
  {
  }

  lemma CancelAfter(db: Db, op: Op)
    requires op.Cancel? && Writing(db, op)
    ensures Changed(db, op, After(db, op))
  {
    LedgerUntouched(db, Decide(db, op).writes);
  }

  lemma RefundAfter(db: Db, op: Op)
    requires op.Refund? && Writing(db, op)
    ensures Changed(db, op, After(db, op))
  {
  }

  /** An operation that writes changes exactly what `Changed` says. */
  lemma AfterIs(db: Db, op: Op)
    requires Writing(db, op)
    ensures Changed(db, op, After(db, op))
  {
    match op
    case Fund(_, _, _, _, _) => FundAfter(db, op);
    case Create(_, _, _, _, _) => CreateAfter(db, op);
    case Authorize(_, _) => AuthorizeAfter(db, op);
    case Capture(_, _, _) => CaptureAfter(db, op);
    case Cancel(_, _) => CancelAfter(db, op);
    case Refund(_, _, _, _, _) => RefundAfter(db, op);
  }

  lemma PaymentsAfter(db: Db, op: Op)
    requires Writing(db, op)
    ensures After(db, op).payments == if op.Fund? then db.payments else db.payments[PaymentId(op) := RowLeft(db, op)]
    ensures op.Create? ==> op.newId !in db.payments
    ensures !op.Create? && !op.Fund? ==> op.payment in db.payments
    ensures After(db, op).customers == db.customers
  {
    AfterIs(db, op);
  }

  lemma LedgerAfter(db: Db, op: Op)
    requires Writing(db, op)
    ensures After(db, op).ledger == LedgerLeft(db, op)
    ensures db.keys <= After(db, op).keys
    ensures Posts(op) ==> JournalOf(op) !in db.ledger.journals
    ensures Posts(op) ==> KeysIn(After(db, op).keys, op, Moved(db, op).0, Moved(db, op).1.currency)
  {
    AfterIs(db, op);
  }

  lemma RefundsAfter(db: Db, op: Op)
    requires Writing(db, op)
    ensures After(db, op).refunds == RefundsLeft(db, op)
    ensures op.Refund? ==> op.newId !in db.refunds
  {
    AfterIs(db, op);
  }

  function Added(db: Db, op: Op, m: Measure): int
    requires Writing(db, op)
  {
    if !Posts(op) then 0
    else RowWeight(RowsPosted(op, Moved(db, op).0, Moved(db, op).1), m)
  }

  function RowWeight(rows: seq<Entry>, m: Measure): int
    requires |rows| == 2
  {
    Weight(m, rows[0]) + Weight(m, rows[1])
  }

  lemma SumAfter(db: Db, op: Op, m: Measure)
    requires Writing(db, op)
    ensures Sum(After(db, op).ledger.entries, m) == Sum(db.ledger.entries, m) + Added(db, op, m)
  {
    LedgerAfter(db, op);
    if Posts(op) {
      var rows := RowsPosted(op, Moved(db, op).0, Moved(db, op).1);
      SumAppend(db.ledger.entries, rows, m);
      SumPair(rows[0], rows[1], m);
    }
  }

  // ---------------------------------------------------------------- payments

  /** A payment is captured in full or not at all, refunds stay within the capture, and its status
      says exactly how far both have come. */
  predicate RowOk(row: Payment)
  {
    && 0 <= row.refunded <= row.captured
    && (row.captured == 0 || row.captured == row.amount)
    && (row.captured > 0 <==> row.status in {Captured, PartiallyRefunded, Status.Refunded})
    && (row.status == Captured ==> row.refunded == 0)
    && (row.status == PartiallyRefunded ==> 0 < row.refunded < row.captured)
    && (row.status == Status.Refunded <==> row.refunded == row.captured > 0)
    && row.status != Created
  }

  predicate PaymentOk(customers: map<nat, nat>, row: Payment)
  {
    RowOk(row) && row.customer in customers && customers[row.customer] == row.merchant
  }

  ghost predicate PaymentsOk(db: Db)
  {
    forall p :: p in db.payments ==> PaymentOk(db.customers, db.payments[p])
  }

  /** The changes of status that the service makes: those of the lifecycle diagram, except that nothing leaves
      CREATED and that an authorized payment never fails. */
  predicate Edge(before: Status, after: Status)
  {
    match before
    case Pending => after in {Authorized, Failed, Cancelled}
    case Authorized => after in {Captured, Cancelled}
    case Captured => after in {PartiallyRefunded, Status.Refunded}
    case PartiallyRefunded => after in {PartiallyRefunded, Status.Refunded}
    case _ => false
  }

  /** `row` differs from `before` only in status and amounts, and its status is one the service goes on to. */
  predicate Continues(before: Payment, row: Payment)
  {
    && row == before.(status := row.status, captured := row.captured, refunded := row.refunded)
    && Edge(before.status, row.status)
  }

  /** An operation's row is a lawful one, and continues the row before it along an edge of the
      transition table. */
  lemma RowLeftOk(db: Db, op: Op)
    requires PaymentsOk(db) && Writing(db, op) && !op.Fund?
    ensures PaymentOk(db.customers, RowLeft(db, op))
    ensures !op.Create? ==> op.payment in db.payments && Continues(db.payments[op.payment], RowLeft(db, op))
    ensures !op.Create? ==> Transition(db.payments[op.payment].status, RowLeft(db, op).status)
  {
    match op
    case Create(_, _, _, _, _) =>
    case Authorize(_, p) => assert PaymentOk(db.customers, db.payments[p]);
    case Capture(_, p, _) => assert PaymentOk(db.customers, db.payments[p]);
    case Cancel(_, p) => assert PaymentOk(db.customers, db.payments[p]);
    case Refund(_, p, _, _, _) => assert PaymentOk(db.customers, db.payments[p]);
  }

  lemma PaymentsKept(db: Db, op: Op)
    requires PaymentsOk(db)
    ensures PaymentsOk(After(db, op))
  {
    if Writing(db, op) {
      PaymentsAfter(db, op);
      if !op.Fund? { RowLeftOk(db, op); }
    } else {
      NothingAfter(db, op);
    }
  }

  // ---------------------------------------------------------------- journals

  /** Which journals exist, and that every entry belongs to one. In particular a capture journal exists
      exactly for the payments that have been captured. */
  ghost predicate JournalsOk(db: Db)
  {
    && (forall p ::
          Reference(PaymentCapture, p) in db.ledger.journals <==> p in db.payments && db.payments[p].captured > 0)
    && (forall r :: Reference(PaymentRefund, r) in db.ledger.journals <==> r in db.refunds)
    && (forall j :: j in db.ledger.journals ==>
      db.ledger.journals[j].reference == j && db.ledger.journals[j].status == Posted)
    && (forall e :: e in db.ledger.entries ==> EntryOk(db.ledger.journals, db.keys, e))
  }

  predicate EntryOk(journals: map<JournalId, Journal>, keys: set<LedgerKey>, e: Entry)
  {
    e.journal in journals && e.key in keys && e.key.currency == e.currency == journals[e.journal].currency
  }

  /** How much an operation changes what its payment has taken. */
  lemma RowTakes(db: Db, op: Op)
    requires PaymentsOk(db) && Writing(db, op) && !op.Fund?
    ensures var row := RowLeft(db, op); var p := PaymentId(op);
      (row.captured - row.refunded)
        - (if p in db.payments then db.payments[p].captured - db.payments[p].refunded else 0)
        == if op.Capture? then Moved(db, op).1.minor else if op.Refund? then 0 - Moved(db, op).1.minor else 0
    ensures Posts(op) ==>
      Moved(db, op).0 == RowLeft(db, op).customer && Moved(db, op).1.currency == RowLeft(db, op).currency
    ensures RowLeft(db, op).captured
         == if op.Capture? then Moved(db, op).1.minor
           else if PaymentId(op) in db.payments then db.payments[PaymentId(op)].captured else 0
  {
    match op
    case Create(_, _, _, _, _) =>
    case Authorize(_, p) =>
    case Capture(_, p, _) => assert PaymentOk(db.customers, db.payments[p]);
    case Cancel(_, p) =>
    case Refund(_, p, _, _, _) => assert PaymentOk(db.customers, db.payments[p]);
  }

  lemma EntriesKept(db: Db, op: Op)
    requires Writing(db, op)
    requires forall e :: e in db.ledger.entries ==> EntryOk(db.ledger.journals, db.keys, e)
    ensures forall e :: e in After(db, op).ledger.entries ==>
      EntryOk(After(db, op).ledger.journals, After(db, op).keys, e)
  {
    LedgerAfter(db, op);
  }

  lemma JournalIn(db: Db, op: Op, j: JournalId)
    requires Writing(db, op)
    ensures j in After(db, op).ledger.journals <==> j in db.ledger.journals || (Posts(op) && j == JournalOf(op))
    ensures Posts(op) && j == JournalOf(op) ==>
      After(db, op).ledger.journals[j].reference == j && After(db, op).ledger.journals[j].status == Posted
    ensures j in db.ledger.journals ==> After(db, op).ledger.journals[j] == db.ledger.journals[j]
  {
    LedgerAfter(db, op);
  }

  lemma CaptureJournalKept(db: Db, op: Op, p: nat)
    requires PaymentsOk(db) && JournalsOk(db) && Writing(db, op)
    ensures Reference(PaymentCapture, p) in After(db, op).ledger.journals
       <==> p in After(db, op).payments && After(db, op).payments[p].captured > 0
  {
    JournalIn(db, op, Reference(PaymentCapture, p));
    PaymentsAfter(db, op);
    if !op.Fund? { RowTakes(db, op); }
  }

  lemma RefundJournalKept(db: Db, op: Op, r: nat)
    requires JournalsOk(db) && Writing(db, op)
    ensures Reference(PaymentRefund, r) in After(db, op).ledger.journals <==> r in After(db, op).refunds
  {
    JournalIn(db, op, Reference(PaymentRefund, r));
    RefundsAfter(db, op);
  }

  lemma JournalsKept(db: Db, op: Op)
    requires PaymentsOk(db) && JournalsOk(db)
    ensures JournalsOk(After(db, op))
  {
    if Writing(db, op) {
      EntriesKept(db, op);
      forall p
        ensures Reference(PaymentCapture, p) in After(db, op).ledger.journals
           <==> p in After(db, op).payments && After(db, op).payments[p].captured > 0
      {
        CaptureJournalKept(db, op, p);
      }
      forall r
        ensures Reference(PaymentRefund, r) in After(db, op).ledger.journals <==> r in After(db, op).refunds
      {
        RefundJournalKept(db, op, r);
      }
      forall j | j in After(db, op).ledger.journals
        ensures After(db, op).ledger.journals[j].reference == j && After(db, op).ledger.journals[j].status == Posted
      {
        JournalIn(db, op, j);
      }
    } else {
      NothingAfter(db, op);
    }
  }

  // ---------------------------------------------------------------- cash

  /** No customer's projected cash is ever negative. */
  ghost predicate CashOk(db: Db)
  {
    forall c, currency :: 0 <= Cash(db.ledger.entries, c, currency)
  }

  /** What an operation does to a customer's cash. */
  lemma CashAfter(db: Db, op: Op, c: nat, currency: Currency)
    requires Writing(db, op)
    ensures Cash(After(db, op).ledger.entries, c, currency)
         == Cash(db.ledger.entries, c, currency)
            + (if op.Capture? then 0 - MovedFor(db, op, c, currency) else MovedFor(db, op, c, currency))
  {
    SumAfter(db, op, KeySide(CashKey(c, currency), Debit));
    SumAfter(db, op, KeySide(CashKey(c, currency), Credit));
  }

  lemma CashKept(db: Db, op: Op)
    requires CashOk(db)
    ensures CashOk(After(db, op))
  {
    if Writing(db, op) {
      forall c, currency
        ensures 0 <= Cash(After(db, op).ledger.entries, c, currency)
      {
        CashAfter(db, op, c, currency);
      }
    } else {
      NothingAfter(db, op);
    }
  }

  /** What a customer's payments have taken, less what came back, payment by payment. */
  ghost function Taken(payments: map<nat, Payment>, c: nat, currency: Currency): map<nat, int>
  {
    map p | p in payments && payments[p].customer == c && payments[p].currency == currency
      :: payments[p].captured - payments[p].refunded
  }

  /** Projected cash is the funding, less everything captured, plus everything refunded. */
  ghost predicate ProjectionOk(db: Db)
  {
    forall c, currency ::
      Cash(db.ledger.entries, c, currency)
        == Sum(db.ledger.entries, FundingInto(CashKey(c, currency))) - Total(Taken(db.payments, c, currency))
  }

  lemma TakenAfter(payments: map<nat, Payment>, p: nat, row: Payment, c: nat, currency: Currency)
    requires p in payments ==> payments[p].customer == row.customer && payments[p].currency == row.currency
    ensures Total(Taken(payments[p := row], c, currency))
         == Total(Taken(payments, c, currency))
            + (if row.customer == c && row.currency == currency
               then row.captured - row.refunded
                 - (if p in payments then payments[p].captured - payments[p].refunded else 0)
               else 0)
  {
    if row.customer == c && row.currency == currency {
      TotalUpdate(Taken(payments, c, currency), p, row.captured - row.refunded);
      assert Taken(payments[p := row], c, currency) == Taken(payments, c, currency)[p := row.captured - row.refunded];
    } else {
      assert Taken(payments[p := row], c, currency) == Taken(payments, c, currency);
    }
  }

  lemma ProjectionKept(db: Db, op: Op)
    requires PaymentsOk(db) && ProjectionOk(db)
    ensures ProjectionOk(After(db, op))
  {
    if Writing(db, op) {
      forall c, currency
        ensures Cash(After(db, op).ledger.entries, c, currency)
             == Sum(After(db, op).ledger.entries, FundingInto(CashKey(c, currency)))
               - Total(Taken(After(db, op).payments, c, currency))
      {
        OneProjection(db, op, c, currency);
      }
    } else {
      NothingAfter(db, op);
    }
  }

  /** The amount an operation moves in the given direction for this customer and currency. */
  function MovedFor(db: Db, op: Op, c: nat, currency: Currency): int
    requires Writing(db, op)
  {
    if Posts(op) && Moved(db, op).0 == c && Moved(db, op).1.currency == currency then Moved(db, op).1.minor else 0
  }

  lemma FundingAfter(db: Db, op: Op, c: nat, currency: Currency)
    requires Writing(db, op)
    ensures Sum(After(db, op).ledger.entries, FundingInto(CashKey(c, currency)))
         == Sum(db.ledger.entries, FundingInto(CashKey(c, currency)))
           + (if op.Fund? then MovedFor(db, op, c, currency) else 0)
  {
    SumAfter(db, op, FundingInto(CashKey(c, currency)));
    if Posts(op) { FundingRows(op, Moved(db, op).0, Moved(db, op).1, c, currency); }
  }

  lemma FundingRows(op: Op, customer: nat, amount: Amount, c: nat, currency: Currency)
    requires Posts(op)
    ensures RowWeight(RowsPosted(op, customer, amount), FundingInto(CashKey(c, currency)))
         == if op.Fund? && customer == c && amount.currency == currency then amount.minor else 0
  {
  }

  lemma TakenByOp(db: Db, op: Op, c: nat, currency: Currency)
    requires PaymentsOk(db) && Writing(db, op)
    ensures Total(Taken(After(db, op).payments, c, currency))
         == Total(Taken(db.payments, c, currency))
            + (if op.Capture? then MovedFor(db, op, c, currency)
              else if op.Refund? then 0 - MovedFor(db, op, c, currency) else 0)
  {
    PaymentsAfter(db, op);
    if !op.Fund? {
      RowTakes(db, op);
      RowLeftOk(db, op);
      TakenAfter(db.payments, PaymentId(op), RowLeft(db, op), c, currency);
    }
  }

  lemma OneProjection(db: Db, op: Op, c: nat, currency: Currency)
    requires PaymentsOk(db) && ProjectionOk(db) && Writing(db, op)
    ensures Cash(After(db, op).ledger.entries, c, currency)
         == Sum(After(db, op).ledger.entries, FundingInto(CashKey(c, currency)))
           - Total(Taken(After(db, op).payments, c, currency))
  {
    CashAfter(db, op, c, currency);
    FundingAfter(db, op, c, currency);
    TakenByOp(db, op, c, currency);
  }

  // ---------------------------------------------------------------- conservation

  /** Per currency, debits equal credits. Per merchant and currency, what its customers hold and what
      it may claim add up to what the provider has funded. */
  ghost predicate ConservationOk(db: Db)
  {
    && (forall currency :: Sum(db.ledger.entries, Net(currency)) == 0)
    && (forall m, currency :: MerchantBalanced(db, m, currency))
  }

  predicate MerchantBalanced(db: Db, m: nat, currency: Currency)
  {
    Sum(db.ledger.entries, Held(CustomerCash, m, db.customers, currency))
      + Sum(db.ledger.entries, Held(MerchantReceivable, m, db.customers, currency))
    == 0 - Sum(db.ledger.entries, Held(ProviderFunding, m, db.customers, currency))
  }

  /** The merchant of an operation is the merchant of the customer whose cash it moves. */
  lemma MovedCustomer(db: Db, op: Op)
    requires PaymentsOk(db) && Writing(db, op) && Posts(op)
    ensures Moved(db, op).0 in db.customers && db.customers[Moved(db, op).0] == op.merchant
  {
    match op
    case Fund(_, _, _, _, _) =>
    case Capture(_, p, _) => assert PaymentOk(db.customers, db.payments[p]);
    case Refund(_, p, _, _, _) => assert PaymentOk(db.customers, db.payments[p]);
  }

  lemma MerchantKept(db: Db, op: Op, m: nat, currency: Currency)
    requires PaymentsOk(db) && MerchantBalanced(db, m, currency) && Writing(db, op)
    ensures MerchantBalanced(After(db, op), m, currency)
  {
    PaymentsAfter(db, op);
    SumAfter(db, op, Held(CustomerCash, m, db.customers, currency));
    SumAfter(db, op, Held(MerchantReceivable, m, db.customers, currency));
    SumAfter(db, op, Held(ProviderFunding, m, db.customers, currency));
    if Posts(op) {
      MovedCustomer(db, op);
      RowsCancel(op, Moved(db, op).0, Moved(db, op).1, m, db.customers, currency);
    }
  }

  /** The two rows of a posting cancel out in the merchant's balance. */
  lemma RowsCancel(op: Op, customer: nat, amount: Amount, m: nat, customers: map<nat, nat>, currency: Currency)
    requires Posts(op) && customer in customers && customers[customer] == op.merchant
    ensures var rows := RowsPosted(op, customer, amount);
      RowWeight(rows, Held(CustomerCash, m, customers, currency))
        + RowWeight(rows, Held(MerchantReceivable, m, customers, currency))
      + RowWeight(rows, Held(ProviderFunding, m, customers, currency)) == 0
  {
  }

  lemma NetKept(db: Db, op: Op, currency: Currency)
    requires Writing(db, op)
    ensures Sum(After(db, op).ledger.entries, Net(currency)) == Sum(db.ledger.entries, Net(currency))
  {
    SumAfter(db, op, Net(currency));
    if Posts(op) { NetRows(op, Moved(db, op).0, Moved(db, op).1, currency); }
  }

  lemma NetRows(op: Op, customer: nat, amount: Amount, currency: Currency)
    requires Posts(op)
    ensures RowWeight(RowsPosted(op, customer, amount), Net(currency)) == 0
  {
  }

  lemma ConservationKept(db: Db, op: Op)
    requires PaymentsOk(db) && ConservationOk(db)
    ensures ConservationOk(After(db, op))
  {
    if Writing(db, op) {
      forall currency ensures Sum(After(db, op).ledger.entries, Net(currency)) == 0 {
        NetKept(db, op, currency);
      }
      forall m, currency ensures MerchantBalanced(After(db, op), m, currency) {
        assert MerchantBalanced(db, m, currency);
        MerchantKept(db, op, m, currency);
      }
    } else {
      NothingAfter(db, op);
    }
  }

  // ---------------------------------------------------------------- capture and refund amounts

  /** A payment's capture journal credits exactly what the payment says was captured. */
  ghost predicate CapturesOk(db: Db)
  {
    forall p :: Sum(db.ledger.entries, JournalSide(Reference(PaymentCapture, p), Credit))
             == if p in db.payments then db.payments[p].captured else 0
  }

  lemma CaptureCredit(op: Op, customer: nat, amount: Amount, p: nat)
    requires Posts(op)
    ensures RowWeight(RowsPosted(op, customer, amount), JournalSide(Reference(PaymentCapture, p), Credit))
         == if op.Capture? && op.payment == p then amount.minor else 0
  {
  }

  lemma OneCapture(db: Db, op: Op, p: nat)
    requires PaymentsOk(db) && CapturesOk(db) && Writing(db, op)
    ensures Sum(After(db, op).ledger.entries, JournalSide(Reference(PaymentCapture, p), Credit))
         == if p in After(db, op).payments then After(db, op).payments[p].captured else 0
  {
    SumAfter(db, op, JournalSide(Reference(PaymentCapture, p), Credit));
    if Posts(op) { CaptureCredit(op, Moved(db, op).0, Moved(db, op).1, p); }
    PaymentsAfter(db, op);
    if !op.Fund? { RowTakes(db, op); }
    if op.Capture? { assert PaymentOk(db.customers, db.payments[op.payment]); }
  }

  lemma CapturesKept(db: Db, op: Op)
    requires PaymentsOk(db) && CapturesOk(db)
    ensures CapturesOk(After(db, op))
  {
    if Writing(db, op) {
      forall p
        ensures Sum(After(db, op).ledger.entries, JournalSide(Reference(PaymentCapture, p), Credit))
             == if p in After(db, op).payments then After(db, op).payments[p].captured else 0
      {
        OneCapture(db, op, p);
      }
    } else {
      NothingAfter(db, op);
    }
  }

  ghost function RefundsOf(refunds: map<nat, RefundRow>, p: nat): map<nat, int>
  {
    map r | r in refunds && refunds[r].payment == p :: refunds[r].amount
  }

  /** A payment's refund rows add up to what the payment says was refunded. */
  ghost predicate RefundsOk(db: Db)
  {
    && (forall p :: p in db.payments ==> Total(RefundsOf(db.refunds, p)) == db.payments[p].refunded)
    && (forall r :: r in db.refunds ==> db.refunds[r].payment in db.payments)
  }

  lemma RefundAdds(refunds: map<nat, RefundRow>, r: nat, row: RefundRow, p: nat)
    requires r !in refunds
    ensures Total(RefundsOf(refunds[r := row], p))
         == Total(RefundsOf(refunds, p)) + (if row.payment == p then row.amount else 0)
  {
    if row.payment == p {
      assert RefundsOf(refunds[r := row], p) == RefundsOf(refunds, p)[r := row.amount];
      TotalUpdate(RefundsOf(refunds, p), r, row.amount);
    } else {
      assert RefundsOf(refunds[r := row], p) == RefundsOf(refunds, p);
    }
  }

  lemma RowRefunds(db: Db, op: Op)
    requires Writing(db, op) && !op.Fund?
    ensures RowLeft(db, op).refunded
         == (if PaymentId(op) in db.payments then db.payments[PaymentId(op)].refunded else 0)
           + (if op.Refund? then op.amount else 0)
  {
    match op
    case Create(_, _, _, _, _) =>
    case Authorize(_, _) =>
    case Capture(_, _, _) =>
    case Cancel(_, _) =>
    case Refund(_, _, _, _, _) =>
  }

  lemma OneRefunded(db: Db, op: Op, p: nat)
    requires RefundsOk(db) && Writing(db, op) && p in After(db, op).payments
    ensures Total(RefundsOf(After(db, op).refunds, p)) == After(db, op).payments[p].refunded
  {
    PaymentsAfter(db, op);
    RefundedBefore(db, p);
    if !op.Fund? { RowRefunds(db, op); }
    RefundsAdded(db, op, p);
  }

  lemma RefundedBefore(db: Db, p: nat)
    requires RefundsOk(db)
    ensures Total(RefundsOf(db.refunds, p)) == if p in db.payments then db.payments[p].refunded else 0
  {
    if p !in db.payments { assert RefundsOf(db.refunds, p) == map[]; }
  }

  lemma RefundsAdded(db: Db, op: Op, p: nat)
    requires Writing(db, op)
    ensures Total(RefundsOf(After(db, op).refunds, p))
         == Total(RefundsOf(db.refunds, p)) + if op.Refund? && op.payment == p then op.amount else 0
  {
    RefundsAfter(db, op);
    if op.Refund? {
      PaymentsAfter(db, op);
      RefundAdds(db.refunds, op.newId, RefundRow(op.payment, op.amount, db.payments[op.payment].currency), p);
    }
  }

  lemma RefundsKept(db: Db, op: Op)
    requires RefundsOk(db)
    ensures RefundsOk(After(db, op))
  {
    if Writing(db, op) {
      PaymentsAfter(db, op);
      RefundsAfter(db, op);
      forall p | p in After(db, op).payments
        ensures Total(RefundsOf(After(db, op).refunds, p)) == After(db, op).payments[p].refunded
      {
        OneRefunded(db, op, p);
      }
    } else {
      NothingAfter(db, op);
    }
  }
}
