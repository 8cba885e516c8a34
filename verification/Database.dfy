/** The rows the payment service keeps, the write set of each of its transactions, and each
    transaction run alone against a database
    (services/payment_service/app/infra/models.py, services/payment_service/app/service.py). */
module Database {
  import opened Money
  import opened Ledger
  import opened Lifecycle

  // ---------------------------------------------------------------- rows

  datatype Account = Account(customer: nat, currency: Currency)

  datatype Payment = Payment(merchant: nat, customer: nat, amount: Minor, currency: Currency,
                             status: Status, captured: int, refunded: int)

  datatype RefundRow = RefundRow(payment: nat, amount: Minor, currency: Currency)

  /** The response body built by `payment_response`. */
  datatype View = View(payment: nat, status: Status, amount: Minor, currency: Currency, captured: int, refunded: int)

  /** A creation request. It stands for its own fingerprint. */
  datatype Request = Request(customer: nat, amount: Minor, currency: Currency)

  datatype IdemKey = IdemKey(merchant: nat, key: string)

  datatype IdemRecord = IdemRecord(fingerprint: Request, response: Option<View>, resource: Option<nat>)

  datatype EventKind =
    | PaymentCreated | PaymentAuthorized | PaymentFailed | PaymentCaptured | PaymentCancelled | PaymentRefunded

  datatype Payload =
    | CreationPayload(payment: nat, status: Status, approved: bool)
    | ReasonPayload(payment: nat, reason: Error)
    | AmountPayload(payment: nat, amount: Minor, currency: Currency)
    | RefundPayload(payment: nat, refund: nat, amount: Minor)
    | EmptyPayload

  datatype Event = Event(kind: EventKind, payload: Payload)

  datatype Audit =
    | AccountFunded(merchant: nat, account: nat, amount: Minor, currency: Currency)
    | PaymentMade(merchant: nat, payment: nat, approved: bool)
    | PaymentApproved(merchant: nat, payment: nat)
    | PaymentTaken(merchant: nat, payment: nat)

  /** The tables. Merchants, customers and their accounts are never updated or deleted by the service.
      The outbox keeps the rows of each aggregate in the order in which they were committed; no order
      is kept between rows of different aggregates, and none between audit rows. */
  datatype Db = Db(
    merchants: set<nat>,
    customers: map<nat, nat>,
    accounts: map<nat, Account>,
    payments: map<nat, Payment>,
    idem: map<IdemKey, IdemRecord>,
    keys: set<LedgerKey>,
    ledger: Tables,
    refunds: map<nat, RefundRow>,
    outbox: map<nat, seq<Event>>,
    audits: multiset<Audit>)

  function OutboxOf(db: Db, payment: nat): seq<Event>
  {
    if payment in db.outbox then db.outbox[payment] else []
  }

  function CashKey(customer: nat, currency: Currency): LedgerKey
  {
    LedgerKey(customer, CustomerCash, currency)
  }

  /** A customer's projected cash: what its ledger account was debited less what it was credited. */
  function Cash(entries: seq<Entry>, customer: nat, currency: Currency): int
  {
    Sum(entries, KeySide(CashKey(customer, currency), Debit))
      - Sum(entries, KeySide(CashKey(customer, currency), Credit))
  }

  /** What `available_balance` returns: nothing without a ledger account. */
  function Available(keys: set<LedgerKey>, entries: seq<Entry>, customer: nat, currency: Currency): int
  {
    if CashKey(customer, currency) !in keys then 0 else Cash(entries, customer, currency)
  }

  function AvailableBalance(db: Db, customer: nat, currency: Currency): int
  {
    Available(db.keys, db.ledger.entries, customer, currency)
  }

  function ViewOf(id: nat, row: Payment): View
  {
    View(id, row.status, row.amount, row.currency, row.captured, row.refunded)
  }

  // ---------------------------------------------------------------- requests and replies

  /** `approved` is the verdict of the risk rules, `newId` the id drawn for a new row, `at` the clock. */
  datatype Op =
    | Fund(merchant: nat, account: nat, amount: Minor, currency: Currency, at: nat)
    | Create(merchant: nat, key: string, request: Request, approved: bool, newId: nat)
    | Authorize(merchant: nat, payment: nat)
    | Capture(merchant: nat, payment: nat, at: nat)
    | Cancel(merchant: nat, payment: nat)
    | Refund(merchant: nat, payment: nat, amount: Minor, newId: nat, at: nat)

  /** The idempotency key that a creation claims. */
  function KeyOf(op: Op): IdemKey
    requires op.Create?
  {
    IdemKey(op.merchant, op.key)
  }

  datatype Error =
    | AccountNotFound | CurrencyMismatch | IdempotencyConflict | IdempotencyRaced | CustomerNotFound
    | MerchantNotFound | PaymentNotFound | IllegalTransition | InsufficientFunds | AlreadyCaptured
    | NotRefundable | RefundExceedsCapture | IntegrityViolated | LedgerUpsertFailed

  datatype Outcome =
    | Done(view: View)
    | Funded(journal: JournalId)
    | PersistedRefusal(error: Error)
    | Refused(error: Error)

  /** A refusal rolls back; every other outcome commits. */
  datatype Reply = Reply(outcome: Outcome, db: Db)

  // ---------------------------------------------------------------- write sets

  datatype Notice = Notice(aggregate: nat, event: Event)

  datatype Writes = Writes(
    payments: map<nat, Payment>,
    idem: map<IdemKey, IdemRecord>,
    keys: set<LedgerKey>,
    journals: map<JournalId, Journal>,
    entries: seq<Entry>,
    refunds: map<nat, RefundRow>,
    notice: Option<Notice>,
    audits: multiset<Audit>)

  const NO_WRITES := Writes(map[], map[], {}, map[], [], map[], None, multiset{})

  /** The outbox with one more row. */
  function Noted(outbox: map<nat, seq<Event>>, notice: Option<Notice>): map<nat, seq<Event>>
  {
    match notice
    case None => outbox
    case Some(n) => outbox[n.aggregate := (if n.aggregate in outbox then outbox[n.aggregate] else []) + [n.event]]
  }

  /** Committing a write set. */
  function Apply(db: Db, w: Writes): Db
  {
    db.(payments := db.payments + w.payments,
        idem := db.idem + w.idem,
        keys := db.keys + w.keys,
        ledger := Tables(db.ledger.journals + w.journals, db.ledger.entries + w.entries),
        refunds := db.refunds + w.refunds,
        outbox := Noted(db.outbox, w.notice),
        audits := db.audits + w.audits)
  }

  /** Equality, table by table. */
  predicate SameContents(a: Db, b: Db)
  {
    && a.merchants == b.merchants && a.customers == b.customers && a.accounts == b.accounts
    && a.payments == b.payments && a.idem == b.idem && a.keys == b.keys
    && a.ledger.journals == b.ledger.journals && a.ledger.entries == b.ledger.entries
    && a.refunds == b.refunds && a.outbox == b.outbox && a.audits == b.audits
  }

  function OtherKey(op: Op, currency: Currency): LedgerKey
  {
    LedgerKey(op.merchant, if op.Fund? then ProviderFunding else MerchantReceivable, currency)
  }

  function PostedJournal(id: JournalId, currency: Currency, at: nat): Journal
  {
    Journal(id, currency, Posted, Some(at))
  }

  function JournalOf(op: Op): JournalId
  {
    match op
    case Fund(_, account, _, _, _) => Reference(AccountFunding, account)
    case Capture(_, payment, _) => Reference(PaymentCapture, payment)
    case Refund(_, _, _, newId, _) => Reference(PaymentRefund, newId)
    case _ => Reference(AccountFunding, 0)
  }

  /** The rows of the journal that `op` posts for `customer`: a capture takes the money out of the
      customer's cash, funding and refunds bring it in. `Session.CreateJournal` shows that these are
      the rows of the lines built in domain/ledger.py. */
  function RowsPosted(op: Op, customer: nat, amount: Amount): seq<Entry>
  {
    var cash, other := CashKey(customer, amount.currency), OtherKey(op, amount.currency);
    [Entry(JournalOf(op), if op.Capture? then other else cash, Debit, amount.minor, amount.currency),
     Entry(JournalOf(op), if op.Capture? then cash else other, Credit, amount.minor, amount.currency)]
  }

  function PostingWrites(op: Op, customer: nat, amount: Amount, at: nat): Writes
  {
    NO_WRITES.(journals := map[JournalOf(op) := PostedJournal(JournalOf(op), amount.currency, at)],
              entries := RowsPosted(op, customer, amount))
  }

  function FundWrites(op: Op, account: Account): Writes
    requires op.Fund?
  {
    PostingWrites(op, account.customer, Amount(op.amount, account.currency), op.at)
      .(audits := multiset{AccountFunded(op.merchant, op.account, op.amount, op.currency)})
  }

  function NewPayment(op: Op): Payment
    requires op.Create?
  {
    Payment(op.merchant, op.request.customer, op.request.amount, op.request.currency,
            if op.approved then Pending else Failed, 0, 0)
  }

  function CreateWrites(op: Op): Writes
    requires op.Create?
  {
    var row := NewPayment(op);
    NO_WRITES.(payments := map[op.newId := row],
              idem := map[IdemKey(op.merchant, op.key) := IdemRecord(op.request, Some(ViewOf(op.newId, row)),
                Some(op.newId))],
              notice := Some(Notice(op.newId, Event(if op.approved then PaymentCreated else PaymentFailed,
                                                    CreationPayload(op.newId, row.status, op.approved)))),
              audits := multiset{PaymentMade(op.merchant, op.newId, op.approved)})
  }

  function AuthorizedRow(row: Payment): Payment { row.(status := Authorized) }

  function AuthorizeWrites(op: Op, row: Payment): Writes
    requires op.Authorize?
  {
    NO_WRITES.(payments := map[op.payment := AuthorizedRow(row)],
              notice := Some(Notice(op.payment,
                Event(PaymentAuthorized, AmountPayload(op.payment, row.amount, row.currency)))),
              audits := multiset{PaymentApproved(op.merchant, op.payment)})
  }

  /** What a failed authorization commits before the error goes back to the caller. */
  function RefusalWrites(payment: nat, row: Payment): Writes
  {
    NO_WRITES.(payments := map[payment := row.(status := Failed)],
              notice := Some(Notice(payment, Event(PaymentFailed, ReasonPayload(payment, InsufficientFunds)))))
  }

  function CapturedRow(row: Payment): Payment { row.(status := Captured, captured := row.amount) }

  function CaptureWrites(op: Op, row: Payment): Writes
    requires op.Capture?
  {
    PostingWrites(op, row.customer, Amount(row.amount, row.currency), op.at)
      .(payments := map[op.payment := CapturedRow(row)],
        notice := Some(Notice(op.payment, Event(PaymentCaptured, AmountPayload(op.payment, row.amount, row.currency)))),
        audits := multiset{PaymentTaken(op.merchant, op.payment)})
  }

  function CancelledRow(row: Payment): Payment { row.(status := Cancelled) }

  function CancelWrites(op: Op, row: Payment): Writes
    requires op.Cancel?
  {
    NO_WRITES.(payments := map[op.payment := CancelledRow(row)],
              notice := Some(Notice(op.payment, Event(PaymentCancelled, EmptyPayload))))
  }

  function RefundedRow(row: Payment, amount: Minor): Payment
  {
    row.(refunded := row.refunded + amount,
         status := if row.refunded + amount == row.captured then Status.Refunded else PartiallyRefunded)
  }

  function RefundWrites(op: Op, row: Payment): Writes
    requires op.Refund?
  {
    PostingWrites(op, row.customer, Amount(op.amount, row.currency), op.at)
      .(payments := map[op.payment := RefundedRow(row, op.amount)],
        refunds := map[op.newId := RefundRow(op.payment, op.amount, row.currency)],
        notice := Some(Notice(op.payment, Event(PaymentRefunded, RefundPayload(op.payment, op.newId, op.amount)))))
  }

  // ---------------------------------------------------------------- one transaction alone

  function WithKeys(w: Writes, op: Op, customer: nat, currency: Currency): Writes
  {
    w.(keys := {CashKey(customer, currency), OtherKey(op, currency)})
  }

  /** What an operation run alone decides: to refuse, which rolls back, or to commit a write set. */
  datatype Decision = Reject(error: Error) | Accept(outcome: Outcome, writes: Writes)

  function DecideFund(db: Db, op: Op): Decision
    requires op.Fund?
  {
    if op.account !in db.accounts then Reject(AccountNotFound)
    else
      var account := db.accounts[op.account];
      if account.customer !in db.customers || db.customers[account.customer] != op.merchant then Reject(AccountNotFound)
      else if account.currency != op.currency then Reject(CurrencyMismatch)
      else if JournalOf(op) in db.ledger.journals then Reject(IntegrityViolated)
      else Accept(Funded(JournalOf(op)), WithKeys(FundWrites(op, account), op, account.customer, account.currency))
  }

  function DecideCreate(db: Db, op: Op): Decision
    requires op.Create?
  {
    var key := IdemKey(op.merchant, op.key);
    if key in db.idem && db.idem[key].fingerprint != op.request then Reject(IdempotencyConflict)
    else if key in db.idem && db.idem[key].response.Some? then Accept(Done(db.idem[key].response.value), NO_WRITES)
    else if op.request.customer !in db.customers || db.customers[op.request.customer] != op.merchant then
      Reject(CustomerNotFound)
    else if op.merchant !in db.merchants then Reject(MerchantNotFound)
    else if op.newId in db.payments then Reject(IntegrityViolated)
    else Accept(Done(ViewOf(op.newId, NewPayment(op))), CreateWrites(op))
  }

  /** `payment_for_update` finds the row only under the merchant that owns it. */
  predicate Owned(db: Db, merchant: nat, payment: nat)
  {
    payment in db.payments && db.payments[payment].merchant == merchant
  }

  function DecideAuthorize(db: Db, op: Op): Decision
    requires op.Authorize?
  {
    if !Owned(db, op.merchant, op.payment) then Reject(PaymentNotFound)
    else
      var row := db.payments[op.payment];
      if !Transition(row.status, Authorized) then Reject(IllegalTransition)
      else if row.customer !in db.customers then Reject(CustomerNotFound)
      else if AvailableBalance(db, row.customer, row.currency) < row.amount then
        Accept(PersistedRefusal(InsufficientFunds), RefusalWrites(op.payment, row))
      else Accept(Done(ViewOf(op.payment, AuthorizedRow(row))), AuthorizeWrites(op, row))
  }

  function DecideCapture(db: Db, op: Op): Decision
    requires op.Capture?
  {
    if !Owned(db, op.merchant, op.payment) then Reject(PaymentNotFound)
    else
      var row := db.payments[op.payment];
      if !Transition(row.status, Captured) then Reject(IllegalTransition)
      else if row.customer !in db.customers then Reject(CustomerNotFound)
      else if AvailableBalance(db, row.customer, row.currency) < row.amount then Reject(InsufficientFunds)
      else if JournalOf(op) in db.ledger.journals then Reject(AlreadyCaptured)
      else Accept(Done(ViewOf(op.payment, CapturedRow(row))),
        WithKeys(CaptureWrites(op, row), op, row.customer, row.currency))
  }

  function DecideCancel(db: Db, op: Op): Decision
    requires op.Cancel?
  {
    if !Owned(db, op.merchant, op.payment) then Reject(PaymentNotFound)
    else
      var row := db.payments[op.payment];
      if !Transition(row.status, Cancelled) then Reject(IllegalTransition)
      else Accept(Done(ViewOf(op.payment, CancelledRow(row))), CancelWrites(op, row))
  }

  function DecideRefund(db: Db, op: Op): Decision
    requires op.Refund?
  {
    if !Owned(db, op.merchant, op.payment) then Reject(PaymentNotFound)
    else
      var row := db.payments[op.payment];
      if row.status !in {Captured, PartiallyRefunded} then Reject(NotRefundable)
      else if op.amount > row.captured - row.refunded then Reject(RefundExceedsCapture)
      else if row.customer !in db.customers then Reject(CustomerNotFound)
      else if op.newId in db.refunds || JournalOf(op) in db.ledger.journals then Reject(IntegrityViolated)
      else Accept(Done(ViewOf(op.payment, RefundedRow(row, op.amount))),
                  WithKeys(RefundWrites(op, row), op, row.customer, row.currency))
  }

  function Decide(db: Db, op: Op): Decision
  {
    match op
    case Fund(_, _, _, _, _) => DecideFund(db, op)
    case Create(_, _, _, _, _) => DecideCreate(db, op)
    case Authorize(_, _) => DecideAuthorize(db, op)
    case Capture(_, _, _) => DecideCapture(db, op)
    case Cancel(_, _) => DecideCancel(db, op)
    case Refund(_, _, _, _, _) => DecideRefund(db, op)
  }

  /** An operation run alone, from its BEGIN to its COMMIT or ROLLBACK. */
  function Serial(db: Db, op: Op): Reply
  {
    match Decide(db, op)
    case Reject(error) => Reply(Refused(error), db)
    case Accept(outcome, writes) => Reply(outcome, Apply(db, writes))
  }

  // ---------------------------------------------------------------- serial runs

  datatype Call = Call(txn: nat, op: Op, outcome: Outcome)

  /** The database after the calls of a history, one after the other. */
  function Replay(db: Db, history: seq<Call>): Db
  {
    if |history| == 0 then db
    else Serial(Replay(db, history[..|history| - 1]), history[|history| - 1].op).db
  }

  /** Every call of the history commits, with the recorded outcome, when run alone at its place. */
  predicate Faithful(db: Db, history: seq<Call>)
  {
    |history| == 0 ||
    (var front, last := history[..|history| - 1], history[|history| - 1];
     Faithful(db, front) && !last.outcome.Refused? && Serial(Replay(db, front), last.op).outcome == last.outcome)
  }

  lemma {:induction false} ReplayAppend(db: Db, a: seq<Call>, b: seq<Call>)
    ensures Replay(db, a + b) == Replay(Replay(db, a), b)
    ensures Faithful(db, a + b) <==> Faithful(db, a) && Faithful(Replay(db, a), b)
    decreases |b|
  {
    if |b| == 0 {
      assert a + b == a;
    } else {
      assert (a + b)[..|a + b| - 1] == a + b[..|b| - 1];
      ReplayAppend(db, a, b[..|b| - 1]);
    }
  }

  lemma ReplayOne(db: Db, call: Call)
    ensures Replay(db, [call]) == Serial(db, call.op).db
    ensures Faithful(db, [call]) <==> !call.outcome.Refused? && Serial(db, call.op).outcome == call.outcome
  {
    assert [call][..0] == [];
  }

  /** A database with its directory of merchants, customers and accounts, before any money has moved. */
  predicate Fresh(db: Db)
  {
    && db.payments == map[] && db.idem == map[] && db.keys == {} && db.ledger == Tables(map[], [])
    && db.refunds == map[] && db.outbox == map[] && db.audits == multiset{}
  }
}
