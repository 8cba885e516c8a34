/** What a caller is answered and what is left in the tables, operation by operation, with every status, account,
    event and audit row named. On a lawful database, which by `Safety` is every reachable one, the answers depend on
    less than the code looks at: the customer of a payment is always there, its balance is always that of its
    ledger account, and a capture never finds its journal already posted
    (services/payment_service/app/service.py, services/payment_service/app/domain). */
module Answers {
  import opened Money
  import opened Ledger
  import opened Lifecycle
  import opened Database
  import opened Invariants
  import opened Idempotency

  // ---------------------------------------------------------------- balances

  /** What the entries of a customer's ledger account come to. */
  function CashIn(db: Db, customer: nat, currency: Currency): int
  {
    var key := LedgerKey(customer, CustomerCash, currency);
    Sum(db.ledger.entries, KeySide(key, Debit)) - Sum(db.ledger.entries, KeySide(key, Credit))
  }

  lemma {:induction false} NoEntriesNoSum(entries: seq<Entry>, key: LedgerKey, side: Direction)
    requires forall i :: 0 <= i < |entries| ==> entries[i].key != key
    ensures Sum(entries, KeySide(key, side)) == 0
  {
    if |entries| == 0 {
    } else {
      NoEntriesNoSum(entries[..|entries| - 1], key, side);
    }
  }

  /** The balance read is the cash in the ledger, whether or not the account exists yet. */
  lemma BalanceIsCash(db: Db, customer: nat, currency: Currency)
    requires JournalsOk(db)
    ensures AvailableBalance(db, customer, currency) == CashIn(db, customer, currency)
  {
    var key := LedgerKey(customer, CustomerCash, currency);
    if key !in db.keys {
      forall i | 0 <= i < |db.ledger.entries| ensures db.ledger.entries[i].key != key
      {
        assert EntryOk(db.ledger.journals, db.keys, db.ledger.entries[i]);
      }
      NoEntriesNoSum(db.ledger.entries, key, Debit);
      NoEntriesNoSum(db.ledger.entries, key, Credit);
    }
  }

  // ---------------------------------------------------------------- answers

  /** What the laws say about one payment. */
  lemma RowFacts(db: Db, payment: nat)
    requires PaymentsOk(db) && JournalsOk(db) && payment in db.payments
    ensures var row := db.payments[payment];
      && RowOk(row) && row.customer in db.customers && db.customers[row.customer] == row.merchant
      && AvailableBalance(db, row.customer, row.currency) == CashIn(db, row.customer, row.currency)
      && (Reference(PaymentCapture, payment) in db.ledger.journals <==> row.captured > 0)
    ensures forall r :: Reference(PaymentRefund, r) in db.ledger.journals <==> r in db.refunds
  {
    assert PaymentOk(db.customers, db.payments[payment]);
    BalanceIsCash(db, db.payments[payment].customer, db.payments[payment].currency);
  }

  /** What the caller of an operation is told. */
  function Answered(db: Db, op: Op): Outcome
  {
    match Decide(db, op)
    case Reject(error) => Refused(error)
    case Accept(outcome, _) => outcome
  }

  lemma AnsweredIsReply(db: Db, op: Op)
    ensures Serial(db, op).outcome == Answered(db, op)
  {
  }

  /** The merchant has this payment, and it stands at one of these statuses. */
  predicate StandsAt(db: Db, merchant: nat, payment: nat, statuses: set<Status>)
  {
    payment in db.payments && db.payments[payment].merchant == merchant && db.payments[payment].status in statuses
  }

  /** The customer's cash covers the payment. */
  predicate Covered(db: Db, payment: nat)
    requires payment in db.payments
  {
    db.payments[payment].amount <= CashIn(db, db.payments[payment].customer, db.payments[payment].currency)
  }

  /** The account is one of the merchant's customers', in this currency, and was not funded before. */
  predicate Fundable(db: Db, merchant: nat, account: nat, currency: Currency)
  {
    && account in db.accounts && db.accounts[account].customer in db.customers
    && db.customers[db.accounts[account].customer] == merchant && db.accounts[account].currency == currency
    && Reference(AccountFunding, account) !in db.ledger.journals
  }

  /** The request names a customer of the merchant. */
  predicate Creatable(db: Db, merchant: nat, request: Request, newId: nat)
  {
    && request.customer in db.customers && db.customers[request.customer] == merchant
    && merchant in db.merchants && newId !in db.payments
  }

  /** So much of the capture is left. */
  predicate Refundable(db: Db, merchant: nat, payment: nat, amount: Minor)
  {
    && StandsAt(db, merchant, payment, {Captured, PartiallyRefunded})
    && db.payments[payment].refunded + amount <= db.payments[payment].amount
  }

  lemma FundAnswer(db: Db, merchant: nat, account: nat, amount: Minor, currency: Currency, at: nat)
    ensures Answered(db, Fund(merchant, account, amount, currency, at)) ==
      if account !in db.accounts || db.accounts[account].customer !in db.customers
        || db.customers[db.accounts[account].customer] != merchant then Refused(AccountNotFound)
      else if db.accounts[account].currency != currency then Refused(CurrencyMismatch)
      else if Reference(AccountFunding, account) in db.ledger.journals then Refused(IntegrityViolated)
      else Funded(Reference(AccountFunding, account))
  {
  }

  /** The payment that was created for the request, as it then stood. */
  predicate AnsweredAsCreated(db: Db, request: Request, outcome: Outcome)
  {
    && outcome.Done? && outcome.view.payment in db.payments && outcome.view.status in {Pending, Failed}
    && outcome.view == View(outcome.view.payment, outcome.view.status, request.amount, request.currency, 0, 0)
    && db.payments[outcome.view.payment].customer == request.customer
  }

  /** A key that was claimed answers the same request with the payment as it was created. */
  lemma CreateAnswer(db: Db, merchant: nat, key: string, request: Request, approved: bool, newId: nat)
    requires RecordsOk(db)
    ensures IdemKey(merchant, key) in db.idem ==>
      var outcome := Answered(db, Create(merchant, key, request, approved, newId));
      if db.idem[IdemKey(merchant, key)].fingerprint != request then outcome == Refused(IdempotencyConflict)
      else AnsweredAsCreated(db, request, outcome)
    ensures IdemKey(merchant, key) !in db.idem ==>
      Answered(db, Create(merchant, key, request, approved, newId)) ==
        if request.customer !in db.customers || db.customers[request.customer] != merchant then
          Refused(CustomerNotFound)
        else if merchant !in db.merchants then Refused(MerchantNotFound)
        else if newId in db.payments then Refused(IntegrityViolated)
        else Done(View(newId, if approved then Pending else Failed, request.amount, request.currency, 0, 0))
  {
    if IdemKey(merchant, key) in db.idem {
      assert RecordOk(db.payments, IdemKey(merchant, key), db.idem[IdemKey(merchant, key)]);
    }
  }

  /** Only a pending payment is authorized, exactly when the customer's cash covers it; otherwise it fails for good. */
  lemma AuthorizeAnswer(db: Db, merchant: nat, payment: nat)
    requires PaymentsOk(db) && JournalsOk(db)
    ensures Answered(db, Authorize(merchant, payment)) ==
      if payment !in db.payments || db.payments[payment].merchant != merchant then Refused(PaymentNotFound)
      else
        var row := db.payments[payment];
        if row.status != Pending then Refused(IllegalTransition)
        else if row.amount <= CashIn(db, row.customer, row.currency) then
          Done(View(payment, Authorized, row.amount, row.currency, 0, 0))
        else PersistedRefusal(InsufficientFunds)
  {
    if payment in db.payments {
      RowFacts(db, payment);
    }
  }

  /** Only an authorized payment is captured, exactly when the customer's cash covers it, and then in full. */
  lemma CaptureAnswer(db: Db, merchant: nat, payment: nat, at: nat)
    requires PaymentsOk(db) && JournalsOk(db)
    ensures Answered(db, Capture(merchant, payment, at)) ==
      if payment !in db.payments || db.payments[payment].merchant != merchant then Refused(PaymentNotFound)
      else
        var row := db.payments[payment];
        if row.status != Authorized then Refused(IllegalTransition)
        else if row.amount <= CashIn(db, row.customer, row.currency) then
          Done(View(payment, Captured, row.amount, row.currency, row.amount, 0))
        else Refused(InsufficientFunds)
  {
    if payment in db.payments {
      RowFacts(db, payment);
    }
  }

  /** A payment is cancelled exactly until money has been captured or it has failed. */
  lemma CancelAnswer(db: Db, merchant: nat, payment: nat)
    requires PaymentsOk(db) && JournalsOk(db)
    ensures Answered(db, Cancel(merchant, payment)) ==
      if payment !in db.payments || db.payments[payment].merchant != merchant then Refused(PaymentNotFound)
      else
        var row := db.payments[payment];
        if row.status in {Created, Pending, Authorized} then
          Done(View(payment, Cancelled, row.amount, row.currency, 0, 0))
        else Refused(IllegalTransition)
  {
    if payment in db.payments { RowFacts(db, payment); }
  }

  /** A refund is given exactly up to what is left of the capture, and the last one finishes the payment. */
  lemma RefundAnswer(db: Db, merchant: nat, payment: nat, amount: Minor, newId: nat, at: nat)
    requires PaymentsOk(db) && JournalsOk(db)
    ensures Answered(db, Op.Refund(merchant, payment, amount, newId, at)) ==
      if payment !in db.payments || db.payments[payment].merchant != merchant then Refused(PaymentNotFound)
      else
        var row := db.payments[payment];
        if row.status !in {Captured, PartiallyRefunded} then Refused(NotRefundable)
        else if row.refunded + amount > row.amount then Refused(RefundExceedsCapture)
        else if newId in db.refunds then Refused(IntegrityViolated)
        else Done(View(payment, if row.refunded + amount == row.amount then Status.Refunded else PartiallyRefunded,
                       row.amount, row.currency, row.amount, row.refunded + amount))
  {
    if payment in db.payments { RowFacts(db, payment); }
  }

  // ---------------------------------------------------------------- what is left in the tables

  /** The ledger with one more POSTED journal, of one debit and one credit of the amount. */
  function PostedTo(ledger: Tables, journal: JournalId, amount: Amount, at: nat,
                    debited: LedgerKey, credited: LedgerKey): Tables
  {
    Tables(ledger.journals[journal := Journal(journal, amount.currency, Posted, Some(at))],
           ledger.entries + [Entry(journal, debited, Debit, amount.minor, amount.currency),
                             Entry(journal, credited, Credit, amount.minor, amount.currency)])
  }

  /** The outbox with one more row of this payment. */
  function Told(db: Db, payment: nat, event: Event): map<nat, seq<Event>>
  {
    db.outbox[payment := OutboxOf(db, payment) + [event]]
  }

  /** The rows of a posting, account by account. */
  lemma PostingTables(ledger: Tables, op: Op, customer: nat, amount: Amount, at: nat)
    requires Posts(op)
    ensures var w := PostingWrites(op, customer, amount, at);
      var cash := LedgerKey(customer, CustomerCash, amount.currency);
      var receivable := LedgerKey(op.merchant, MerchantReceivable, amount.currency);
      var provider := LedgerKey(op.merchant, ProviderFunding, amount.currency);
      Tables(ledger.journals + w.journals, ledger.entries + w.entries) ==
        match op
        case Fund(_, account, _, _, _) =>
          PostedTo(ledger, Reference(AccountFunding, account), amount, at, cash, provider)
        case Capture(_, payment, _) =>
          PostedTo(ledger, Reference(PaymentCapture, payment), amount, at, receivable, cash)
        case Refund(_, _, _, newId, _) =>
          PostedTo(ledger, Reference(PaymentRefund, newId), amount, at, cash, receivable)
        case _ => ledger
  {
  }

  function FundLeaves(db: Db, merchant: nat, account: nat, amount: Minor, currency: Currency, at: nat): Db
    requires account in db.accounts
  {
    var cash := LedgerKey(db.accounts[account].customer, CustomerCash, currency);
    var provider := LedgerKey(merchant, ProviderFunding, currency);
    db.(keys := db.keys + {cash, provider},
        ledger := PostedTo(db.ledger, Reference(AccountFunding, account), Amount(amount, currency), at, cash, provider),
        audits := db.audits + multiset{AccountFunded(merchant, account, amount, currency)})
  }

  /** Funding debits the customer's cash and credits the provider's account of the merchant. */
  lemma FundEffect(db: Db, merchant: nat, account: nat, amount: Minor, currency: Currency, at: nat)
    requires Answered(db, Fund(merchant, account, amount, currency, at)).Funded?
    ensures account in db.accounts
    ensures Serial(db, Fund(merchant, account, amount, currency, at)).db
         == FundLeaves(db, merchant, account, amount, currency, at)
  {
    assert SameContents(Serial(db, Fund(merchant, account, amount, currency, at)).db,
      FundLeaves(db, merchant, account, amount, currency, at));
  }

  function CreateLeaves(db: Db, merchant: nat, key: string, request: Request, approved: bool, newId: nat): Db
  {
    var status := if approved then Pending else Failed;
    var view := View(newId, status, request.amount, request.currency, 0, 0);
    db.(payments := db.payments[newId :=
          Payment(merchant, request.customer, request.amount, request.currency, status, 0, 0)],
        idem := db.idem[IdemKey(merchant, key) := IdemRecord(request, Some(view), Some(newId))],
        outbox := Told(db, newId, Event(if approved then PaymentCreated else PaymentFailed,
                                        CreationPayload(newId, status, approved))),
        audits := db.audits + multiset{PaymentMade(merchant, newId, approved)})
  }

  /** The write set of a creation, table by table. */
  lemma CreateRows(op: Op)
    requires op.Create?
    ensures var w := CreateWrites(op); var status := if op.approved then Pending else Failed;
      var view := View(op.newId, status, op.request.amount, op.request.currency, 0, 0);
      && w.payments == map[op.newId := Payment(op.merchant, op.request.customer, op.request.amount,
           op.request.currency, status, 0, 0)]
      && w.idem == map[IdemKey(op.merchant, op.key) := IdemRecord(op.request, Some(view), Some(op.newId))]
      && w.notice == Some(Notice(op.newId, Event(if op.approved then PaymentCreated else PaymentFailed,
           CreationPayload(op.newId, status, op.approved))))
      && w.audits == multiset{PaymentMade(op.merchant, op.newId, op.approved)}
      && w.keys == {} && w.refunds == map[] && w.journals == map[] && w.entries == []
  {
  }

  lemma CreateApplies(db: Db, op: Op)
    requires op.Create?
    ensures Apply(db, CreateWrites(op)) == CreateLeaves(db, op.merchant, op.key, op.request, op.approved, op.newId)
  {
    LedgerUntouched(db, CreateWrites(op));
    CreateRows(op);
    assert SameContents(Apply(db, CreateWrites(op)),
      CreateLeaves(db, op.merchant, op.key, op.request, op.approved, op.newId));
  }

  /** A creation under a new key leaves the payment, the answer under its key, one event and one audit row; */
  lemma CreateEffect(db: Db, merchant: nat, key: string, request: Request, approved: bool, newId: nat)
    requires Answered(db, Create(merchant, key, request, approved, newId)).Done? && IdemKey(merchant, key) !in db.idem
    ensures Serial(db, Create(merchant, key, request, approved, newId)).db
         == CreateLeaves(db, merchant, key, request, approved, newId)
  {
    CreateDecided(db, Create(merchant, key, request, approved, newId));
    CreateApplies(db, Create(merchant, key, request, approved, newId));
  }

  /** and a refused operation, or a creation under a claimed key, leaves nothing. */
  lemma NoEffect(db: Db, op: Op)
    requires RecordsOk(db)
    requires Answered(db, op).Refused? || (op.Create? && IdemKey(op.merchant, op.key) in db.idem)
    ensures Serial(db, op).db == db
  {
    if op.Create? && IdemKey(op.merchant, op.key) in db.idem {
      assert RecordOk(db.payments, IdemKey(op.merchant, op.key), db.idem[IdemKey(op.merchant, op.key)]);
    }
    NothingAfter(db, op);
  }

  function AuthorizeLeaves(db: Db, merchant: nat, payment: nat): Db
    requires payment in db.payments
  {
    var row := db.payments[payment];
    db.(payments := db.payments[payment := row.(status := Authorized)],
        outbox := Told(db, payment, Event(PaymentAuthorized, AmountPayload(payment, row.amount, row.currency))),
        audits := db.audits + multiset{PaymentApproved(merchant, payment)})
  }

  /** Refused for want of funds, the payment is FAILED all the same, and its event says why. */
  function RefusalLeaves(db: Db, payment: nat): Db
    requires payment in db.payments
  {
    db.(payments := db.payments[payment := db.payments[payment].(status := Failed)],
        outbox := Told(db, payment, Event(PaymentFailed, ReasonPayload(payment, InsufficientFunds))))
  }

  lemma AuthorizeApplies(db: Db, op: Op)
    requires op.Authorize? && op.payment in db.payments
    ensures Apply(db, AuthorizeWrites(op, db.payments[op.payment])) == AuthorizeLeaves(db, op.merchant, op.payment)
  {
    LedgerUntouched(db, AuthorizeWrites(op, db.payments[op.payment]));
    assert SameContents(Apply(db, AuthorizeWrites(op, db.payments[op.payment])),
      AuthorizeLeaves(db, op.merchant, op.payment));
  }

  lemma RefusalApplies(db: Db, payment: nat)
    requires payment in db.payments
    ensures Apply(db, RefusalWrites(payment, db.payments[payment])) == RefusalLeaves(db, payment)
  {
    LedgerUntouched(db, RefusalWrites(payment, db.payments[payment]));
    assert SameContents(Apply(db, RefusalWrites(payment, db.payments[payment])), RefusalLeaves(db, payment));
  }

  lemma AuthorizeAccepted(db: Db, op: Op)
    requires op.Authorize? && !Answered(db, op).Refused?
    ensures op.payment in db.payments
    ensures Serial(db, op).db == Apply(db, if Answered(db, op).Done? then AuthorizeWrites(op, db.payments[op.payment])
      else RefusalWrites(op.payment, db.payments[op.payment]))
  {
  }

  /** An authorization moves no money, granted or not. */
  lemma AuthorizeEffect(db: Db, merchant: nat, payment: nat)
    requires !Answered(db, Authorize(merchant, payment)).Refused?
    ensures payment in db.payments
    ensures Serial(db, Authorize(merchant, payment)).db
         == if Answered(db, Authorize(merchant, payment)).Done? then AuthorizeLeaves(db, merchant, payment)
            else RefusalLeaves(db, payment)
  {
    AuthorizeAccepted(db, Authorize(merchant, payment));
    AuthorizeApplies(db, Authorize(merchant, payment));
    RefusalApplies(db, payment);
  }

  function CaptureLeaves(db: Db, merchant: nat, payment: nat, at: nat): Db
    requires payment in db.payments
  {
    var row := db.payments[payment];
    var cash := LedgerKey(row.customer, CustomerCash, row.currency);
    var receivable := LedgerKey(merchant, MerchantReceivable, row.currency);
    db.(payments := db.payments[payment := row.(status := Captured, captured := row.amount)],
        keys := db.keys + {cash, receivable},
        ledger := PostedTo(db.ledger, Reference(PaymentCapture, payment), Amount(row.amount, row.currency), at,
                           receivable, cash),
        outbox := Told(db, payment, Event(PaymentCaptured, AmountPayload(payment, row.amount, row.currency))),
        audits := db.audits + multiset{PaymentTaken(merchant, payment)})
  }

  lemma CaptureApplies(db: Db, op: Op)
    requires op.Capture? && op.payment in db.payments
    ensures var row := db.payments[op.payment];
      Apply(db, WithKeys(CaptureWrites(op, row), op, row.customer, row.currency))
        == CaptureLeaves(db, op.merchant, op.payment, op.at)
  {
    var row := db.payments[op.payment];
    PostingTables(db.ledger, op, row.customer, Amount(row.amount, row.currency), op.at);
    assert SameContents(Apply(db, WithKeys(CaptureWrites(op, row), op, row.customer, row.currency)),
      CaptureLeaves(db, op.merchant, op.payment, op.at));
  }

  lemma CaptureAccepted(db: Db, op: Op)
    requires op.Capture? && Answered(db, op).Done?
    ensures op.payment in db.payments
    ensures var row := db.payments[op.payment];
      Serial(db, op).db == Apply(db, WithKeys(CaptureWrites(op, row), op, row.customer, row.currency))
  {
  }

  /** A capture takes the whole amount out of the customer's cash into the merchant's receivable. */
  lemma CaptureEffect(db: Db, merchant: nat, payment: nat, at: nat)
    requires Answered(db, Capture(merchant, payment, at)).Done?
    ensures payment in db.payments
    ensures Serial(db, Capture(merchant, payment, at)).db == CaptureLeaves(db, merchant, payment, at)
  {
    CaptureAccepted(db, Capture(merchant, payment, at));
    CaptureApplies(db, Capture(merchant, payment, at));
  }

  function CancelLeaves(db: Db, payment: nat): Db
    requires payment in db.payments
  {
    db.(payments := db.payments[payment := db.payments[payment].(status := Cancelled)],
        outbox := Told(db, payment, Event(PaymentCancelled, EmptyPayload)))
  }

  /** A cancellation moves no money and writes no audit row, and its event has an empty payload. */
  lemma CancelEffect(db: Db, merchant: nat, payment: nat)
    requires Answered(db, Cancel(merchant, payment)).Done?
    ensures payment in db.payments
    ensures Serial(db, Cancel(merchant, payment)).db == CancelLeaves(db, payment)
  {
    LedgerUntouched(db, Decide(db, Cancel(merchant, payment)).writes);
    assert SameContents(Serial(db, Cancel(merchant, payment)).db, CancelLeaves(db, payment));
  }

  function RefundLeaves(db: Db, merchant: nat, payment: nat, amount: Minor, newId: nat, at: nat): Db
    requires payment in db.payments
  {
    var row := db.payments[payment];
    var refunded := row.refunded + amount;
    var cash := LedgerKey(row.customer, CustomerCash, row.currency);
    var receivable := LedgerKey(merchant, MerchantReceivable, row.currency);
    db.(payments := db.payments[payment := row.(refunded := refunded,
          status := if refunded == row.captured then Status.Refunded else PartiallyRefunded)],
        keys := db.keys + {cash, receivable},
        ledger := PostedTo(db.ledger, Reference(PaymentRefund, newId), Amount(amount, row.currency), at,
                           cash, receivable),
        refunds := db.refunds[newId := RefundRow(payment, amount, row.currency)],
        outbox := Told(db, payment, Event(PaymentRefunded, RefundPayload(payment, newId, amount))))
  }

  /** The write set of a refund, table by table. */
  lemma RefundRows(op: Op, row: Payment)
    requires op.Refund?
    ensures var w := WithKeys(RefundWrites(op, row), op, row.customer, row.currency);
      var refunded := row.refunded + op.amount;
      && w.payments == map[op.payment := row.(refunded := refunded,
           status := if refunded == row.captured then Status.Refunded else PartiallyRefunded)]
      && w.keys == {LedgerKey(row.customer, CustomerCash, row.currency),
                    LedgerKey(op.merchant, MerchantReceivable, row.currency)}
      && w.refunds == map[op.newId := RefundRow(op.payment, op.amount, row.currency)]
      && w.notice == Some(Notice(op.payment, Event(PaymentRefunded, RefundPayload(op.payment, op.newId, op.amount))))
      && w.idem == map[] && w.audits == multiset{}
  {
  }

  lemma RefundApplies(db: Db, op: Op)
    requires op.Refund? && op.payment in db.payments
    ensures var row := db.payments[op.payment];
      Apply(db, WithKeys(RefundWrites(op, row), op, row.customer, row.currency))
        == RefundLeaves(db, op.merchant, op.payment, op.amount, op.newId, op.at)
  {
    var row := db.payments[op.payment];
    var w := WithKeys(RefundWrites(op, row), op, row.customer, row.currency);
    PostingTables(db.ledger, op, row.customer, Amount(op.amount, row.currency), op.at);
    RefundRows(op, row);
    assert SameContents(Apply(db, w), RefundLeaves(db, op.merchant, op.payment, op.amount, op.newId, op.at));
  }

  lemma RefundAccepted(db: Db, op: Op)
    requires op.Refund? && Answered(db, op).Done?
    ensures op.payment in db.payments
    ensures var row := db.payments[op.payment];
      Serial(db, op).db == Apply(db, WithKeys(RefundWrites(op, row), op, row.customer, row.currency))
  {
  }

  /** A refund gives its amount back from the merchant's receivable to the customer's cash. */
  lemma RefundEffect(db: Db, merchant: nat, payment: nat, amount: Minor, newId: nat, at: nat)
    requires Answered(db, Op.Refund(merchant, payment, amount, newId, at)).Done?
    ensures payment in db.payments
    ensures Serial(db, Op.Refund(merchant, payment, amount, newId, at)).db
         == RefundLeaves(db, merchant, payment, amount, newId, at)
  {
    RefundAccepted(db, Op.Refund(merchant, payment, amount, newId, at));
    RefundApplies(db, Op.Refund(merchant, payment, amount, newId, at));
  }

  // ---------------------------------------------------------------- replies in every lawful state

  lemma FundReply(db: Db, merchant: nat, account: nat, amount: Minor, currency: Currency, at: nat)
    ensures var reply := Serial(db, Fund(merchant, account, amount, currency, at));
      && (reply.outcome.Funded? <==> Fundable(db, merchant, account, currency))
      && (reply.outcome.Funded? ==> reply.db == FundLeaves(db, merchant, account, amount, currency, at))
  {
    AnsweredIsReply(db, Fund(merchant, account, amount, currency, at));
    FundAnswer(db, merchant, account, amount, currency, at);
    if Answered(db, Fund(merchant, account, amount, currency, at)).Funded? {
      FundEffect(db, merchant, account, amount, currency, at);
    }
  }

  lemma CreateReply(db: Db, merchant: nat, key: string, request: Request, approved: bool, newId: nat)
    requires RecordsOk(db)
    ensures var reply := Serial(db, Create(merchant, key, request, approved, newId));
      IdemKey(merchant, key) !in db.idem ==>
        && (reply.outcome.Done? <==> Creatable(db, merchant, request, newId))
        && (reply.outcome.Done? ==> reply.db == CreateLeaves(db, merchant, key, request, approved, newId))
  {
    AnsweredIsReply(db, Create(merchant, key, request, approved, newId));
    CreateAnswer(db, merchant, key, request, approved, newId);
    if Answered(db, Create(merchant, key, request, approved, newId)).Done? && IdemKey(merchant, key) !in db.idem {
      CreateEffect(db, merchant, key, request, approved, newId);
    }
  }

  lemma AuthorizeReply(db: Db, merchant: nat, payment: nat)
    requires PaymentsOk(db) && JournalsOk(db)
    ensures var reply := Serial(db, Authorize(merchant, payment));
      && (!reply.outcome.Refused? <==> StandsAt(db, merchant, payment, {Pending}))
      && (reply.outcome.Done? <==> StandsAt(db, merchant, payment, {Pending}) && Covered(db, payment))
      && (!reply.outcome.Refused? ==>
        reply.db == if Covered(db, payment) then AuthorizeLeaves(db, merchant, payment) else RefusalLeaves(db, payment))
  {
    AnsweredIsReply(db, Authorize(merchant, payment));
    AuthorizeAnswer(db, merchant, payment);
    if !Answered(db, Authorize(merchant, payment)).Refused? { AuthorizeEffect(db, merchant, payment); }
  }

  lemma CaptureReply(db: Db, merchant: nat, payment: nat, at: nat)
    requires PaymentsOk(db) && JournalsOk(db)
    ensures var reply := Serial(db, Capture(merchant, payment, at));
      && (reply.outcome.Done? <==> StandsAt(db, merchant, payment, {Authorized}) && Covered(db, payment))
      && (reply.outcome.Done? ==> reply.db == CaptureLeaves(db, merchant, payment, at))
  {
    AnsweredIsReply(db, Capture(merchant, payment, at));
    CaptureAnswer(db, merchant, payment, at);
    if Answered(db, Capture(merchant, payment, at)).Done? { CaptureEffect(db, merchant, payment, at); }
  }

  lemma CancelReply(db: Db, merchant: nat, payment: nat)
    requires PaymentsOk(db) && JournalsOk(db)
    ensures var reply := Serial(db, Cancel(merchant, payment));
      && (reply.outcome.Done? <==> StandsAt(db, merchant, payment, {Created, Pending, Authorized}))
      && (reply.outcome.Done? ==> reply.db == CancelLeaves(db, payment))
  {
    AnsweredIsReply(db, Cancel(merchant, payment));
    CancelAnswer(db, merchant, payment);
    if Answered(db, Cancel(merchant, payment)).Done? { CancelEffect(db, merchant, payment); }
  }

  lemma RefundReply(db: Db, merchant: nat, payment: nat, amount: Minor, newId: nat, at: nat)
    requires PaymentsOk(db) && JournalsOk(db)
    ensures var reply := Serial(db, Op.Refund(merchant, payment, amount, newId, at));
      && (reply.outcome.Done? <==> Refundable(db, merchant, payment, amount) && newId !in db.refunds)
      && (reply.outcome.Done? ==> reply.db == RefundLeaves(db, merchant, payment, amount, newId, at))
  {
    AnsweredIsReply(db, Op.Refund(merchant, payment, amount, newId, at));
    RefundAnswer(db, merchant, payment, amount, newId, at);
    if Answered(db, Op.Refund(merchant, payment, amount, newId, at)).Done? {
      RefundEffect(db, merchant, payment, amount, newId, at);
    }
  }
}
