/** The service functions as they run against a database session: rows are loaded, their fields
    assigned, new rows added, and the route commits or rolls back
    (services/payment_service/app/service.py, services/payment_service/app/infra/repositories.py,
    services/payment_service/app/main.py). Each route is shown to do what `Serial` says. */
module Session {
  import opened Money
  import opened Ledger
  import opened Lifecycle
  import opened Triggers
  import opened Posting
  import opened Database
  import opened Invariants
  import opened Safety
  import opened Answers

  /** A payment as the session's object: the service assigns its fields and the flush writes them. */
  class PaymentRow {
    const id: nat
    const merchant: nat
    const customer: nat
    const amount: Minor
    const currency: Currency
    var status: Status
    var captured: int
    var refunded: int

    function Value(): Payment
      reads this
    {
      Payment(merchant, customer, amount, currency, status, captured, refunded)
    }

    predicate Holds(row: Payment)
      reads this
    {
      && merchant == row.merchant && customer == row.customer && amount == row.amount && currency == row.currency
      && status == row.status && captured == row.captured && refunded == row.refunded
    }

    constructor (id: nat, row: Payment)
      ensures this.id == id && Holds(row)
    {
      this.id := id;
      merchant, customer, amount, currency := row.merchant, row.customer, row.amount, row.currency;
      status, captured, refunded := row.status, row.captured, row.refunded;
    }
  }

  datatype Claim = Claimed | Existing(record: IdemRecord) | Conflict

  // ---------------------------------------------------------------- what a posting leaves to the commit

  /** The trigger calls queued by a posting: one for the draft, one for the posted row. */
  function Postings(op: Op, currency: Currency, at: nat): seq<(JournalId, Journal)>
  {
    [(JournalOf(op), Journal(JournalOf(op), currency, Draft, None)),
      (JournalOf(op), PostedJournal(JournalOf(op), currency, at))]
  }

  lemma NoneTaken(ledger: Tables, id: JournalId)
    requires forall j :: j in ledger.journals ==> ledger.journals[j].reference == j
    ensures !ReferenceTaken(ledger, id, id)
  {
  }

  function LinesOf(op: Op, amount: Amount): seq<LedgerLine>
  {
    if op.Fund? then SimulatedFunding(amount) else if op.Refund? then RefundLines(amount) else CaptureLines(amount)
  }

  /** `accounts_by_name` */
  function AccountsOf(op: Op, customer: nat, currency: Currency): map<AccountName, LedgerKey>
  {
    map[CustomerCash := CashKey(customer, currency), OtherKey(op, currency).name := OtherKey(op, currency)]
  }

  /** The rows of the lines that domain/ledger.py builds are the rows the operation is said to post. */
  lemma LinesAreRows(op: Op, customer: nat, amount: Amount)
    requires Posts(op)
    ensures Named(AccountsOf(op, customer, amount.currency), LinesOf(op, amount))
    ensures RowsFor(JournalOf(op), AccountsOf(op, customer, amount.currency), LinesOf(op, amount))
      == RowsPosted(op, customer, amount)
  {
  }

  /** The trigger takes the rows posted to a journal that has none yet. */
  lemma RowsAccepted(entries: seq<Entry>, op: Op, customer: nat, amount: Amount)
    requires Posts(op) && RowsOf(entries, JournalOf(op)) == []
    ensures Accepts(entries + RowsPosted(op, customer, amount), JournalOf(op), amount.currency)
  {
    LinesAreRows(op, customer, amount);
    LinesBalance(op, amount);
    CheckersAgree(entries, JournalOf(op), AccountsOf(op, customer, amount.currency), LinesOf(op, amount),
      amount.currency);
  }

  lemma NoRowsYet(before: Db, op: Op)
    requires JournalsOk(before) && JournalOf(op) !in before.ledger.journals
    ensures RowsOf(before.ledger.entries, JournalOf(op)) == []
  {
    forall i | 0 <= i < |before.ledger.entries| ensures before.ledger.entries[i].journal != JournalOf(op) {
      assert EntryOk(before.ledger.journals, before.keys, before.ledger.entries[i]);
    }
    NoRows(before.ledger.entries, JournalOf(op));
  }

  /** What an accepted posting adds to the ledger. */
  lemma PostedLedger(before: Db, op: Op)
    requires Posts(op) && Decide(before, op).Accept?
    ensures JournalOf(op) !in before.ledger.journals
    ensures Apply(before, Decide(before, op).writes).ledger.entries
         == before.ledger.entries + RowsPosted(op, Moved(before, op).0, Moved(before, op).1)
  {
    assert Serial(before, op).db == After(before, op);
    LedgerAfter(before, op);
  }

  /** The deferred trigger takes whatever an accepted operation posts. */
  lemma PostingPasses(before: Db, op: Op, ledger: Tables, queue: seq<(JournalId, Journal)>)
    requires JournalsOk(before) && Posts(op) && Decide(before, op).Accept?
    requires ledger == Apply(before, Decide(before, op).writes).ledger
    requires queue == Postings(op, Moved(before, op).1.currency, op.at)
    ensures AllPass(Work(ledger, queue))
  {
    PostedLedger(before, op);
    NoRowsYet(before, op);
    RowsAccepted(before.ledger.entries, op, Moved(before, op).0, Moved(before, op).1);
  }

  lemma LinesBalance(op: Op, amount: Amount)
    ensures AssertBalanced(LinesOf(op, amount)) == Balanced && Currencies(LinesOf(op, amount)) == {amount.currency}
  {
    MovementBalances(amount, CustomerCash, ProviderFunding);
    MovementBalances(amount, CustomerCash, MerchantReceivable);
    MovementBalances(amount, MerchantReceivable, CustomerCash);
    OneCurrency(LinesOf(op, amount), amount.currency);
  }

  /** What a service function owes its route: a refusal when the operation is refused, and otherwise
      the outcome and the write set of the operation. After a refusal the session may be left
      half written. */
  predicate Performed(before: Db, op: Op, outcome: Outcome, after: Db)
  {
    if outcome.Refused? then Decide(before, op) == Reject(outcome.error)
    else
      && Decide(before, op).Accept? && Decide(before, op).outcome == outcome
      && after == Apply(before, Decide(before, op).writes)
  }

  lemma Unwritten(db: Db)
    ensures Apply(db, NO_WRITES) == db
  {
    assert SameContents(db, Apply(db, NO_WRITES));
  }

  // The tables after each write set, as the statements leave them.

  lemma FundWritten(before: Db, op: Op, account: Account, after: Db)
    requires op.Fund? && account.currency == op.currency
    requires after == before.(
      keys := before.keys + {CashKey(account.customer, account.currency)} + {OtherKey(op, account.currency)},
      ledger := Tables(before.ledger.journals[JournalOf(op) := PostedJournal(JournalOf(op), account.currency, op.at)],
                       before.ledger.entries + RowsPosted(op, account.customer, Amount(op.amount, account.currency))),
      audits := before.audits + multiset{AccountFunded(op.merchant, op.account, op.amount, op.currency)})
    ensures after == Apply(before, WithKeys(FundWrites(op, account), op, account.customer, account.currency))
  {
    assert SameContents(after,
      Apply(before, WithKeys(FundWrites(op, account), op, account.customer, account.currency)));
  }

  lemma CreateWritten(before: Db, op: Op, after: Db)
    requires op.Create?
    requires after == before.(
      payments := before.payments[op.newId := NewPayment(op)],
      idem := before.idem[KeyOf(op) := IdemRecord(op.request, Some(ViewOf(op.newId, NewPayment(op))), Some(op.newId))],
      outbox := Noted(before.outbox, CreateWrites(op).notice),
      audits := before.audits + multiset{PaymentMade(op.merchant, op.newId, op.approved)})
    ensures after == Apply(before, CreateWrites(op))
  {
    assert SameContents(after, Apply(before, CreateWrites(op)));
  }

  lemma AuthorizeWritten(before: Db, op: Op, row: Payment, after: Db)
    requires op.Authorize?
    requires after == before.(
      payments := before.payments[op.payment := AuthorizedRow(row)],
      outbox := Noted(before.outbox, AuthorizeWrites(op, row).notice),
      audits := before.audits + multiset{PaymentApproved(op.merchant, op.payment)})
    ensures after == Apply(before, AuthorizeWrites(op, row))
  {
    assert SameContents(after, Apply(before, AuthorizeWrites(op, row)));
  }

  lemma RefusalWritten(before: Db, payment: nat, row: Payment, after: Db)
    requires after == before.(
      payments := before.payments[payment := row.(status := Failed)],
      outbox := Noted(before.outbox, RefusalWrites(payment, row).notice))
    ensures after == Apply(before, RefusalWrites(payment, row))
  {
    assert SameContents(after, Apply(before, RefusalWrites(payment, row)));
  }

  lemma CaptureWritten(before: Db, op: Op, row: Payment, after: Db)
    requires op.Capture?
    requires after == before.(
      payments := before.payments[op.payment := CapturedRow(row)],
      keys := before.keys + {CashKey(row.customer, row.currency)} + {OtherKey(op, row.currency)},
      ledger := Tables(before.ledger.journals[JournalOf(op) := PostedJournal(JournalOf(op), row.currency, op.at)],
                       before.ledger.entries + RowsPosted(op, row.customer, Amount(row.amount, row.currency))),
      outbox := Noted(before.outbox, CaptureWrites(op, row).notice),
      audits := before.audits + multiset{PaymentTaken(op.merchant, op.payment)})
    ensures after == Apply(before, WithKeys(CaptureWrites(op, row), op, row.customer, row.currency))
  {
    assert SameContents(after, Apply(before, WithKeys(CaptureWrites(op, row), op, row.customer, row.currency)));
  }

  lemma CancelWritten(before: Db, op: Op, row: Payment, after: Db)
    requires op.Cancel?
    requires after == before.(
      payments := before.payments[op.payment := CancelledRow(row)],
      outbox := Noted(before.outbox, CancelWrites(op, row).notice))
    ensures after == Apply(before, CancelWrites(op, row))
  {
    assert SameContents(after, Apply(before, CancelWrites(op, row)));
  }

  lemma RefundTables(before: Db, op: Op, row: Payment)
    requires op.Refund?
    ensures var w, t := WithKeys(RefundWrites(op, row), op, row.customer, row.currency), before;
      && t.payments + w.payments == t.payments[op.payment := RefundedRow(row, op.amount)]
      && t.keys + w.keys == t.keys + {CashKey(row.customer, row.currency)} + {OtherKey(op, row.currency)}
      && t.ledger.journals + w.journals
         == t.ledger.journals[JournalOf(op) := PostedJournal(JournalOf(op), row.currency, op.at)]
      && t.refunds + w.refunds == t.refunds[op.newId := RefundRow(op.payment, op.amount, row.currency)]
      && t.idem + w.idem == t.idem && t.audits + w.audits == t.audits
  {
  }

  lemma RefundWritten(before: Db, op: Op, row: Payment, after: Db)
    requires op.Refund?
    requires after == before.(
      payments := before.payments[op.payment := RefundedRow(row, op.amount)],
      keys := before.keys + {CashKey(row.customer, row.currency)} + {OtherKey(op, row.currency)},
      ledger := Tables(before.ledger.journals[JournalOf(op) := PostedJournal(JournalOf(op), row.currency, op.at)],
                       before.ledger.entries + RowsPosted(op, row.customer, Amount(op.amount, row.currency))),
      refunds := before.refunds[op.newId := RefundRow(op.payment, op.amount, row.currency)],
      outbox := Noted(before.outbox, RefundWrites(op, row).notice))
    ensures after == Apply(before, WithKeys(RefundWrites(op, row), op, row.customer, row.currency))
  {
    var w := WithKeys(RefundWrites(op, row), op, row.customer, row.currency);
    RefundTables(before, op, row);
    assert SameContents(after, Apply(before, w));
  }

  /** The unfinished record of a claim disappears under the finished one. */
  lemma ClaimIsOverwritten(before: Db, claimed: Db, op: Op)
    requires op.Create?
    requires claimed == before
      || claimed == before.(idem := before.idem[KeyOf(op) := IdemRecord(op.request, None, None)])
    ensures Apply(claimed, CreateWrites(op)) == Apply(before, CreateWrites(op))
  {
    assert claimed.idem + CreateWrites(op).idem == before.idem + CreateWrites(op).idem;
  }

  class Session {
    const merchants: set<nat>
    const customers: map<nat, nat>
    const accounts: map<nat, Account>
    var payments: map<nat, Payment>
    var idem: map<IdemKey, IdemRecord>
    var keys: set<LedgerKey>
    var ledger: Tables
    var queue: seq<(JournalId, Journal)>
    var refunds: map<nat, RefundRow>
    var outbox: map<nat, seq<Event>>
    var audits: multiset<Audit>

    function Contents(): Db
      reads this
    {
      Db(merchants, customers, accounts, payments, idem, keys, ledger, refunds, outbox, audits)
    }

    /** Between transactions: no trigger call is queued and every law holds. */
    ghost predicate Valid()
      reads this
    {
      queue == [] && Lawful(Contents())
    }

    /** A transaction is about to begin. */
    ghost predicate Ready()
      reads this
    {
      queue == [] && forall j :: j in ledger.journals ==> ledger.journals[j].reference == j
    }

    constructor (merchants: set<nat>, customers: map<nat, nat>, accounts: map<nat, Account>)
      ensures Fresh(Contents()) && Valid()
      ensures this.merchants == merchants && this.customers == customers && this.accounts == accounts
    {
      this.merchants, this.customers, this.accounts := merchants, customers, accounts;
      payments, idem, keys, ledger, queue := map[], map[], {}, Tables(map[], []), [];
      refunds, outbox, audits := map[], map[], multiset{};
      new;
      FreshIsLawful(Contents());
    }

    // -------------------------------------------------------------- repositories

    method PaymentForUpdate(payment: nat, merchant: nat) returns (row: PaymentRow?)
      ensures row != null <==> payment in payments && payments[payment].merchant == merchant
      ensures row != null ==> fresh(row) && row.id == payment && row.Holds(payments[payment])
    {
      row := null;
      if payment in payments && payments[payment].merchant == merchant {
        row := new PaymentRow(payment, payments[payment]);
      }
    }

    method Flush(row: PaymentRow)
      modifies this`payments
      ensures payments == old(payments)[row.id := row.Value()]
    {
      payments := payments[row.id := row.Value()];
    }

    method AppendOutbox(payment: nat, event: Event)
      modifies this`outbox
      ensures outbox == Noted(old(outbox), Some(Notice(payment, event)))
    {
      var rows := if payment in outbox then outbox[payment] else [];
      outbox := outbox[payment := rows + [event]];
    }

    method AppendAudit(audit: Audit)
      modifies this`audits
      ensures audits == old(audits) + multiset{audit}
    {
      audits := audits + multiset{audit};
    }

    method EnsureLedgerAccount(key: LedgerKey)
      modifies this`keys
      ensures keys == old(keys) + {key}
    {
      if key !in keys {
        keys := keys + {key};
      }
    }

    /** Inserts a DRAFT journal, then its entries one by one, then sets it POSTED, each statement under
        the triggers. It succeeds exactly when the reference is unused, and then the new entries are
        the rows of the lines. */
    method CreateJournal(id: JournalId, currency: Currency, named: map<AccountName, LedgerKey>,
      lines: seq<LedgerLine>, at: nat)
      returns (ok: bool)
      requires Named(named, lines)
      modifies this`ledger, this`queue
      ensures ok <==> id !in old(ledger).journals && !ReferenceTaken(old(ledger), id, id)
      ensures ok ==>
        && ledger == Tables(old(ledger).journals[id := Journal(id, currency, Posted, Some(at))],
          old(ledger).entries + RowsFor(id, named, lines))
        && queue == old(queue)
          + [(id, Journal(id, currency, Draft, None)), (id, Journal(id, currency, Posted, Some(at)))]
      ensures !ok ==> ledger == old(ledger) && queue == old(queue)
    {
      var draft := Journal(id, currency, Draft, None);
      var begun := Execute(Work(ledger, queue), InsertJournal(id, draft));
      if begun.Raised? { return false; }
      ledger, queue := begun.work.tables, begun.work.queue;
      ghost var drafted := ledger;
      var i := 0;
      while i < |lines|
        invariant 0 <= i <= |lines|
        invariant ledger == Tables(drafted.journals, old(ledger).entries + RowsFor(id, named, lines)[..i])
        invariant queue == old(queue) + [(id, draft)]
      {
        var inserted := Execute(Work(ledger, queue), InsertEntry(RowFor(id, named, lines[i])));
        assert RowsFor(id, named, lines)[..i + 1] == RowsFor(id, named, lines)[..i] + [RowFor(id, named, lines[i])];
        ledger := inserted.work.tables;
        i := i + 1;
      }
      assert RowsFor(id, named, lines)[..|lines|] == RowsFor(id, named, lines);
      var posted := Execute(Work(ledger, queue), UpdateJournal(id, PostedJournal(id, currency, at), true));
      ledger, queue := posted.work.tables, posted.work.queue;
      return true;
    }

    /** The two accounts a movement needs. */
    method EnsureAccounts(op: Op, customer: nat, currency: Currency)
      modifies this`keys
      ensures keys == old(keys) + {CashKey(customer, currency)} + {OtherKey(op, currency)}
    {
      EnsureLedgerAccount(CashKey(customer, currency));
      EnsureLedgerAccount(OtherKey(op, currency));
    }

    /** `create_journal` with the lines of the operation's builder. */
    method PostLines(op: Op, customer: nat, amount: Amount) returns (ok: bool)
      requires Posts(op) && Ready()
      modifies this`ledger, this`queue
      ensures ok <==> JournalOf(op) !in old(ledger).journals
      ensures ok ==>
        && ledger == Tables(old(ledger).journals[JournalOf(op) := PostedJournal(JournalOf(op), amount.currency, op.at)],
                            old(ledger).entries + RowsPosted(op, customer, amount))
        && queue == Postings(op, amount.currency, op.at)
      ensures !ok ==> ledger == old(ledger) && queue == old(queue)
    {
      NoneTaken(ledger, JournalOf(op));
      LinesAreRows(op, customer, amount);
      ok := CreateJournal(JournalOf(op), amount.currency, AccountsOf(op, customer, amount.currency),
        LinesOf(op, amount), op.at);
    }

    method ClaimIdempotency(key: IdemKey, request: Request) returns (claim: Claim)
      modifies this`idem
      ensures claim.Claimed? <==> key !in old(idem)
      ensures claim.Claimed? ==> idem == old(idem)[key := IdemRecord(request, None, None)]
      ensures !claim.Claimed? ==> idem == old(idem)
      ensures !claim.Claimed? ==> claim == if idem[key].fingerprint != request then Conflict else Existing(idem[key])
    {
      if key !in idem {
        idem := idem[key := IdemRecord(request, None, None)];
        claim := Claimed;
      } else if idem[key].fingerprint != request {
        claim := Conflict;
      } else {
        claim := Existing(idem[key]);
      }
    }

    method CompleteIdempotency(key: IdemKey, view: View, resource: nat)
      requires key in idem
      modifies this`idem
      ensures idem == old(idem)[key := IdemRecord(old(idem)[key].fingerprint, Some(view), Some(resource))]
    {
      idem := idem[key := idem[key].(response := Some(view), resource := Some(resource))];
    }

    /** Three queries: the owner's ledger accounts, the sum of debits, the sum of credits. */
    method ReadBalance(owner: nat, currency: Currency) returns (balance: int)
      ensures balance == Available(keys, ledger.entries, owner, currency)
      ensures LedgerKey(owner, CustomerCash, currency) !in keys ==> balance == 0
      ensures LedgerKey(owner, CustomerCash, currency) in keys ==>
        balance == Sum(ledger.entries, KeySide(LedgerKey(owner, CustomerCash, currency), Debit))
          - Sum(ledger.entries, KeySide(LedgerKey(owner, CustomerCash, currency), Credit))
    {
      var ids := set k | k in keys && k.owner == owner && k.currency == currency && k.name == CustomerCash;
      assert CashKey(owner, currency) in keys ==> CashKey(owner, currency) in ids;
      if ids == {} { return 0; }
      var k :| k in ids;
      assert k == CashKey(owner, currency);
      var debits := Sum(ledger.entries, KeySide(k, Debit));
      var credits := Sum(ledger.entries, KeySide(k, Credit));
      return debits - credits;
    }

    // -------------------------------------------------------------- services

    /** The writes of a funding whose checks have passed. */
    method WriteFunding(op: Op, account: Account) returns (ok: bool)
      requires op.Fund? && Ready() && account.currency == op.currency
      modifies this
      ensures ok <==> JournalOf(op) !in old(ledger).journals
      ensures ok ==>
        Contents() == Apply(old(Contents()), WithKeys(FundWrites(op, account), op, account.customer, account.currency))
      ensures ok ==> queue == Postings(op, account.currency, op.at)
    {
      EnsureAccounts(op, account.customer, account.currency);
      ok := PostLines(op, account.customer, Amount(op.amount, account.currency));
      if ok {
        AppendAudit(AccountFunded(op.merchant, op.account, op.amount, op.currency));
        FundWritten(old(Contents()), op, account, Contents());
      }
    }

    method FundAccount(merchant: nat, account: nat, amount: Minor, currency: Currency, at: nat)
      returns (outcome: Outcome)
      requires Ready()
      modifies this
      ensures Performed(old(Contents()), Fund(merchant, account, amount, currency, at), outcome, Contents())
      ensures !outcome.Refused? ==> queue == Postings(Fund(merchant, account, amount, currency, at), currency, at)
    {
      var op := Fund(merchant, account, amount, currency, at);
      if account !in accounts { return Refused(AccountNotFound); }
      var row := accounts[account];
      if row.customer !in customers || customers[row.customer] != merchant { return Refused(AccountNotFound); }
      if row.currency != currency { return Refused(CurrencyMismatch); }
      var ok := WriteFunding(op, row);
      return if ok then Funded(JournalOf(op)) else Refused(IntegrityViolated);
    }

    method InsertPayment(op: Op) returns (row: PaymentRow)
      requires op.Create?
      modifies this`payments
      ensures row.id == op.newId && row.Value() == NewPayment(op)
        && payments == old(payments)[op.newId := NewPayment(op)]
    {
      row := new PaymentRow(op.newId, Payment(op.merchant, op.request.customer, op.request.amount, op.request.currency,
                                              if op.approved then Pending else Failed, 0, 0));
      Flush(row);
    }

    /** The writes of a creation whose checks have passed and whose key is claimed. */
    method WriteCreation(op: Op) returns (body: View)
      requires op.Create? && KeyOf(op) in idem && idem[KeyOf(op)].fingerprint == op.request
      modifies this
      ensures body == ViewOf(op.newId, NewPayment(op))
      ensures Contents() == Apply(old(Contents()), CreateWrites(op)) && queue == old(queue)
    {
      var row := InsertPayment(op);
      AppendOutbox(op.newId, Event(if op.approved then PaymentCreated else PaymentFailed,
                                   CreationPayload(op.newId, row.status, op.approved)));
      AppendAudit(PaymentMade(op.merchant, op.newId, op.approved));
      body := ViewOf(op.newId, row.Value());
      CompleteIdempotency(KeyOf(op), body, op.newId);
      CreateWritten(old(Contents()), op, Contents());
    }

    method CreatePayment(merchant: nat, key: string, request: Request, approved: bool, newId: nat)
      returns (outcome: Outcome)
      requires Ready()
      modifies this
      ensures Performed(old(Contents()), Create(merchant, key, request, approved, newId), outcome, Contents())
      ensures queue == old(queue)
    {
      var op := Create(merchant, key, request, approved, newId);
      var claim := ClaimIdempotency(IdemKey(merchant, key), request);
      if claim.Conflict? { return Refused(IdempotencyConflict); }
      if claim.Existing? && claim.record.response.Some? {
        Unwritten(Contents());
        return Done(claim.record.response.value);
      }
      if request.customer !in customers || customers[request.customer] != merchant { return Refused(CustomerNotFound); }
      if merchant !in merchants { return Refused(MerchantNotFound); }
      if newId in payments { return Refused(IntegrityViolated); }
      ghost var claimed := Contents();
      var body := WriteCreation(op);
      ClaimIsOverwritten(old(Contents()), claimed, op);
      return Done(body);
    }

    /** The writes of an authorization: refused for want of funds, or granted. */
    method WriteAuthorization(op: Op, row: PaymentRow, granted: bool)
      requires op.Authorize? && op.payment in payments && row.id == op.payment && row.Holds(payments[op.payment])
      modifies this, row
      ensures var stored := old(payments)[op.payment];
        Contents() == Apply(old(Contents()), if granted then AuthorizeWrites(op, stored)
          else RefusalWrites(op.payment, stored))
      ensures row.Value() == old(row.Value()).(status := if granted then Authorized else Failed)
      ensures queue == old(queue)
    {
      ghost var stored := payments[op.payment];
      if granted {
        row.status := Authorized;
        Flush(row);
        AppendOutbox(op.payment, Event(PaymentAuthorized, AmountPayload(op.payment, row.amount, row.currency)));
        AppendAudit(PaymentApproved(op.merchant, op.payment));
        AuthorizeWritten(old(Contents()), op, stored, Contents());
      } else {
        row.status := Failed;
        Flush(row);
        AppendOutbox(op.payment, Event(PaymentFailed, ReasonPayload(op.payment, InsufficientFunds)));
        RefusalWritten(old(Contents()), op.payment, stored, Contents());
      }
    }

    /** The refusal for want of funds is raised after its row and event were written, and its route commits it. */
    method AuthorizePayment(merchant: nat, payment: nat) returns (outcome: Outcome)
      requires Ready()
      modifies this
      ensures Performed(old(Contents()), Authorize(merchant, payment), outcome, Contents())
      ensures queue == old(queue)
    {
      var op := Authorize(merchant, payment);
      var row := PaymentForUpdate(payment, merchant);
      if row == null { return Refused(PaymentNotFound); }
      if !Transition(row.status, Authorized) { return Refused(IllegalTransition); }
      if row.customer !in customers { return Refused(CustomerNotFound); }
      var balance := ReadBalance(row.customer, row.currency);
      var granted := row.amount <= balance;
      WriteAuthorization(op, row, granted);
      return if granted then Done(ViewOf(payment, row.Value())) else PersistedRefusal(InsufficientFunds);
    }

    method MarkCaptured(row: PaymentRow)
      modifies row
      ensures row.Value() == CapturedRow(old(row.Value()))
    {
      row.status := Captured;
      row.captured := row.amount;
    }

    /** The payment's row, its event and its audit row. */
    method RecordCapture(op: Op, row: PaymentRow)
      requires op.Capture? && row.id == op.payment
      modifies row, this`payments, this`outbox, this`audits
      ensures row.Value() == CapturedRow(old(row.Value()))
      ensures payments == old(payments)[op.payment := row.Value()]
      ensures outbox == Noted(old(outbox), CaptureWrites(op, old(row.Value())).notice)
      ensures audits == old(audits) + multiset{PaymentTaken(op.merchant, op.payment)}
    {
      MarkCaptured(row);
      Flush(row);
      AppendOutbox(op.payment, Event(PaymentCaptured, AmountPayload(op.payment, row.amount, row.currency)));
      AppendAudit(PaymentTaken(op.merchant, op.payment));
    }

    /** The writes of a capture whose checks have passed. */
    method WriteCapture(op: Op, row: PaymentRow) returns (ok: bool)
      requires op.Capture? && Ready() && op.payment in payments && row.id == op.payment
        && row.Holds(payments[op.payment])
      modifies this, row
      ensures ok <==> JournalOf(op) !in old(ledger).journals
      ensures var stored := old(payments)[op.payment];
        ok ==>
          && Contents()
            == Apply(old(Contents()), WithKeys(CaptureWrites(op, stored), op, stored.customer, stored.currency))
          && row.Value() == CapturedRow(stored) && queue == Postings(op, stored.currency, op.at)
    {
      ghost var stored := payments[op.payment];
      EnsureAccounts(op, row.customer, row.currency);
      ok := PostLines(op, row.customer, Amount(row.amount, row.currency));
      if !ok { return; }
      RecordCapture(op, row);
      CaptureWritten(old(Contents()), op, stored, Contents());
    }

    method CapturePayment(merchant: nat, payment: nat, at: nat) returns (outcome: Outcome)
      requires Ready()
      modifies this
      ensures Performed(old(Contents()), Capture(merchant, payment, at), outcome, Contents())
      ensures !outcome.Refused? ==>
        queue == Postings(Capture(merchant, payment, at), old(payments)[payment].currency, at)
    {
      var op := Capture(merchant, payment, at);
      var row := PaymentForUpdate(payment, merchant);
      if row == null { return Refused(PaymentNotFound); }
      if !Transition(row.status, Captured) { return Refused(IllegalTransition); }
      if row.customer !in customers { return Refused(CustomerNotFound); }
      var balance := ReadBalance(row.customer, row.currency);
      if balance < row.amount { return Refused(InsufficientFunds); }
      var ok := WriteCapture(op, row);
      return if ok then Done(ViewOf(payment, row.Value())) else Refused(AlreadyCaptured);
    }

    method CancelPayment(merchant: nat, payment: nat) returns (outcome: Outcome)
      requires Ready()
      modifies this
      ensures Performed(old(Contents()), Cancel(merchant, payment), outcome, Contents())
      ensures queue == old(queue)
    {
      ghost var op := Cancel(merchant, payment);
      var row := PaymentForUpdate(payment, merchant);
      if row == null { return Refused(PaymentNotFound); }
      if !Transition(row.status, Cancelled) { return Refused(IllegalTransition); }
      row.status := Cancelled;
      Flush(row);
      AppendOutbox(payment, Event(PaymentCancelled, EmptyPayload));
      CancelWritten(old(Contents()), op, old(payments)[payment], Contents());
      return Done(ViewOf(payment, row.Value()));
    }

    method UpdateRefunded(row: PaymentRow, amount: Minor)
      modifies row
      ensures row.Value() == RefundedRow(old(row.Value()), amount)
    {
      row.refunded := row.refunded + amount;
      row.status := if row.refunded == row.captured then Status.Refunded else PartiallyRefunded;
    }

    method AddRefund(id: nat, refund: RefundRow) returns (ok: bool)
      modifies this`refunds
      ensures ok <==> id !in old(refunds)
      ensures refunds == if ok then old(refunds)[id := refund] else old(refunds)
    {
      ok := id !in refunds;
      if ok { refunds := refunds[id := refund]; }
    }

    /** The refund row and its journal. */
    method PostRefund(op: Op, customer: nat, currency: Currency) returns (ok: bool)
      requires op.Refund? && Ready()
      modifies this`keys, this`refunds, this`ledger, this`queue
      ensures ok <==> op.newId !in old(refunds) && JournalOf(op) !in old(ledger).journals
      ensures ok ==>
        && keys == old(keys) + {CashKey(customer, currency)} + {OtherKey(op, currency)}
        && refunds == old(refunds)[op.newId := RefundRow(op.payment, op.amount, currency)]
        && ledger == Tables(old(ledger).journals[JournalOf(op) := PostedJournal(JournalOf(op), currency, op.at)],
                            old(ledger).entries + RowsPosted(op, customer, Amount(op.amount, currency)))
        && queue == Postings(op, currency, op.at)
    {
      EnsureAccounts(op, customer, currency);
      ok := AddRefund(op.newId, RefundRow(op.payment, op.amount, currency));
      if !ok { return; }
      ok := PostLines(op, customer, Amount(op.amount, currency));
    }

    /** The payment's row and its event. */
    method RecordRefund(op: Op, row: PaymentRow)
      requires op.Refund? && row.id == op.payment
      modifies row, this`payments, this`outbox
      ensures row.Value() == RefundedRow(old(row.Value()), op.amount)
      ensures payments == old(payments)[op.payment := row.Value()]
      ensures outbox == Noted(old(outbox), RefundWrites(op, old(row.Value())).notice)
    {
      UpdateRefunded(row, op.amount);
      Flush(row);
      AppendOutbox(op.payment, Event(PaymentRefunded, RefundPayload(op.payment, op.newId, op.amount)));
    }

    /** The writes of a refund whose checks have passed. */
    method WriteRefund(op: Op, row: PaymentRow) returns (ok: bool)
      requires op.Refund? && Ready() && op.payment in payments
      requires row.id == op.payment && row.Holds(payments[op.payment])
      modifies this, row
      ensures ok <==> op.newId !in old(refunds) && JournalOf(op) !in old(ledger).journals
      ensures var stored := old(payments)[op.payment];
        ok ==>
          && Contents()
            == Apply(old(Contents()), WithKeys(RefundWrites(op, stored), op, stored.customer, stored.currency))
          && row.Value() == RefundedRow(stored, op.amount) && queue == Postings(op, stored.currency, op.at)
    {
      ghost var stored := payments[op.payment];
      ok := PostRefund(op, row.customer, row.currency);
      if !ok { return; }
      RecordRefund(op, row);
      RefundWritten(old(Contents()), op, stored, Contents());
    }

    method RefundPayment(merchant: nat, payment: nat, amount: Minor, newId: nat, at: nat) returns (outcome: Outcome)
      requires Ready()
      modifies this
      ensures Performed(old(Contents()), Op.Refund(merchant, payment, amount, newId, at), outcome, Contents())
      ensures !outcome.Refused? ==>
        queue == Postings(Op.Refund(merchant, payment, amount, newId, at), old(payments)[payment].currency, at)
    {
      var op := Op.Refund(merchant, payment, amount, newId, at);
      var row := PaymentForUpdate(payment, merchant);
      if row == null { return Refused(PaymentNotFound); }
      if row.status !in {Captured, PartiallyRefunded} { return Refused(NotRefundable); }
      var remaining := row.captured - row.refunded;
      if amount > remaining { return Refused(RefundExceedsCapture); }
      if row.customer !in customers { return Refused(CustomerNotFound); }
      var ok := WriteRefund(op, row);
      return if ok then Done(ViewOf(payment, row.Value())) else Refused(IntegrityViolated);
    }

    // -------------------------------------------------------------- routes

    method Rollback(before: Db)
      requires before.merchants == merchants && before.customers == customers && before.accounts == accounts
      modifies this
      ensures Contents() == before && queue == []
    {
      payments, idem, keys, ledger := before.payments, before.idem, before.keys, before.ledger;
      refunds, outbox, audits, queue := before.refunds, before.outbox, before.audits, [];
    }

    /** COMMIT runs the deferred trigger calls; one that raises rolls the transaction back. */
    method Commit(before: Db) returns (ok: bool)
      requires before.merchants == merchants && before.customers == customers && before.accounts == accounts
      modifies this
      ensures ok <==> old(AllPass(Work(ledger, queue)))
      ensures queue == [] && Contents() == if ok then old(Contents()) else before
    {
      ok := AllPass(Work(ledger, queue));
      if ok { queue := []; } else { Rollback(before); }
    }

    /** The end of every route: an exception rolls back, anything else commits. */
    method Finish(ghost op: Op, before: Db, done: Outcome) returns (outcome: Outcome)
      requires before.merchants == merchants && before.customers == customers && before.accounts == accounts
      requires Lawful(before) && Performed(before, op, done, Contents())
      requires !done.Refused? ==> queue == if Posts(op) then Postings(op, Moved(before, op).1.currency, op.at) else []
      modifies this
      ensures Valid() && Contents() == Serial(before, op).db && outcome == Serial(before, op).outcome
    {
      SerialIsLawful(before, op);
      outcome := done;
      if done.Refused? {
        Rollback(before);
      } else {
        if Posts(op) { PostingPasses(before, op, ledger, queue); }
        var ok := Commit(before);
      }
    }

    method FundRoute(merchant: nat, account: nat, amount: Minor, currency: Currency, at: nat) returns (outcome: Outcome)
      requires Valid()
      modifies this
      ensures Valid()
      ensures Reply(outcome, Contents()) == Serial(old(Contents()), Fund(merchant, account, amount, currency, at))
      ensures outcome.Funded? <==> Fundable(old(Contents()), merchant, account, currency)
      ensures outcome.Funded? ==> Contents() == FundLeaves(old(Contents()), merchant, account, amount, currency, at)
    {
      var before := Contents();
      outcome := FundAccount(merchant, account, amount, currency, at);
      outcome := Finish(Fund(merchant, account, amount, currency, at), before, outcome);
      FundReply(before, merchant, account, amount, currency, at);
    }

    method CreateRoute(merchant: nat, key: string, request: Request, approved: bool, newId: nat)
      returns (outcome: Outcome)
      requires Valid()
      modifies this
      ensures Valid()
      ensures Reply(outcome, Contents()) == Serial(old(Contents()), Create(merchant, key, request, approved, newId))
      ensures IdemKey(merchant, key) !in old(idem) ==>
        && (outcome.Done? <==> Creatable(old(Contents()), merchant, request, newId))
        && (outcome.Done? ==> Contents() == CreateLeaves(old(Contents()), merchant, key, request, approved, newId))
    {
      var before := Contents();
      outcome := CreatePayment(merchant, key, request, approved, newId);
      outcome := Finish(Create(merchant, key, request, approved, newId), before, outcome);
      CreateReply(before, merchant, key, request, approved, newId);
    }

    /** `authorize_route` catches the persisted refusal inside its transaction, so it commits. */
    method AuthorizeRoute(merchant: nat, payment: nat) returns (outcome: Outcome)
      requires Valid()
      modifies this
      ensures Valid()
      ensures Reply(outcome, Contents()) == Serial(old(Contents()), Authorize(merchant, payment))
      ensures !outcome.Refused? <==> StandsAt(old(Contents()), merchant, payment, {Pending})
      ensures outcome.Done?
         <==> StandsAt(old(Contents()), merchant, payment, {Pending}) && Covered(old(Contents()), payment)
      ensures !outcome.Refused? ==>
        Contents() == if outcome.Done? then AuthorizeLeaves(old(Contents()), merchant, payment)
          else RefusalLeaves(old(Contents()), payment)
    {
      var before := Contents();
      outcome := AuthorizePayment(merchant, payment);
      outcome := Finish(Authorize(merchant, payment), before, outcome);
      AuthorizeReply(before, merchant, payment);
    }

    method CaptureRoute(merchant: nat, payment: nat, at: nat) returns (outcome: Outcome)
      requires Valid()
      modifies this
      ensures Valid()
      ensures Reply(outcome, Contents()) == Serial(old(Contents()), Capture(merchant, payment, at))
      ensures outcome.Done?
         <==> StandsAt(old(Contents()), merchant, payment, {Authorized}) && Covered(old(Contents()), payment)
      ensures outcome.Done? ==> Contents() == CaptureLeaves(old(Contents()), merchant, payment, at)
    {
      var before := Contents();
      outcome := CapturePayment(merchant, payment, at);
      outcome := Finish(Capture(merchant, payment, at), before, outcome);
      CaptureReply(before, merchant, payment, at);
    }

    method CancelRoute(merchant: nat, payment: nat) returns (outcome: Outcome)
      requires Valid()
      modifies this
      ensures Valid()
      ensures Reply(outcome, Contents()) == Serial(old(Contents()), Cancel(merchant, payment))
      ensures outcome.Done? <==> StandsAt(old(Contents()), merchant, payment, {Created, Pending, Authorized})
      ensures outcome.Done? ==> Contents() == CancelLeaves(old(Contents()), payment)
    {
      var before := Contents();
      outcome := CancelPayment(merchant, payment);
      outcome := Finish(Cancel(merchant, payment), before, outcome);
      CancelReply(before, merchant, payment);
    }

    method RefundRoute(merchant: nat, payment: nat, amount: Minor, newId: nat, at: nat) returns (outcome: Outcome)
      requires Valid()
      modifies this
      ensures Valid()
      ensures Reply(outcome, Contents()) == Serial(old(Contents()), Op.Refund(merchant, payment, amount, newId, at))
      ensures outcome.Done?
         <==> Refundable(old(Contents()), merchant, payment, amount) && newId !in old(refunds)
      ensures outcome.Done? ==> Contents() == RefundLeaves(old(Contents()), merchant, payment, amount, newId, at)
    {
      var before := Contents();
      outcome := RefundPayment(merchant, payment, amount, newId, at);
      outcome := Finish(Op.Refund(merchant, payment, amount, newId, at), before, outcome);
      RefundReply(before, merchant, payment, amount, newId, at);
    }
  }
}
