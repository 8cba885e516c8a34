/** What the row locks give each transaction: while others commit around it, what it has read stays
    true, or moves only in the safe direction, until its own commit. */
module Isolation {
  import opened Money
  import opened Ledger
  import opened Lifecycle
  import opened Database
  import opened Transactions

  // ---------------------------------------------------------------- per-transaction invariant

  predicate KeyHeld(db: Db, t: Txn, second: bool)
  {
    EnsuredKey(t, second) in t.inserted ==>
      KeyRow(EnsuredKey(t, second)) in t.excl && EnsuredKey(t, second) !in db.keys
  }

  /** Only the two keys the operation needs are inserted, each under its unique key. */
  predicate KeysKnown(db: Db, t: Txn)
  {
    t.inserted <= {CashOf(t), OtherOf(t)} && KeyHeld(db, t, false) && KeyHeld(db, t, true)
  }

  predicate KeyDone(db: Db, t: Txn, second: bool)
  {
    EnsuredKey(t, second) in db.keys || EnsuredKey(t, second) in t.inserted
  }

  predicate KeysDone(db: Db, t: Txn)
  {
    KeyDone(db, t, false) && KeyDone(db, t, true)
  }

  /** The statements that post, common to funding, capture and refund. */
  predicate Posting(db: Db, t: Txn)
  {
    KeysKnown(db, t) &&
    match t.pc
    case EnsureKey(second, step) =>
      (second ==> KeyDone(db, t, false)) && (step == ReselectKey ==> EnsuredKey(t, second) in db.keys)
    case InsertRefund => t.op.Refund? && KeysDone(db, t)
    case PostJournal => KeysDone(db, t) && RefundInserted(db, t)
    case Ready(verdict) =>
      && verdict == Proceed && KeysDone(db, t) && RefundInserted(db, t)
      && JournalRow(JournalOf(t.op)) in t.excl && JournalOf(t.op) !in db.ledger.journals
    case _ => false
  }

  predicate RefundInserted(db: Db, t: Txn)
  {
    t.op.Refund? ==> RefundId(t.op.newId) in t.excl && t.op.newId !in db.refunds
  }

  predicate FundOk(db: Db, t: Txn)
    requires t.op.Fund?
  {
    if t.pc.Start? then t.inserted == {}
    else
      && t.loaded.AccountRead? && t.op.account in db.accounts && db.accounts[t.op.account] == t.loaded.account
      && (if t.pc.CheckAccount? then t.inserted == {} else AccountChecked(db, t) && Posting(db, t))
  }

  predicate AccountChecked(db: Db, t: Txn)
    requires t.op.Fund? && t.loaded.AccountRead?
  {
    && t.loaded.account.customer in db.customers && db.customers[t.loaded.account.customer] == t.op.merchant
    && t.loaded.account.currency == t.op.currency
  }

  /** The key is still unclaimed in the committed table, or its committed record was never completed. */
  predicate RecordOpen(db: Db, t: Txn)
    requires t.op.Create?
  {
    && IdemRow(KeyOf(t.op)) in t.excl
    && (KeyOf(t.op) in db.idem ==>
          db.idem[KeyOf(t.op)].fingerprint == t.op.request && db.idem[KeyOf(t.op)].response.None?)
  }

  predicate RecordAnswers(db: Db, t: Txn, view: View)
    requires t.op.Create?
  {
    && IdemRow(KeyOf(t.op)) in t.excl && KeyOf(t.op) in db.idem
    && db.idem[KeyOf(t.op)].fingerprint == t.op.request && db.idem[KeyOf(t.op)].response == Some(view)
  }

  predicate RequestChecked(db: Db, t: Txn)
    requires t.op.Create?
  {
    && t.op.request.customer in db.customers && db.customers[t.op.request.customer] == t.op.merchant
    && t.op.merchant in db.merchants
  }

  predicate PaymentInserted(db: Db, t: Txn)
    requires t.op.Create?
  {
    PaymentRow(t.op.newId) in t.excl && t.op.newId !in db.payments
  }

  predicate CreateOk(db: Db, t: Txn)
    requires t.op.Create?
  {
    t.inserted == {} &&
    match t.pc
    case Start => true
    case LockRecord => KeyOf(t.op) in db.idem
    case CheckRequest => RecordOpen(db, t)
    case InsertPayment => RecordOpen(db, t) && RequestChecked(db, t)
    case ReferCustomer => RecordOpen(db, t) && RequestChecked(db, t) && PaymentInserted(db, t)
    case Ready(verdict) =>
      if verdict.Answered? then RecordAnswers(db, t, verdict.view)
      else verdict == Proceed && RecordOpen(db, t) && RequestChecked(db, t) && PaymentInserted(db, t)
    case _ => false
  }

  /** The payment row was read under its lock, so the committed row is still the one read. */
  predicate PaymentHeld(db: Db, t: Txn)
    requires !t.op.Fund? && !t.op.Create?
  {
    && t.loaded.PaymentRead? && PaymentRow(t.op.payment) in t.excl
    && Owned(db, t.op.merchant, t.op.payment) && db.payments[t.op.payment] == t.loaded.payment
  }

  predicate CustomerHeld(db: Db, t: Txn)
    requires t.loaded.PaymentRead?
  {
    t.loaded.payment.customer in db.customers && CustomerRow(t.loaded.payment.customer) in t.excl
  }

  /** The balance still covers the payment: credits are frozen by the customer lock, debits only grow. */
  predicate Covers(db: Db, t: Txn)
    requires t.loaded.PaymentRead?
  {
    && CustomerHeld(db, t) && CashOf(t) in db.keys
    && t.loaded.payment.amount <= Cash(db.ledger.entries, t.loaded.payment.customer, t.loaded.payment.currency)
  }

  predicate ReadingBalance(db: Db, t: Txn)
    requires t.loaded.PaymentRead?
  {
    t.inserted == {} &&
    match t.pc
    case LockCustomer => true
    case ReadAccounts => CustomerHeld(db, t)
    case ReadDebits => CustomerHeld(db, t) && CashOf(t) in db.keys
    case ReadCredits(debits) =>
      CustomerHeld(db, t) && CashOf(t) in db.keys && debits <= Sum(db.ledger.entries, KeySide(CashOf(t), Debit))
    case _ => false
  }

  predicate AuthorizeOk(db: Db, t: Txn)
    requires t.op.Authorize?
  {
    if t.pc.Start? then t.inserted == {}
    else
      && PaymentHeld(db, t) && Transition(t.loaded.payment.status, Authorized)
      && match t.pc
         case Ready(verdict) =>
           t.inserted == {}
             && (if verdict == Insufficient then CustomerHeld(db, t) else verdict == Proceed && Covers(db, t))
         case _ => ReadingBalance(db, t)
  }

  predicate CaptureOk(db: Db, t: Txn)
    requires t.op.Capture?
  {
    if t.pc.Start? then t.inserted == {}
    else
      && PaymentHeld(db, t) && Transition(t.loaded.payment.status, Captured)
      && (ReadingBalance(db, t) || (Covers(db, t) && Posting(db, t)))
  }

  predicate CancelOk(db: Db, t: Txn)
    requires t.op.Cancel?
  {
    t.inserted == {} &&
    (t.pc.Start? || (PaymentHeld(db, t) && Transition(t.loaded.payment.status, Cancelled) && t.pc == Ready(Proceed)))
  }

  predicate Refundable(t: Txn)
    requires t.op.Refund? && t.loaded.PaymentRead?
  {
    && t.loaded.payment.status in {Captured, PartiallyRefunded}
    && t.op.amount <= t.loaded.payment.captured - t.loaded.payment.refunded
  }

  predicate RefundOk(db: Db, t: Txn)
    requires t.op.Refund?
  {
    if t.pc.Start? then t.inserted == {}
    else
      && PaymentHeld(db, t) && Refundable(t)
      && (if t.pc.ReadCustomer? then t.inserted == {}
          else t.loaded.payment.customer in db.customers && Posting(db, t))
  }

  predicate TxnOk(db: Db, t: Txn)
  {
    match t.op
    case Fund(_, _, _, _, _) => FundOk(db, t)
    case Create(_, _, _, _, _) => CreateOk(db, t)
    case Authorize(_, _) => AuthorizeOk(db, t)
    case Capture(_, _, _) => CaptureOk(db, t)
    case Cancel(_, _) => CancelOk(db, t)
    case Refund(_, _, _, _, _) => RefundOk(db, t)
  }

  // ---------------------------------------------------------------- a statement keeps it

  /** The statement's lock is held. */
  predicate Holds(db: Db, t: Txn)
  {
    match Wants(db, t)
    case None => true
    case Some(want) => if want.share then want.resource in t.shared else want.resource in t.excl
  }

  lemma LockKeeps(db: Db, t: Txn)
    requires TxnOk(db, t)
    ensures TxnOk(db, Locked(db, t)) && Holds(db, Locked(db, t))
  {
    var h := Locked(db, t);
    assert Wants(db, h) == Wants(db, t);
    MoreLocks(db, t, h);
  }

  lemma MoreLocks(db: Db, t: Txn, h: Txn)
    requires TxnOk(db, t) && h == t.(excl := h.excl, shared := h.shared) && t.excl <= h.excl
    ensures TxnOk(db, h)
  {
    match t.op
    case Fund(_, _, _, _, _) =>
    case Create(_, _, _, _, _) =>
    case Authorize(_, _) =>
    case Capture(_, _, _) =>
    case Cancel(_, _) =>
    case Refund(_, _, _, _, _) =>
  }

  lemma PostingKeeps(db: Db, t: Txn)
    requires Posting(db, t) && Holds(db, t)
    requires t.pc.EnsureKey? || t.pc.PostJournal? || t.pc.InsertRefund?
    requires Statement(db, t).Continue?
    ensures var next := Statement(db, t).txn;
      && next == t.(pc := next.pc, inserted := next.inserted) && Posting(db, next)
      && !next.pc.ReadCustomer? && !next.pc.CheckAccount? && !next.pc.Start?
  {
    match t.pc
    case EnsureKey(second, SelectKey) =>
    case EnsureKey(second, InsertKey) =>
    case EnsureKey(second, ReselectKey) =>
    case InsertRefund =>
    case PostJournal =>
  }

  lemma FundKeeps(db: Db, t: Txn)
    requires t.op.Fund? && FundOk(db, t) && Holds(db, t)
    requires Statement(db, t).Continue?
    ensures Statement(db, t).txn.op == t.op && FundOk(db, Statement(db, t).txn)
  {
    match t.pc
    case Start =>
    case CheckAccount =>
    case Ready(_) =>
    case _ => PostingKeeps(db, t);
  }

  lemma CreateKeeps(db: Db, t: Txn)
    requires t.op.Create? && CreateOk(db, t) && Holds(db, t)
    requires Statement(db, t).Continue?
    ensures Statement(db, t).txn.op == t.op && CreateOk(db, Statement(db, t).txn)
  {
    match t.pc
    case Start =>
    case LockRecord =>
    case CheckRequest =>
    case InsertPayment =>
    case ReferCustomer =>
    case Ready(_) =>
  }

  lemma AuthorizeKeeps(db: Db, t: Txn)
    requires t.op.Authorize? && AuthorizeOk(db, t) && Holds(db, t)
    requires Statement(db, t).Continue?
    ensures Statement(db, t).txn.op == t.op && AuthorizeOk(db, Statement(db, t).txn)
  {
    match t.pc
    case Start =>
    case LockCustomer =>
    case ReadAccounts =>
    case ReadDebits =>
    case ReadCredits(_) =>
    case Ready(_) =>
  }

  lemma CaptureKeeps(db: Db, t: Txn)
    requires t.op.Capture? && CaptureOk(db, t) && Holds(db, t)
    requires Statement(db, t).Continue?
    ensures Statement(db, t).txn.op == t.op && CaptureOk(db, Statement(db, t).txn)
  {
    match t.pc
    case Start =>
    case LockCustomer =>
    case ReadAccounts =>
    case ReadDebits =>
    case ReadCredits(_) =>
    case EnsureKey(_, _) => PostingKeeps(db, t);
    case PostJournal => PostingKeeps(db, t);
    case InsertRefund =>
    case Ready(_) =>
  }

  lemma RefundKeeps(db: Db, t: Txn)
    requires t.op.Refund? && RefundOk(db, t) && Holds(db, t)
    requires Statement(db, t).Continue?
    ensures Statement(db, t).txn.op == t.op && RefundOk(db, Statement(db, t).txn)
  {
    match t.pc
    case Start =>
    case ReadCustomer =>
    case Ready(_) =>
    case _ => PostingKeeps(db, t);
  }

  lemma CancelKeeps(db: Db, t: Txn)
    requires t.op.Cancel? && CancelOk(db, t) && Holds(db, t)
    requires Statement(db, t).Continue?
    ensures Statement(db, t).txn.op == t.op && CancelOk(db, Statement(db, t).txn)
  {
    match t.pc
    case Start =>
    case Ready(_) =>
  }

  lemma HeldStatementKeeps(db: Db, t: Txn)
    requires TxnOk(db, t) && Holds(db, t)
    requires Statement(db, t).Continue?
    ensures TxnOk(db, Statement(db, t).txn)
  {
    match t.op
    case Fund(_, _, _, _, _) => FundKeeps(db, t);
    case Create(_, _, _, _, _) => CreateKeeps(db, t);
    case Authorize(_, _) => AuthorizeKeeps(db, t);
    case Capture(_, _, _) => CaptureKeeps(db, t);
    case Cancel(_, _) => CancelKeeps(db, t);
    case Refund(_, _, _, _, _) => RefundKeeps(db, t);
  }

  /** Taking the lock its statement wants and executing the statement keeps a transaction's invariant. */
  lemma StatementKeeps(db: Db, t: Txn)
    requires TxnOk(db, t)
    requires Statement(db, Locked(db, t)).Continue?
    ensures TxnOk(db, Statement(db, Locked(db, t)).txn)
  {
    LockKeeps(db, t);
    HeldStatementKeeps(db, Locked(db, t));
  }

  // ---------------------------------------------------------------- another's commit keeps it

  /** Everything in a write set lies under locks its transaction holds. A CREDIT to a customer's cash
      needs the customer row; a DEBIT to it does not. */
  ghost predicate Covered(w: Writes, excl: set<Resource>)
  {
    && (forall p :: p in w.payments ==> PaymentRow(p) in excl)
    && (forall k :: k in w.idem ==> IdemRow(k) in excl)
    && (forall k :: k in w.keys ==> KeyRow(k) in excl)
    && (forall j :: j in w.journals ==> JournalRow(j) in excl)
    && (forall r :: r in w.refunds ==> RefundId(r) in excl)
    && (w.notice.Some? ==> PaymentRow(w.notice.value.aggregate) in excl)
    && (forall e :: e in w.entries && e.direction == Credit && e.key.name == CustomerCash
          ==> CustomerRow(e.key.owner) in excl)
  }

  lemma FundCovered(db: Db, t: Txn)
    requires t.op.Fund? && FundOk(db, t) && t.pc.Ready?
    ensures Covered(Buffer(t), t.excl)
  {
  }

  lemma CaptureCovered(db: Db, t: Txn)
    requires t.op.Capture? && CaptureOk(db, t) && t.pc.Ready?
    ensures Covered(Buffer(t), t.excl)
  {
  }

  lemma RefundCovered(db: Db, t: Txn)
    requires t.op.Refund? && RefundOk(db, t) && t.pc.Ready?
    ensures Covered(Buffer(t), t.excl)
  {
  }

  lemma ReadyIsCovered(db: Db, t: Txn)
    requires TxnOk(db, t) && t.pc.Ready?
    ensures Covered(Buffer(t), t.excl)
  {
    match t.op
    case Create(_, _, _, _, _) =>
    case Authorize(_, _) =>
    case Cancel(_, _) =>
    case Fund(_, _, _, _, _) => FundCovered(db, t);
    case Capture(_, _, _) => CaptureCovered(db, t);
    case Refund(_, _, _, _, _) => RefundCovered(db, t);
  }

  /** No resource is held by one and also held, in a conflicting mode, by the other. */
  predicate Apart(t: Txn, u: Txn)
  {
    t.excl !! u.excl && t.excl !! u.shared && t.shared !! u.excl
  }

  lemma {:induction false} NoWeight(entries: seq<Entry>, m: Measure)
    requires forall e :: e in entries ==> Weight(m, e) == 0
    ensures Sum(entries, m) == 0
  {
    if |entries| == 0 {
    } else {
      assert forall e :: e in entries[..|entries| - 1] ==> e in entries;
      NoWeight(entries[..|entries| - 1], m);
    }
  }

  /** Whoever holds a customer row keeps reading the same credits, and debits that only grow. */
  lemma CreditsFrozen(db: Db, excl: set<Resource>, w: Writes, held: set<Resource>, customer: nat, currency: Currency)
    requires Covered(w, excl) && excl !! held && CustomerRow(customer) in held
    ensures var key, after := CashKey(customer, currency), Apply(db, w).ledger.entries;
      && Sum(after, KeySide(key, Credit)) == Sum(db.ledger.entries, KeySide(key, Credit))
      && Sum(after, KeySide(key, Debit)) >= Sum(db.ledger.entries, KeySide(key, Debit))
  {
    var key := CashKey(customer, currency);
    SumAppend(db.ledger.entries, w.entries, KeySide(key, Credit));
    SumAppend(db.ledger.entries, w.entries, KeySide(key, Debit));
    SumNonNegative(w.entries, KeySide(key, Debit));
    NoWeight(w.entries, KeySide(key, Credit));
  }

  lemma PostingStays(db: Db, t: Txn, w: Writes, excl: set<Resource>)
    requires Posting(db, t) && Covered(w, excl) && excl !! t.excl
    ensures Posting(Apply(db, w), t)
  {
  }

  lemma CoversStays(db: Db, t: Txn, w: Writes, excl: set<Resource>)
    requires t.loaded.PaymentRead? && Covered(w, excl) && excl !! t.excl
    ensures ReadingBalance(db, t) ==> ReadingBalance(Apply(db, w), t)
    ensures Covers(db, t) ==> Covers(Apply(db, w), t)
  {
    if CustomerRow(t.loaded.payment.customer) in t.excl {
      CreditsFrozen(db, excl, w, t.excl, t.loaded.payment.customer, t.loaded.payment.currency);
    }
  }

  lemma CreateStays(db: Db, t: Txn, w: Writes, excl: set<Resource>)
    requires t.op.Create? && CreateOk(db, t) && Covered(w, excl) && excl !! t.excl
    ensures CreateOk(Apply(db, w), t)
  {
  }

  lemma HeldStays(db: Db, t: Txn, w: Writes, excl: set<Resource>)
    requires !t.op.Fund? && !t.op.Create? && PaymentHeld(db, t) && Covered(w, excl) && excl !! t.excl
    ensures PaymentHeld(Apply(db, w), t)
  {
  }

  /** A commit whose write set lies under locks apart from those of `t` keeps the invariant of `t`. */
  lemma OthersKeep(db: Db, t: Txn, w: Writes, excl: set<Resource>)
    requires TxnOk(db, t) && Covered(w, excl) && excl !! t.excl
    ensures TxnOk(Apply(db, w), t)
  {
    if Posting(db, t) { PostingStays(db, t, w, excl); }
    if t.op.Create? { CreateStays(db, t, w, excl); }
    else if !t.op.Fund? && PaymentHeld(db, t) {
      HeldStays(db, t, w, excl);
      CoversStays(db, t, w, excl);
    }
  }

  // ---------------------------------------------------------------- a commit is the operation run alone

  lemma SameKeys(db: Db, w: Writes, keys: set<LedgerKey>)
    requires db.keys + w.keys == db.keys + keys
    ensures Apply(db, w) == Apply(db, w.(keys := keys))
  {
  }

  lemma FundIsSerial(db: Db, t: Txn)
    requires t.op.Fund? && FundOk(db, t) && t.pc == Ready(Proceed)
    ensures Serial(db, t.op) == Reply(OutcomeOf(t), Apply(db, Buffer(t)))
  {
    SameKeys(db, Buffer(t), {CashOf(t), OtherOf(t)});
    assert Buffer(t).(keys := {CashOf(t), OtherOf(t)})
        == WithKeys(FundWrites(t.op, t.loaded.account), t.op, t.loaded.account.customer, t.loaded.account.currency);
  }

  lemma CaptureDecided(db: Db, t: Txn)
    requires t.op.Capture? && CaptureOk(db, t) && t.pc == Ready(Proceed)
    ensures var row := t.loaded.payment;
      Decide(db, t.op) == Accept(OutcomeOf(t), WithKeys(CaptureWrites(t.op, row), t.op, row.customer, row.currency))
  {
  }

  lemma CaptureIsSerial(db: Db, t: Txn)
    requires t.op.Capture? && CaptureOk(db, t) && t.pc == Ready(Proceed)
    ensures Serial(db, t.op) == Reply(OutcomeOf(t), Apply(db, Buffer(t)))
  {
    assert db.keys + Buffer(t).keys == db.keys + {CashOf(t), OtherOf(t)};
    SameKeys(db, Buffer(t), {CashOf(t), OtherOf(t)});
    CaptureDecided(db, t);
    assert Buffer(t).(keys := {CashOf(t), OtherOf(t)})
        == WithKeys(CaptureWrites(t.op, t.loaded.payment), t.op, t.loaded.payment.customer, t.loaded.payment.currency);
  }

  lemma RefundDecided(db: Db, t: Txn)
    requires t.op.Refund? && RefundOk(db, t) && t.pc == Ready(Proceed)
    ensures var row := t.loaded.payment;
      Decide(db, t.op) == Accept(OutcomeOf(t), WithKeys(RefundWrites(t.op, row), t.op, row.customer, row.currency))
  {
  }

  lemma RefundIsSerial(db: Db, t: Txn)
    requires t.op.Refund? && RefundOk(db, t) && t.pc == Ready(Proceed)
    ensures Serial(db, t.op) == Reply(OutcomeOf(t), Apply(db, Buffer(t)))
  {
    assert db.keys + Buffer(t).keys == db.keys + {CashOf(t), OtherOf(t)};
    SameKeys(db, Buffer(t), {CashOf(t), OtherOf(t)});
    RefundDecided(db, t);
    assert Buffer(t).(keys := {CashOf(t), OtherOf(t)})
        == WithKeys(RefundWrites(t.op, t.loaded.payment), t.op, t.loaded.payment.customer, t.loaded.payment.currency);
  }

  lemma CreateIsSerial(db: Db, t: Txn)
    requires t.op.Create? && CreateOk(db, t) && t.pc.Ready?
    ensures Serial(db, t.op) == Reply(OutcomeOf(t), Apply(db, Buffer(t)))
  {
  }

  /** At its commit, a transaction's outcome and write set are those of the operation run alone on the
      committed database of that moment. Only a persisted refusal belongs to an earlier moment. */
  lemma CommitIsSerial(db: Db, t: Txn)
    requires TxnOk(db, t) && t.pc.Ready? && t.pc.verdict != Insufficient
    ensures Serial(db, t.op) == Reply(OutcomeOf(t), Apply(db, Buffer(t)))
    ensures !OutcomeOf(t).Refused?
  {
    match t.op
    case Fund(_, _, _, _, _) => FundIsSerial(db, t);
    case Create(_, _, _, _, _) => CreateIsSerial(db, t);
    case Authorize(_, _) =>
    case Capture(_, _, _) => CaptureIsSerial(db, t);
    case Cancel(_, _) =>
    case Refund(_, _, _, _, _) => RefundIsSerial(db, t);
  }

  // ---------------------------------------------------------------- the system invariant

  ghost predicate Exclusive(s: Sys)
  {
    forall i, j :: i in s.txns && j in s.txns && i != j ==> Apart(s.txns[i], s.txns[j])
  }

  ghost predicate Isolated(s: Sys)
  {
    Exclusive(s) && forall i :: i in s.txns ==> TxnOk(s.db, s.txns[i])
  }

  lemma LockedApart(s: Sys, id: nat, other: nat)
    requires Exclusive(s) && CanStep(s, id) && other in s.txns && other != id
    ensures Apart(Locked(s.db, s.txns[id]), s.txns[other])
  {
    assert Apart(s.txns[id], s.txns[other]);
    assert !WaitsFor(s, id, other);
  }

  lemma StatementLocks(db: Db, t: Txn)
    requires Statement(db, t).Continue?
    ensures Statement(db, t).txn.excl == t.excl && Statement(db, t).txn.shared == t.shared
  {
  }

  lemma ContinueKeepsIsolated(s: Sys, id: nat, next: Txn)
    requires Isolated(s) && CanStep(s, id) && Statement(s.db, Locked(s.db, s.txns[id])) == Continue(next)
    ensures Isolated(s.(txns := s.txns[id := next]))
  {
    StatementKeeps(s.db, s.txns[id]);
    StatementLocks(s.db, Locked(s.db, s.txns[id]));
    forall other | other in s.txns && other != id
      ensures Apart(next, s.txns[other]) && Apart(s.txns[other], next)
    {
      LockedApart(s, id, other);
    }
  }

  lemma CommitReady(db: Db, t: Txn)
    requires Statement(db, Locked(db, t)).Commit?
    ensures t.pc.Ready? && Locked(db, t) == t
  {
  }

  /** What a commit does to the system. */
  lemma CommitStep(s: Sys, id: nat)
    requires id in s.txns && Statement(s.db, Locked(s.db, s.txns[id])).Commit?
    ensures var t := s.txns[id];
      && t.pc.Ready?
      && Next(s, Exec(id)) == Sys(Apply(s.db, Buffer(t)), s.txns - {id}, s.replies + [Call(id, t.op, OutcomeOf(t))])
  {
    CommitReady(s.db, s.txns[id]);
  }

  lemma OnlyCommitsWrite(s: Sys, step: Step)
    requires Enabled(s, step) && !(step.Exec? && Statement(s.db, Locked(s.db, s.txns[step.id])).Commit?)
    ensures Next(s, step).db == s.db
  {
  }

  lemma CommitKeepsIsolated(s: Sys, id: nat)
    requires Isolated(s) && id in s.txns && s.txns[id].pc.Ready?
    ensures Isolated(Sys(Apply(s.db, Buffer(s.txns[id])), s.txns - {id}, s.replies))
  {
    var t := s.txns[id];
    ReadyIsCovered(s.db, t);
    forall other | other in s.txns && other != id
      ensures TxnOk(Apply(s.db, Buffer(t)), s.txns[other])
    {
      assert Apart(t, s.txns[other]);
      OthersKeep(s.db, s.txns[other], Buffer(t), t.excl);
    }
  }

  lemma StepKeepsIsolated(s: Sys, step: Step)
    requires Isolated(s) && Enabled(s, step)
    ensures Isolated(Next(s, step))
  {
    match step
    case Open(id, op) =>
    case Rollback(id) =>
    case Exec(id) =>
      match Statement(s.db, Locked(s.db, s.txns[id]))
      case Continue(next) => ContinueKeepsIsolated(s, id, next);
      case Abort(_) =>
      case Commit =>
        CommitReady(s.db, s.txns[id]);
        CommitKeepsIsolated(s, id);
  }

  /** In every reachable state the locks separate the transactions and each one's invariant holds. */
  lemma {:induction false} RunsAreIsolated(init: Db, states: seq<Sys>, steps: seq<Step>)
    requires Reaches(init, states, steps)
    ensures Isolated(states[|steps|])
    decreases |steps|
  {
    if |steps| == 0 {
    } else {
      var n := |steps| - 1;
      RunsAreIsolated(init, states[..n + 1], steps[..n]);
      StepKeepsIsolated(states[n], steps[n]);
    }
  }
}
