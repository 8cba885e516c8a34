/** The money transactions as PostgreSQL interleaves them under READ COMMITTED. Each transaction runs
    statement by statement: every statement sees the committed database, row locks and unfinished
    unique-key inserts make others wait, writes stay in the transaction's own write set until it
    commits, and a rollback at any point discards them
    (services/payment_service/app/service.py, services/payment_service/app/infra/repositories.py). */
module Transactions {
  import opened Money
  import opened Ledger
  import opened Lifecycle
  import opened Database

  /** Rows that can be locked, and unique keys whose uncommitted insert makes a second inserter wait. */
  datatype Resource =
    | IdemRow(key: IdemKey)
    | AccountRow(account: nat)
    | PaymentRow(payment: nat)
    | CustomerRow(customer: nat)
    | KeyRow(ledgerKey: LedgerKey)
    | RefundId(refund: nat)
    | JournalRow(journal: JournalId)

  /** What the transaction has read of its main row. */
  datatype Loaded = Unread | AccountRead(account: Account) | PaymentRead(payment: Payment)

  datatype EnsureStep = SelectKey | InsertKey | ReselectKey

  /** The next statement. */
  datatype Pc =
    | Start                                   // lock the main row, or claim the idempotency key
    | LockRecord                              // the key conflicted: lock the committed record
    | CheckRequest                            // read the customer and the merchant
    | InsertPayment
    | ReferCustomer                           // the new payment's foreign key share-locks its customer
    | CheckAccount                            // read the account's customer
    | LockCustomer
    | ReadAccounts
    | ReadDebits
    | ReadCredits(debits: int)
    | ReadCustomer                            // a refund reads the customer without a lock
    | EnsureKey(second: bool, step: EnsureStep)
    | InsertRefund
    | PostJournal
    | Ready(verdict: Verdict)                 // only the commit is left

  datatype Verdict = Proceed | Insufficient | Answered(view: View)

  /** `inserted` holds the ledger keys inserted so far. */
  datatype Txn = Txn(op: Op, pc: Pc, loaded: Loaded, excl: set<Resource>, shared: set<Resource>,
    inserted: set<LedgerKey>)

  /** `replies` lists the committed calls in the order of their commits. */
  datatype Sys = Sys(db: Db, txns: map<nat, Txn>, replies: seq<Call>)

  // ---------------------------------------------------------------- locks

  datatype Want = Want(resource: Resource, share: bool)

  function CashOf(t: Txn): LedgerKey
  {
    match t.loaded
    case AccountRead(account) => CashKey(account.customer, account.currency)
    case PaymentRead(row) => CashKey(row.customer, row.currency)
    case Unread => CashKey(0, EUR)
  }

  function OtherOf(t: Txn): LedgerKey
  {
    OtherKey(t.op, CashOf(t).currency)
  }

  function EnsuredKey(t: Txn, second: bool): LedgerKey
  {
    if second then OtherOf(t) else CashOf(t)
  }

  /** What the next statement must hold before it can finish. A statement that meets a committed
      row with the same unique key fails or moves on at once, so it wants nothing. */
  function Wants(db: Db, t: Txn): Option<Want>
  {
    match t.pc
    case Start => (
      match t.op
      case Fund(_, account, _, _, _) => if account in db.accounts then Some(Want(AccountRow(account), false)) else None
      case Create(merchant, key, _, _, _) =>
        if IdemKey(merchant, key) in db.idem then None else Some(Want(IdemRow(IdemKey(merchant, key)), false))
      case _ => if Owned(db, t.op.merchant, t.op.payment) then Some(Want(PaymentRow(t.op.payment), false)) else None)
    case LockRecord => if t.op.Create? then Some(Want(IdemRow(IdemKey(t.op.merchant, t.op.key)), false)) else None
    case InsertPayment =>
      if t.op.Create? && t.op.newId !in db.payments then Some(Want(PaymentRow(t.op.newId), false)) else None
    case ReferCustomer => if t.op.Create? then Some(Want(CustomerRow(t.op.request.customer), true)) else None
    case LockCustomer =>
      if t.loaded.PaymentRead? then Some(Want(CustomerRow(t.loaded.payment.customer), false)) else None
    case EnsureKey(second, InsertKey) =>
      if EnsuredKey(t, second) in db.keys then None else Some(Want(KeyRow(EnsuredKey(t, second)), false))
    case InsertRefund =>
      if t.op.Refund? && t.op.newId !in db.refunds then Some(Want(RefundId(t.op.newId), false)) else None
    case PostJournal =>
      if JournalOf(t.op) in db.ledger.journals then None else Some(Want(JournalRow(JournalOf(t.op)), false))
    case _ => None
  }

  predicate Conflicts(want: Want, other: Txn)
  {
    want.resource in other.excl || (!want.share && want.resource in other.shared)
  }

  /** `waiter` cannot finish its statement before `holder` ends. */
  predicate WaitsFor(s: Sys, waiter: nat, holder: nat)
  {
    && waiter in s.txns && holder in s.txns && waiter != holder
    && Wants(s.db, s.txns[waiter]).Some?
    && Conflicts(Wants(s.db, s.txns[waiter]).value, s.txns[holder])
  }

  ghost predicate CanStep(s: Sys, id: nat)
  {
    id in s.txns && !exists holder :: WaitsFor(s, id, holder)
  }

  // ---------------------------------------------------------------- write sets

  /** The uncommitted writes of a transaction whose statements are done, made of what it read and inserted. */
  function Buffer(t: Txn): Writes
  {
    if t.pc.Ready? && t.pc.verdict.Answered? then NO_WRITES
    else match t.op
      case Fund(_, _, _, _, _) =>
        if t.loaded.AccountRead? then FundWrites(t.op, t.loaded.account).(keys := t.inserted) else NO_WRITES
      case Create(_, _, _, _, _) => CreateWrites(t.op)
      case _ => if t.loaded.PaymentRead? then PaymentBuffer(t) else NO_WRITES
  }

  function PaymentBuffer(t: Txn): Writes
    requires t.loaded.PaymentRead? && !t.op.Fund? && !t.op.Create?
  {
    var row := t.loaded.payment;
    match t.op
    case Authorize(_, payment) =>
      if t.pc == Ready(Insufficient) then RefusalWrites(payment, row) else AuthorizeWrites(t.op, row)
    case Capture(_, _, _) => CaptureWrites(t.op, row).(keys := t.inserted)
    case Cancel(_, _) => CancelWrites(t.op, row)
    case Refund(_, _, _, _, _) => RefundWrites(t.op, row).(keys := t.inserted)
  }

  /** What the caller is told once the transaction has committed. */
  function OutcomeOf(t: Txn): Outcome
  {
    if t.pc == Ready(Insufficient) then PersistedRefusal(InsufficientFunds)
    else if t.pc.Ready? && t.pc.verdict.Answered? then Done(t.pc.verdict.view)
    else match (t.op, t.loaded)
      case (Fund(_, _, _, _, _), _) => Funded(JournalOf(t.op))
      case (Create(_, _, _, _, newId), _) => Done(ViewOf(newId, NewPayment(t.op)))
      case (Authorize(_, payment), PaymentRead(row)) => Done(ViewOf(payment, AuthorizedRow(row)))
      case (Capture(_, payment, _), PaymentRead(row)) => Done(ViewOf(payment, CapturedRow(row)))
      case (Cancel(_, payment), PaymentRead(row)) => Done(ViewOf(payment, CancelledRow(row)))
      case (Refund(_, payment, amount, _, _), PaymentRead(row)) => Done(ViewOf(payment, RefundedRow(row, amount)))
      case _ => Refused(PaymentNotFound)
  }

  // ---------------------------------------------------------------- statements

  datatype Effect = Continue(txn: Txn) | Abort(error: Error) | Commit

  /** The transaction once it holds what its statement wanted. */
  function Locked(db: Db, t: Txn): Txn
  {
    match Wants(db, t)
    case None => t
    case Some(want) =>
      if want.share then t.(shared := t.shared + {want.resource}) else t.(excl := t.excl + {want.resource})
  }

  function Goto(t: Txn, pc: Pc): Effect
  {
    Continue(t.(pc := pc))
  }

  function Begin(op: Op): Txn
  {
    Txn(op, Start, Unread, {}, {}, {})
  }

  /** `SELECT ... FOR UPDATE` of the payment, then the checks each operation makes on the row. */
  function StartPayment(db: Db, t: Txn): Effect
    requires !t.op.Fund? && !t.op.Create?
  {
    if !Owned(db, t.op.merchant, t.op.payment) then Abort(PaymentNotFound)
    else
      var row := db.payments[t.op.payment];
      var held := t.(loaded := PaymentRead(row));
      match t.op
      case Authorize(_, _) => if Transition(row.status, Authorized) then Goto(held, LockCustomer)
        else Abort(IllegalTransition)
      case Capture(_, _, _) => if Transition(row.status, Captured) then Goto(held, LockCustomer)
        else Abort(IllegalTransition)
      case Cancel(_, _) => if Transition(row.status, Cancelled) then Goto(held, Ready(Proceed))
        else Abort(IllegalTransition)
      case Refund(_, _, amount, _, _) =>
        if row.status !in {Captured, PartiallyRefunded} then Abort(NotRefundable)
        else if amount > row.captured - row.refunded then Abort(RefundExceedsCapture)
        else Goto(held, ReadCustomer)
  }

  function StartAny(db: Db, t: Txn): Effect
  {
    match t.op
    case Fund(_, account, _, _, _) =>
      if account !in db.accounts then Abort(AccountNotFound)
      else Goto(t.(loaded := AccountRead(db.accounts[account])), CheckAccount)
    case Create(merchant, key, _, _, _) =>
      if IdemKey(merchant, key) in db.idem then Goto(t, LockRecord) else Goto(t, CheckRequest)
    case _ => StartPayment(db, t)
  }

  function CreateStatement(db: Db, t: Txn): Effect
    requires t.op.Create?
  {
    match t.pc
    case LockRecord =>
      var key := IdemKey(t.op.merchant, t.op.key);
      if key !in db.idem then Abort(IdempotencyRaced)
      else if db.idem[key].fingerprint != t.op.request then Abort(IdempotencyConflict)
      else if db.idem[key].response.Some? then Goto(t, Ready(Answered(db.idem[key].response.value)))
      else Goto(t, CheckRequest)
    case CheckRequest =>
      if t.op.request.customer !in db.customers || db.customers[t.op.request.customer] != t.op.merchant then
        Abort(CustomerNotFound)
      else if t.op.merchant !in db.merchants then Abort(MerchantNotFound)
      else Goto(t, InsertPayment)
    case InsertPayment => if t.op.newId in db.payments then Abort(IntegrityViolated) else Goto(t, ReferCustomer)
    case _ => Goto(t, Ready(Proceed))
  }

  /** The balance was read: the three-statement reading decides. */
  function Settle(t: Txn, balance: int): Effect
    requires t.loaded.PaymentRead?
  {
    if balance >= t.loaded.payment.amount then
      Goto(t, if t.op.Authorize? then Ready(Proceed) else EnsureKey(false, SelectKey))
    else if t.op.Authorize? then Goto(t, Ready(Insufficient))
    else Abort(InsufficientFunds)
  }

  function BalanceStatement(db: Db, t: Txn): Effect
    requires t.loaded.PaymentRead?
  {
    match t.pc
    case LockCustomer =>
      if t.loaded.payment.customer !in db.customers then Abort(CustomerNotFound) else Goto(t, ReadAccounts)
    case ReadAccounts => if CashOf(t) in db.keys then Goto(t, ReadDebits) else Settle(t, 0)
    case ReadDebits => Goto(t, ReadCredits(Sum(db.ledger.entries, KeySide(CashOf(t), Debit))))
    case ReadCredits(debits) => Settle(t, debits - Sum(db.ledger.entries, KeySide(CashOf(t), Credit)))
    case _ => Abort(CustomerNotFound)
  }

  /** `ensure_ledger_account`: select, insert on conflict do nothing, select again. */
  function EnsureStatement(db: Db, t: Txn): Effect
    requires t.pc.EnsureKey?
  {
    var key, second := EnsuredKey(t, t.pc.second), t.pc.second;
    var next := if !second then EnsureKey(true, SelectKey) else if t.op.Refund? then InsertRefund else PostJournal;
    match t.pc.step
    case SelectKey => if key in db.keys then Goto(t, next) else Goto(t, EnsureKey(second, InsertKey))
    case InsertKey =>
      if key in db.keys then Goto(t, EnsureKey(second, ReselectKey))
      else Goto(t.(inserted := t.inserted + {key}), next)
    case ReselectKey => if key in db.keys then Goto(t, next) else Abort(LedgerUpsertFailed)
  }

  function PostStatement(db: Db, t: Txn): Effect
  {
    if JournalOf(t.op) in db.ledger.journals then Abort(if t.op.Capture? then AlreadyCaptured else IntegrityViolated)
    else Goto(t, Ready(Proceed))
  }

  /** One statement of `t`, which already holds what the statement wanted. A transaction whose `pc`
      does not belong to its operation never arises in a run. */
  function Statement(db: Db, t: Txn): Effect
  {
    match t.pc
    case Start => StartAny(db, t)
    case Ready(_) => Commit
    case CheckAccount =>
      if !t.loaded.AccountRead? || !t.op.Fund? then Abort(AccountNotFound)
      else if t.loaded.account.customer !in db.customers
        || db.customers[t.loaded.account.customer] != t.op.merchant then
        Abort(AccountNotFound)
      else if t.loaded.account.currency != t.op.currency then Abort(CurrencyMismatch)
      else Goto(t, EnsureKey(false, SelectKey))
    case ReadCustomer =>
      if t.loaded.PaymentRead? && t.loaded.payment.customer in db.customers then Goto(t, EnsureKey(false, SelectKey))
      else Abort(CustomerNotFound)
    case EnsureKey(_, _) => EnsureStatement(db, t)
    case InsertRefund => if t.op.Refund? && t.op.newId !in db.refunds then Goto(t, PostJournal)
      else Abort(IntegrityViolated)
    case PostJournal => PostStatement(db, t)
    case LockCustomer | ReadAccounts | ReadDebits | ReadCredits(_) =>
      if t.loaded.PaymentRead? then BalanceStatement(db, t) else Abort(PaymentNotFound)
    case LockRecord | CheckRequest | InsertPayment | ReferCustomer =>
      if t.op.Create? then CreateStatement(db, t) else Abort(PaymentNotFound)
  }

  // ---------------------------------------------------------------- runs

  datatype Step = Open(id: nat, op: Op) | Exec(id: nat) | Rollback(id: nat)

  ghost predicate Enabled(s: Sys, step: Step)
  {
    match step
    case Open(id, _) => id !in s.txns
    case Exec(id) => CanStep(s, id)
    case Rollback(id) => id in s.txns
  }

  function Next(s: Sys, step: Step): Sys
    requires step.Open? || step.id in s.txns
  {
    match step
    case Open(id, op) => s.(txns := s.txns[id := Begin(op)])
    case Rollback(id) => s.(txns := s.txns - {id})
    case Exec(id) =>
      var t := Locked(s.db, s.txns[id]);
      match Statement(s.db, t)
      case Continue(next) => s.(txns := s.txns[id := next])
      case Abort(_) => s.(txns := s.txns - {id})
      case Commit => Sys(Apply(s.db, Buffer(t)), s.txns - {id}, s.replies + [Call(id, t.op, OutcomeOf(t))])
  }

  /** A run: each state follows from the one before by one enabled step. */
  ghost predicate IsRun(states: seq<Sys>, steps: seq<Step>)
  {
    && |states| == |steps| + 1
    && forall i :: 0 <= i < |steps| ==> Enabled(states[i], steps[i]) && states[i + 1] == Next(states[i], steps[i])
  }

  ghost predicate Reaches(init: Db, states: seq<Sys>, steps: seq<Step>)
  {
    && Fresh(init) && IsRun(states, steps) && states[0] == Sys(init, map[], [])
  }
}
