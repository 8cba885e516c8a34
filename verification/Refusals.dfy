/** The calls of a run that are refused, and the checks that the database makes when the others commit:
    every refusal is the one the operation would meet alone on some state between its begin and its end, and
    no commit is turned away by the deferred trigger. */
module Refusals {
  import opened Money
  import opened Ledger
  import opened Database
  import opened Transactions
  import opened Isolation
  import opened Serializability
  import opened Invariants
  import opened Safety
  import T = Triggers
  import S = Session

  // ---------------------------------------------------------------- refusals decided by one statement

  /** What the transaction is told is what the operation is told alone. */
  predicate RefusedAlone(db: Db, op: Op, error: Error)
  {
    Serial(db, op).outcome == Refused(error)
  }

  lemma FundRefused(db: Db, t: Txn)
    requires t.op.Fund? && FundOk(db, t) && Holds(db, t) && Statement(db, t).Abort?
    ensures RefusedAlone(db, t.op, Statement(db, t).error)
  {
    match t.pc
    case Start =>
    case CheckAccount =>
    case EnsureKey(_, _) => KeyFound(db, t);
    case PostJournal =>
    case Ready(_) =>
  }

  lemma CreateRefused(db: Db, t: Txn)
    requires t.op.Create? && CreateOk(db, t) && Holds(db, t) && Statement(db, t).Abort?
    ensures RefusedAlone(db, t.op, Statement(db, t).error)
  {
    match t.pc
    case Start =>
    case LockRecord =>
    case CheckRequest =>
    case InsertPayment =>
    case ReferCustomer =>
    case Ready(_) =>
  }

  lemma AuthorizeRefused(db: Db, t: Txn)
    requires t.op.Authorize? && AuthorizeOk(db, t) && Holds(db, t) && Statement(db, t).Abort?
    ensures RefusedAlone(db, t.op, Statement(db, t).error)
  {
    match t.pc
    case Start =>
    case LockCustomer =>
    case ReadAccounts =>
    case ReadDebits =>
    case ReadCredits(_) =>
    case Ready(_) =>
  }

  lemma CaptureRefused(db: Db, t: Txn)
    requires t.op.Capture? && CaptureOk(db, t) && Holds(db, t) && Statement(db, t).Abort? && !t.pc.ReadCredits?
    ensures RefusedAlone(db, t.op, Statement(db, t).error)
  {
    match t.pc
    case Start =>
    case LockCustomer =>
    case ReadAccounts =>
    case ReadDebits =>
    case EnsureKey(_, _) => KeyFound(db, t);
    case PostJournal =>
    case InsertRefund =>
    case Ready(_) =>
  }

  lemma CancelRefused(db: Db, t: Txn)
    requires t.op.Cancel? && CancelOk(db, t) && Holds(db, t) && Statement(db, t).Abort?
    ensures RefusedAlone(db, t.op, Statement(db, t).error)
  {
    match t.pc
    case Start =>
    case Ready(_) =>
  }

  lemma RefundRefused(db: Db, t: Txn)
    requires t.op.Refund? && RefundOk(db, t) && Holds(db, t) && Statement(db, t).Abort?
    ensures RefusedAlone(db, t.op, Statement(db, t).error)
  {
    match t.pc
    case Start =>
    case ReadCustomer =>
    case EnsureKey(_, _) => KeyFound(db, t);
    case InsertRefund =>
    case PostJournal =>
    case Ready(_) =>
  }

  /** A statement that refuses does so as the operation alone would, on the state it sees. Only the last of
      a capture's three balance queries looks back. */
  lemma RefusedNow(db: Db, t: Txn)
    requires TxnOk(db, t) && Holds(db, t) && Statement(db, t).Abort? && !(t.op.Capture? && t.pc.ReadCredits?)
    ensures RefusedAlone(db, t.op, Statement(db, t).error)
  {
    match t.op
    case Fund(_, _, _, _, _) => FundRefused(db, t);
    case Create(_, _, _, _, _) => CreateRefused(db, t);
    case Authorize(_, _) => AuthorizeRefused(db, t);
    case Capture(_, _, _) => CaptureRefused(db, t);
    case Cancel(_, _) => CancelRefused(db, t);
    case Refund(_, _, _, _, _) => RefundRefused(db, t);
  }

  // ---------------------------------------------------------------- a balance read in three queries

  /** The state `then_`, in which a capture summed its debits, as it looks from the committed state `db`. */
  predicate SummedIn(then_: Db, db: Db, t: Txn)
    requires t.op.Capture? && t.loaded.PaymentRead? && t.pc.ReadCredits?
  {
    && Owned(then_, t.op.merchant, t.op.payment) && then_.payments[t.op.payment] == t.loaded.payment
    && t.loaded.payment.customer in then_.customers && CashOf(t) in then_.keys
    && t.pc.debits == Sum(then_.ledger.entries, KeySide(CashOf(t), Debit))
    && Sum(db.ledger.entries, KeySide(CashOf(t), Credit)) == Sum(then_.ledger.entries, KeySide(CashOf(t), Credit))
  }

  lemma RefusedThen(then_: Db, db: Db, t: Txn)
    requires t.op.Capture? && CaptureOk(db, t) && t.pc.ReadCredits? && SummedIn(then_, db, t)
    requires Statement(db, t).Abort?
    ensures RefusedAlone(then_, t.op, Statement(db, t).error)
  {
  }

  predicate Summing(t: Txn) { t.op.Capture? && t.loaded.PaymentRead? && t.pc.ReadCredits? }

  /** A summing capture, open since the `i`-th state, summed its debits there. */
  ghost predicate SummedSince(states: seq<Sys>, i: nat, id: nat)
    requires |states| > 0
  {
    && i < |states| && OpenThroughout(states, i, |states| - 1, id)
    && Summing(states[|states| - 1].txns[id])
      && SummedIn(states[i].db, states[|states| - 1].db, states[|states| - 1].txns[id])
  }

  lemma SumStays(states: seq<Sys>, t: Sys, i: nat, id: nat)
    requires |states| > 0 && SummedSince(states, i, id) && OpenFor(t, id, states[|states| - 1])
    requires t.txns[id] == states[|states| - 1].txns[id]
    requires var key := KeySide(CashOf(t.txns[id]), Credit);
      Sum(t.db.ledger.entries, key) == Sum(states[|states| - 1].db.ledger.entries, key)
    ensures SummedSince(states + [t], i, id)
  {
    var more, n := states + [t], |states| - 1;
    assert OpenThroughout(more, i, n, id) by {
      forall j | i <= j <= n ensures OpenFor(more[j], id, more[i]) { assert OpenFor(states[j], id, states[i]); }
    }
    OpenLonger(more, i, n, id);
  }

  /** The statement that sums the debits. */
  lemma SumStarts(s: Sys, id: nat)
    requires Isolated(s) && CanStep(s, id) && Statement(s.db, Locked(s.db, s.txns[id])).Continue?
    requires Summing(Statement(s.db, Locked(s.db, s.txns[id])).txn)
    ensures var t := Statement(s.db, Locked(s.db, s.txns[id])).txn;
      t.op == s.txns[id].op && SummedIn(s.db, s.db, t)
  {
    LockKeeps(s.db, s.txns[id]);
    StatementOp(s.db, Locked(s.db, s.txns[id]));
  }

  lemma SumBegins(states: seq<Sys>, id: nat, t: Sys)
    requires |states| > 0 && OpenFor(t, id, states[|states| - 1]) && t.db == states[|states| - 1].db
    requires Summing(t.txns[id]) && SummedIn(t.db, t.db, t.txns[id])
    ensures SummedSince(states + [t], |states| - 1, id)
  {
    var more, n := states + [t], |states| - 1;
    assert more[n] == states[n] && more[n + 1] == t;
    assert OpenThroughout(more, n, n, id);
    OpenLonger(more, n, n, id);
  }

  lemma CommitLeavesCredits(db: Db, w: Txn, t: Txn)
    requires TxnOk(db, w) && w.pc.Ready? && TxnOk(db, t) && Summing(t) && Apart(w, t)
    ensures var key := KeySide(CashOf(t), Credit);
      Sum(Apply(db, Buffer(w)).ledger.entries, key) == Sum(db.ledger.entries, key)
  {
    ReadyIsCovered(db, w);
    CreditsFrozen(db, w.excl, Buffer(w), t.excl, t.loaded.payment.customer, t.loaded.payment.currency);
  }

  /** Commits around a summing capture leave the credits of its customer alone. */
  lemma CreditsStay(s: Sys, step: Step, id: nat)
    requires Isolated(s) && Enabled(s, step) && id in s.txns && Summing(s.txns[id]) && step.id != id
    ensures var key := KeySide(CashOf(s.txns[id]), Credit);
      Sum(Next(s, step).db.ledger.entries, key) == Sum(s.db.ledger.entries, key)
  {
    if step.Exec? && Statement(s.db, Locked(s.db, s.txns[step.id])).Commit? {
      CommitStep(s, step.id);
      assert Apart(s.txns[step.id], s.txns[id]);
      CommitLeavesCredits(s.db, s.txns[step.id], s.txns[id]);
    } else {
      OnlyCommitsWrite(s, step);
    }
  }

  lemma OthersUntouched(s: Sys, step: Step, id: nat)
    requires Enabled(s, step) && id in Next(s, step).txns && step.id != id
    ensures id in s.txns && Next(s, step).txns[id] == s.txns[id]
  {
  }

  /** Who is summing after a step was so before it, or starts now. */
  lemma SummingSource(s: Sys, step: Step, id: nat)
    requires Isolated(s) && Enabled(s, step) && id in Next(s, step).txns && Summing(Next(s, step).txns[id])
      && step.id == id
    ensures step.Exec? && id in s.txns && Statement(s.db, Locked(s.db, s.txns[id])) == Continue(Next(s, step).txns[id])
    ensures Next(s, step).db == s.db
  {
  }

  lemma OwnStepSums(states: seq<Sys>, step: Step, id: nat)
    requires |states| > 0 && Isolated(states[|states| - 1]) && Enabled(states[|states| - 1], step) && step.id == id
    requires var t := Next(states[|states| - 1], step); id in t.txns && Summing(t.txns[id])
    ensures SummedSince(states + [Next(states[|states| - 1], step)], |states| - 1, id)
  {
    var s := states[|states| - 1];
    SummingSource(s, step, id);
    SumStarts(s, id);
    SumBegins(states, id, Next(s, step));
  }

  lemma OtherStepKeepsSum(states: seq<Sys>, step: Step, id: nat, i: nat)
    requires |states| > 0 && Isolated(states[|states| - 1]) && Enabled(states[|states| - 1], step) && step.id != id
    requires id in Next(states[|states| - 1], step).txns && SummedSince(states, i, id)
    ensures SummedSince(states + [Next(states[|states| - 1], step)], i, id)
  {
    var s := states[|states| - 1];
    assert OpenFor(s, id, states[i]);
    OthersUntouched(s, step, id);
    CreditsStay(s, step, id);
    SumStays(states, Next(s, step), i, id);
  }

  lemma {:induction false} SummedSomewhere(init: Db, states: seq<Sys>, steps: seq<Step>, id: nat) returns (i: nat)
    requires Reaches(init, states, steps) && id in states[|steps|].txns && Summing(states[|steps|].txns[id])
    ensures SummedSince(states, i, id)
    decreases |steps|
  {
    var n := |steps| - 1;
    var shorter := states[..n + 1];
    RunsAreIsolated(init, shorter, steps[..n]);
    assert states == shorter + [states[n + 1]];
    if steps[n].id == id {
      OwnStepSums(shorter, steps[n], id);
      i := n;
    } else {
      OthersUntouched(states[n], steps[n], id);
      i := SummedSomewhere(init, shorter, steps[..n], id);
      OtherStepKeepsSum(shorter, steps[n], id, i);
    }
  }

  /** Every refusal of a run: the transaction that a statement aborts is told what its operation, run alone,
      would have been told on some state since its begin. */
  lemma EveryAbortIsSerial(init: Db, states: seq<Sys>, steps: seq<Step>, id: nat) returns (i: nat)
    requires Reaches(init, states, steps) && id in states[|steps|].txns
    requires var s := states[|steps|]; Statement(s.db, Locked(s.db, s.txns[id])).Abort?
    ensures i <= |steps| && OpenThroughout(states, i, |steps|, id)
    ensures var s := states[|steps|];
      RefusedAlone(states[i].db, s.txns[id].op, Statement(s.db, Locked(s.db, s.txns[id])).error)
  {
    var s := states[|steps|];
    var t := s.txns[id];
    RunsAreIsolated(init, states, steps);
    LockKeeps(s.db, t);
    if t.op.Capture? && t.pc.ReadCredits? {
      assert Locked(s.db, t) == t;
      i := SummedSomewhere(init, states, steps, id);
      RefusedThen(states[i].db, s.db, t);
    } else {
      i := |steps|;
      RefusedNow(s.db, Locked(s.db, t));
    }
  }

  // ---------------------------------------------------------------- deferred triggers

  /** Whenever a posting is ready to commit, the trigger calls it has queued pass on the committed tables
      together with its own rows, whatever has been committed since it began. */
  lemma CommitPassesTriggers(init: Db, states: seq<Sys>, steps: seq<Step>, id: nat)
    requires Reaches(init, states, steps) && id in states[|steps|].txns
    requires states[|steps|].txns[id].pc.Ready? && Posts(states[|steps|].txns[id].op)
    ensures var s := states[|steps|]; var t := s.txns[id];
      T.AllPass(T.Work(Apply(s.db, Buffer(t)).ledger, S.Postings(t.op, CashOf(t).currency, t.op.at)))
  {
    var s := states[|steps|];
    RunsAreIsolated(init, states, steps);
    ReachableIsLawful(init, states, steps);
    ReadyPasses(s.db, s.txns[id]);
  }

  lemma ReadyPasses(db: Db, t: Txn)
    requires JournalsOk(db) && TxnOk(db, t) && t.pc.Ready? && Posts(t.op)
    ensures T.AllPass(T.Work(Apply(db, Buffer(t)).ledger, S.Postings(t.op, CashOf(t).currency, t.op.at)))
  {
    PostingReady(db, t);
    CommitIsSerial(db, t);
    MovedCurrency(db, t);
    S.PostingPasses(db, t.op, Apply(db, Buffer(t)).ledger, S.Postings(t.op, CashOf(t).currency, t.op.at));
  }

  lemma PostingReady(db: Db, t: Txn)
    requires TxnOk(db, t) && t.pc.Ready? && Posts(t.op)
    ensures t.pc.verdict == Proceed
  {
  }

  lemma MovedCurrency(db: Db, t: Txn)
    requires TxnOk(db, t) && t.pc == Ready(Proceed) && Posts(t.op) && Decide(db, t.op).Accept?
    ensures Moved(db, t.op).1.currency == CashOf(t).currency
  {
  }
}
