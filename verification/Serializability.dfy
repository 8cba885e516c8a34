/** Every interleaved run of the money transactions leaves the database that some serial history of
    the same calls leaves, with the same replies. Captures, successful authorizations and all other
    calls stand in the order of their commits; a failed authorization, which commits a refusal it
    decided earlier, stands where it read the balance. */
module Serializability {
  import opened Money
  import opened Ledger
  import opened Lifecycle
  import opened Database
  import opened Transactions
  import opened Isolation

  // ---------------------------------------------------------------- moving a refusal back in time

  predicate Targets(op: Op, payment: nat)
  {
    !op.Fund? && !op.Create? && op.payment == payment
  }

  /** The database in which the authorization of `payment` has been refused. */
  function Refuse(db: Db, payment: nat): Db
    requires payment in db.payments
  {
    Apply(db, RefusalWrites(payment, db.payments[payment]))
  }

  /** What a refusal leaves alone. */
  lemma RefusalTouches(db: Db, payment: nat)
    requires payment in db.payments
    ensures var after := Refuse(db, payment);
      && after == db.(payments := db.payments[payment := db.payments[payment].(status := Failed)],
        outbox := after.outbox)
  {
    assert db.ledger.entries + [] == db.ledger.entries;
    var after := Refuse(db, payment);
    assert after.ledger == db.ledger && after.idem == db.idem && after.refunds == db.refunds;
    assert after.payments == db.payments[payment := db.payments[payment].(status := Failed)];
  }

  lemma NoticesCommute(outbox: map<nat, seq<Event>>, a: Notice, b: Option<Notice>)
    requires b.Some? ==> b.value.aggregate != a.aggregate
    ensures Noted(Noted(outbox, Some(a)), b) == Noted(Noted(outbox, b), Some(a))
  {
  }

  /** Two commits that touch different payments, one of them a refusal, can change places. */
  lemma CommitsCommute(db: Db, payment: nat, w: Writes)
    requires payment in db.payments && payment !in w.payments
    requires w.notice.Some? ==> w.notice.value.aggregate != payment
    ensures payment in Apply(db, w).payments && Apply(db, w).payments[payment] == db.payments[payment]
    ensures Apply(Refuse(db, payment), w) == Refuse(Apply(db, w), payment)
  {
    var a, b := Apply(Refuse(db, payment), w), Refuse(Apply(db, w), payment);
    RefusalTouches(db, payment);
    RefusalTouches(Apply(db, w), payment);
    NoticesCommute(db.outbox, RefusalWrites(payment, db.payments[payment]).notice.value, w.notice);
    assert a.payments == b.payments;
  }

  /** The refusal of `payment` changes no decision on anything else. */
  lemma DecisionUnmoved(db: Db, op: Op, payment: nat)
    requires payment in db.payments && !Targets(op, payment)
    ensures Decide(Refuse(db, payment), op) == Decide(db, op)
  {
    RefusalTouches(db, payment);
  }

  /** No decision on anything else writes to `payment`. */
  lemma DecisionElsewhere(db: Db, op: Op, payment: nat)
    requires payment in db.payments && !Targets(op, payment) && Decide(db, op).Accept?
    ensures var w := Decide(db, op).writes;
      payment !in w.payments && (w.notice.Some? ==> w.notice.value.aggregate != payment)
  {
  }

  /** A refusal and a call on another payment can change places. */
  lemma RefusalCommutes(db: Db, op: Op, payment: nat)
    requires payment in db.payments && !Targets(op, payment)
    ensures payment in Serial(db, op).db.payments && Serial(db, op).db.payments[payment] == db.payments[payment]
    ensures Serial(Refuse(db, payment), op) == Reply(Serial(db, op).outcome, Refuse(Serial(db, op).db, payment))
  {
    DecisionUnmoved(db, op, payment);
    if Decide(db, op).Accept? {
      DecisionElsewhere(db, op, payment);
      CommitsCommute(db, payment, Decide(db, op).writes);
    }
  }

  predicate Untargeted(calls: seq<Call>, payment: nat)
  {
    forall i :: 0 <= i < |calls| ==> !Targets(calls[i].op, payment)
  }

  /** A refusal can be moved before any number of calls on other payments. */
  lemma {:induction false} RefusalMovesBack(db: Db, calls: seq<Call>, payment: nat)
    requires payment in db.payments && Untargeted(calls, payment) && Faithful(db, calls)
    ensures payment in Replay(db, calls).payments && Replay(db, calls).payments[payment] == db.payments[payment]
    ensures Faithful(Refuse(db, payment), calls)
    ensures Replay(Refuse(db, payment), calls) == Refuse(Replay(db, calls), payment)
    decreases |calls|
  {
    if |calls| == 0 {
    } else {
      var front, last := calls[..|calls| - 1], calls[|calls| - 1];
      RefusalMovesBack(db, front, payment);
      RefusalCommutes(Replay(db, front), last.op, payment);
    }
  }

  // ---------------------------------------------------------------- the serial history of a run

  /** The calls that are not persisted refusals. */
  function Settled(calls: seq<Call>): seq<Call>
  {
    if |calls| == 0 then []
    else
      var rest := Settled(calls[..|calls| - 1]);
      if calls[|calls| - 1].outcome.PersistedRefusal? then rest else rest + [calls[|calls| - 1]]
  }

  lemma {:induction false} SettledAppend(a: seq<Call>, b: seq<Call>)
    ensures Settled(a + b) == Settled(a) + Settled(b)
    decreases |b|
  {
    if |b| == 0 {
      assert a + b == a;
    } else {
      assert (a + b)[..|a + b| - 1] == a + b[..|b| - 1];
      SettledAppend(a, b[..|b| - 1]);
    }
  }

  lemma SettledOne(call: Call)
    ensures Settled([call]) == if call.outcome.PersistedRefusal? then [] else [call]
  {
    assert [call][..0] == [];
  }

  /** The serial history explains the committed database and every reply, each exactly once, and keeps
      the commit order of all calls but the persisted refusals. */
  ghost predicate Explains(init: Db, s: Sys, history: seq<Call>)
  {
    && Faithful(init, history) && Replay(init, history) == s.db
    && multiset(history) == multiset(s.replies)
    && Settled(history) == Settled(s.replies)
  }

  /** An authorization that has read, or is about to complete, a balance that will refuse it. */
  predicate Deciding(t: Txn)
  {
    t.op.Authorize? && t.loaded.PaymentRead? && (t.pc.ReadCredits? || t.pc == Ready(Insufficient))
  }

  /** The state `then_`, in which an authorization read its debits, as it looks from the committed
      state `db`. Once the credits are read too, the balance of that state is what refuses it. */
  predicate ReadIn(then_: Db, db: Db, t: Txn)
    requires t.op.Authorize? && t.loaded.PaymentRead?
  {
    var row := t.loaded.payment;
    && Owned(then_, t.op.merchant, t.op.payment) && then_.payments[t.op.payment] == row
      && row.customer in then_.customers
    && match t.pc
       case ReadCredits(debits) =>
         && CashOf(t) in then_.keys
         && debits == Sum(then_.ledger.entries, KeySide(CashOf(t), Debit))
         && Sum(db.ledger.entries, KeySide(CashOf(t), Credit)) == Sum(then_.ledger.entries, KeySide(CashOf(t), Credit))
       case _ => AvailableBalance(then_, row.customer, row.currency) < row.amount
  }

  /** The first calls of the history are the answered calls that a reading saw, in their order, and besides them
      only refusals answered later. */
  predicate Stands(seen: seq<Call>, prefix: seq<Call>)
  {
    multiset(seen) <= multiset(prefix) && Settled(prefix) == Settled(seen)
  }

  /** That state is the one after the first `k` calls, where the calls answered by then stand, and nobody has
      touched the payment since. */
  predicate ReadAt(init: Db, history: seq<Call>, k: nat, db: Db, t: Txn, seen: seq<Call>)
    requires t.op.Authorize? && t.loaded.PaymentRead?
  {
    && k <= |history| && ReadIn(Replay(init, history[..k]), db, t) && Untargeted(history[k..], t.op.payment)
    && Stands(seen, history[..k])
  }

  ghost predicate Placed(init: Db, history: seq<Call>, db: Db, t: Txn, seen: seq<Call>)
  {
    Deciding(t) ==> exists k :: ReadAt(init, history, k, db, t, seen)
  }

  /** A committed refusal, and the calls that had been answered when it read the balance. */
  datatype Answer = Answer(call: Call, seen: seq<Call>)

  ghost predicate SitedAt(history: seq<Call>, q: nat, answers: set<Answer>)
    requires q < |history|
  {
    exists seen :: Answer(history[q], seen) in answers && Stands(seen, history[..q])
  }

  /** Each refusal of the history stands where it read. */
  ghost predicate Sited(history: seq<Call>, answers: set<Answer>)
  {
    forall q :: 0 <= q < |history| && history[q].outcome.PersistedRefusal? ==> SitedAt(history, q, answers)
  }

  /** `marks` holds, for each transaction that is deciding, the calls answered when it read. */
  datatype Trace = Trace(history: seq<Call>, marks: map<nat, seq<Call>>, answers: set<Answer>)

  ghost predicate Marked(init: Db, s: Sys, trace: Trace, id: nat)
    requires id in s.txns
  {
    Deciding(s.txns[id]) ==> id in trace.marks && Placed(init, trace.history, s.db, s.txns[id], trace.marks[id])
  }

  ghost predicate Traced(init: Db, s: Sys, trace: Trace)
  {
    && Explains(init, s, trace.history) && Sited(trace.history, trace.answers)
    && forall id :: id in s.txns ==> Marked(init, s, trace, id)
  }

  // ---------------------------------------------------------------- statements

  /** A transaction that starts deciding does so in the state that is committed now. */
  lemma StatementPlaces(init: Db, s: Sys, history: seq<Call>, t: Txn, seen: seq<Call>)
    requires Explains(init, s, history) && TxnOk(s.db, t) && Holds(s.db, t) && Placed(init, history, s.db, t, seen)
    requires Statement(s.db, t).Continue?
    ensures Placed(init, history, s.db, Statement(s.db, t).txn, if Deciding(t) then seen else s.replies)
  {
    if Deciding(Statement(s.db, t).txn) {
      StatementOp(s.db, t);
      if t.pc.ReadCredits? { CreditsPlaced(init, s, history, t, seen); } else { ReadingPlaced(init, s, history, t); }
    }
  }

  lemma StatementOp(db: Db, t: Txn)
    requires Statement(db, t).Continue?
    ensures Statement(db, t).txn.op == t.op
  {
  }

  lemma ReadingPlaced(init: Db, s: Sys, history: seq<Call>, t: Txn)
    requires Explains(init, s, history) && t.op.Authorize? && AuthorizeOk(s.db, t) && !t.pc.ReadCredits?
      && Holds(s.db, t)
    requires Statement(s.db, t).Continue? && Deciding(Statement(s.db, t).txn)
    ensures !Deciding(t) && Placed(init, history, s.db, Statement(s.db, t).txn, s.replies)
  {
    assert history[..|history|] == history && history[|history|..] == [];
    assert t.pc.ReadAccounts? || t.pc.ReadDebits?;
    assert ReadIn(s.db, s.db, Statement(s.db, t).txn);
    assert ReadAt(init, history, |history|, s.db, Statement(s.db, t).txn, s.replies);
  }

  lemma CreditsPlaced(init: Db, s: Sys, history: seq<Call>, t: Txn, seen: seq<Call>)
    requires t.op.Authorize? && AuthorizeOk(s.db, t) && t.pc.ReadCredits? && Placed(init, history, s.db, t, seen)
    requires Statement(s.db, t).Continue? && Deciding(Statement(s.db, t).txn)
    ensures Deciding(t) && Placed(init, history, s.db, Statement(s.db, t).txn, seen)
  {
    var next := Statement(s.db, t).txn;
    var k: nat :| ReadAt(init, history, k, s.db, t, seen);
    assert ReadIn(Replay(init, history[..k]), s.db, next);
    assert ReadAt(init, history, k, s.db, next, seen);
  }

  lemma LockPlaces(init: Db, history: seq<Call>, db: Db, t: Txn, seen: seq<Call>)
    requires Placed(init, history, db, t, seen)
    ensures Placed(init, history, db, Locked(db, t), seen) && Deciding(Locked(db, t)) == Deciding(t)
  {
    if Deciding(t) {
      assert Locked(db, t) == t;
    }
  }

  function Seen(s: Sys, trace: Trace, id: nat): seq<Call>
    requires id in s.txns
  {
    if Deciding(s.txns[id]) && id in trace.marks then trace.marks[id] else s.replies
  }

  /** The calls answered when the transaction read are noted when it starts deciding. */
  function Noting(s: Sys, trace: Trace, id: nat): Trace
    requires id in s.txns
  {
    trace.(marks := trace.marks[id := Seen(s, trace, id)])
  }

  lemma ContinueTraces(init: Db, s: Sys, trace: Trace, id: nat, next: Txn)
    requires Isolated(s) && Traced(init, s, trace) && id in s.txns
    requires Statement(s.db, Locked(s.db, s.txns[id])) == Continue(next)
    ensures Traced(init, s.(txns := s.txns[id := next]), Noting(s, trace, id))
  {
    var seen := Seen(s, trace, id);
    assert Marked(init, s, trace, id);
    LockKeeps(s.db, s.txns[id]);
    LockPlaces(init, trace.history, s.db, s.txns[id], seen);
    StatementPlaces(init, s, trace.history, Locked(s.db, s.txns[id]), seen);
    var t, more := s.(txns := s.txns[id := next]), Noting(s, trace, id);
    forall other | other in t.txns ensures Marked(init, t, more, other)
    {
      if other != id { assert Marked(init, s, trace, other); }
    }
  }

  // ---------------------------------------------------------------- commits in commit order

  /** Whose payment row a committing transaction holds. */
  lemma HoldsItsPayment(db: Db, t: Txn, payment: nat)
    requires TxnOk(db, t) && t.pc.Ready? && Targets(t.op, payment)
    ensures PaymentRow(payment) in t.excl
  {
  }

  /** A commit at the end of the history leaves other authorizations where they read. */
  lemma AppendPlaces(init: Db, history: seq<Call>, call: Call, db: Db, after: Db, t: Txn, seen: seq<Call>)
    requires Placed(init, history, db, t, seen)
    requires Deciding(t) ==> !Targets(call.op, t.op.payment)
    requires Deciding(t) ==>
      Sum(after.ledger.entries, KeySide(CashOf(t), Credit)) == Sum(db.ledger.entries, KeySide(CashOf(t), Credit))
    ensures Placed(init, history + [call], after, t, seen)
  {
    if Deciding(t) {
      var k: nat :| ReadAt(init, history, k, db, t, seen);
      assert (history + [call])[..k] == history[..k];
      assert (history + [call])[k..] == history[k..] + [call];
      assert ReadAt(init, history + [call], k, after, t, seen);
    }
  }

  lemma AppendExplains(init: Db, s: Sys, history: seq<Call>, call: Call, after: Db)
    requires Explains(init, s, history) && !call.outcome.Refused? && !call.outcome.PersistedRefusal?
    requires Serial(s.db, call.op) == Reply(call.outcome, after)
    ensures Explains(init, s.(db := after, replies := s.replies + [call]), history + [call])
  {
    ReplayOne(s.db, call);
    ReplayAppend(init, history, [call]);
    SettledAppend(history, [call]);
    SettledAppend(s.replies, [call]);
    SettledOne(call);
  }

  lemma CommitExplains(init: Db, s: Sys, history: seq<Call>, id: nat)
    requires Isolated(s) && Explains(init, s, history) && id in s.txns
    requires s.txns[id].pc.Ready? && s.txns[id].pc.verdict != Insufficient
    ensures var t := s.txns[id]; var call := Call(id, t.op, OutcomeOf(t));
      Explains(init, s.(db := Apply(s.db, Buffer(t)), replies := s.replies + [call]), history + [call])
  {
    var t := s.txns[id];
    CommitIsSerial(s.db, t);
    assert !OutcomeOf(t).PersistedRefusal?;
    AppendExplains(init, s, history, Call(id, t.op, OutcomeOf(t)), Apply(s.db, Buffer(t)));
  }

  lemma SitedAppend(history: seq<Call>, call: Call, answers: set<Answer>)
    requires Sited(history, answers) && !call.outcome.PersistedRefusal?
    ensures Sited(history + [call], answers)
  {
    forall q | 0 <= q < |history + [call]| && (history + [call])[q].outcome.PersistedRefusal?
      ensures SitedAt(history + [call], q, answers)
    {
      assert SitedAt(history, q, answers) && (history + [call])[..q] == history[..q];
    }
  }

  lemma SettledOutcome(db: Db, t: Txn)
    requires TxnOk(db, t) && t.pc.Ready? && t.pc.verdict != Insufficient
    ensures !OutcomeOf(t).PersistedRefusal?
  {
  }

  function Answered(trace: Trace, call: Call): Trace { trace.(history := trace.history + [call]) }

  lemma CommitTraces(init: Db, s: Sys, trace: Trace, id: nat)
    requires Isolated(s) && Traced(init, s, trace) && id in s.txns
    requires s.txns[id].pc.Ready? && s.txns[id].pc.verdict != Insufficient
    ensures var t := s.txns[id]; var call := Call(id, t.op, OutcomeOf(t));
      Traced(init, Sys(Apply(s.db, Buffer(t)), s.txns - {id}, s.replies + [call]), Answered(trace, call))
  {
    var t := s.txns[id];
    var call, after := Call(id, t.op, OutcomeOf(t)), Apply(s.db, Buffer(t));
    CommitExplains(init, s, trace.history, id);
    SettledOutcome(s.db, t);
    SitedAppend(trace.history, call, trace.answers);
    ReadyIsCovered(s.db, t);
    var then_ := Sys(after, s.txns - {id}, s.replies + [call]);
    forall other | other in then_.txns ensures Marked(init, then_, Answered(trace, call), other)
    {
      if Deciding(s.txns[other]) { OtherPlaced(init, s, trace, id, other); }
    }
  }

  lemma OtherPlaced(init: Db, s: Sys, trace: Trace, id: nat, other: nat)
    requires Isolated(s) && Traced(init, s, trace) && id in s.txns && other in s.txns && other != id
    requires s.txns[id].pc.Ready? && Covered(Buffer(s.txns[id]), s.txns[id].excl) && Deciding(s.txns[other])
    ensures var t := s.txns[id];
      && other in trace.marks
      && Placed(init, trace.history + [Call(id, t.op, OutcomeOf(t))], Apply(s.db, Buffer(t)), s.txns[other],
        trace.marks[other])
  {
    var t, u := s.txns[id], s.txns[other];
    assert Apart(t, u) && Marked(init, s, trace, other);
    HeldWhileDeciding(s.db, u);
    CreditsFrozen(s.db, t.excl, Buffer(t), u.excl, u.loaded.payment.customer, u.loaded.payment.currency);
    if Targets(t.op, u.op.payment) { HoldsItsPayment(s.db, t, u.op.payment); }
    AppendPlaces(init, trace.history, Call(id, t.op, OutcomeOf(t)), s.db, Apply(s.db, Buffer(t)), u,
      trace.marks[other]);
  }

  lemma HeldWhileDeciding(db: Db, t: Txn)
    requires TxnOk(db, t) && Deciding(t)
    ensures PaymentRow(t.op.payment) in t.excl && CustomerRow(t.loaded.payment.customer) in t.excl
    ensures t.op.payment in db.payments && db.payments[t.op.payment] == t.loaded.payment
    ensures Transition(t.loaded.payment.status, Authorized)
  {
  }

  // ---------------------------------------------------------------- commits of refusals

  function Inserted(history: seq<Call>, k: nat, call: Call): seq<Call>
    requires k <= |history|
  {
    history[..k] + [call] + history[k..]
  }

  lemma InsertReplays(init: Db, before: seq<Call>, call: Call, since: seq<Call>, payment: nat)
    requires Faithful(init, before + since) && Untargeted(since, payment)
    requires var then_ := Replay(init, before);
      payment in then_.payments && Serial(then_, call.op) == Reply(call.outcome, Refuse(then_, payment))
    requires !call.outcome.Refused?
    ensures payment in Replay(init, before + since).payments
    ensures Faithful(init, before + [call] + since)
    ensures Replay(init, before + [call] + since) == Refuse(Replay(init, before + since), payment)
  {
    var then_ := Replay(init, before);
    ReplayAppend(init, before, since);
    ReplayOne(then_, call);
    ReplayAppend(init, before, [call]);
    RefusalMovesBack(then_, since, payment);
    ReplayAppend(init, before + [call], since);
  }

  /** A refusal takes its place among the calls that committed after it had read. */
  lemma InsertExplains(init: Db, s: Sys, history: seq<Call>, k: nat, t: Txn, call: Call, seen: seq<Call>)
    requires Explains(init, s, history) && Deciding(t) && t.pc == Ready(Insufficient)
    requires ReadAt(init, history, k, s.db, t, seen) && Transition(t.loaded.payment.status, Authorized)
    requires call.op == t.op && call.outcome == PersistedRefusal(InsufficientFunds)
    ensures t.op.payment in s.db.payments
    ensures Explains(init, s.(db := Refuse(s.db, t.op.payment), replies := s.replies + [call]),
      Inserted(history, k, call))
  {
    assert history == history[..k] + history[k..];
    RefusedThen(Replay(init, history[..k]), s.db, t);
    InsertReplays(init, history[..k], call, history[k..], t.op.payment);
    InsertCounts(history, k, call, s.replies);
  }

  lemma InsertCounts(history: seq<Call>, k: nat, call: Call, replies: seq<Call>)
    requires k <= |history| && call.outcome.PersistedRefusal?
    requires multiset(history) == multiset(replies) && Settled(history) == Settled(replies)
    ensures multiset(Inserted(history, k, call)) == multiset(replies + [call])
    ensures Settled(Inserted(history, k, call)) == Settled(replies + [call])
  {
    assert history == history[..k] + history[k..];
    SettledOne(call);
    SettledAppend(replies, [call]);
    SettledAppend(history[..k], history[k..]);
    SettledAppend(history[..k], [call]);
    SettledAppend(history[..k] + [call], history[k..]);
  }

  /** The state after the first `j` calls, all of `history[..k]` among them, once the refusal is inserted at `k`. */
  lemma InsertedState(init: Db, history: seq<Call>, k: nat, call: Call, j: nat)
    requires !call.op.Fund? && !call.op.Create?
    requires k <= j <= |history| && Faithful(init, history) && Untargeted(history[k..], call.op.payment)
    requires call.op.payment in Replay(init, history[..k]).payments
    requires Serial(Replay(init, history[..k]), call.op).db == Refuse(Replay(init, history[..k]), call.op.payment)
    ensures call.op.payment in Replay(init, history[..j]).payments
    ensures Replay(init, Inserted(history, k, call)[..j + 1]) == Refuse(Replay(init, history[..j]), call.op.payment)
  {
    InsertedPrefix(history, k, call, j);
    StateMoves(init, history[..k], history[k..j], history[j..], call.op.payment);
    ReplayThrough(init, history[..k], call, history[k..j]);
  }

  lemma InsertedPrefix(history: seq<Call>, k: nat, call: Call, j: nat)
    requires k <= j <= |history|
    ensures history[..j] == history[..k] + history[k..j]
    ensures history == history[..k] + history[k..j] + history[j..]
    ensures Inserted(history, k, call)[..j + 1] == history[..k] + [call] + history[k..j]
    ensures forall i :: 0 <= i < j - k ==> history[k..j][i] == history[k..][i]
  {
  }

  lemma StateMoves(init: Db, before: seq<Call>, between: seq<Call>, rest: seq<Call>, payment: nat)
    requires Faithful(init, before + between + rest) && Untargeted(between, payment)
    requires payment in Replay(init, before).payments
    ensures payment in Replay(init, before + between).payments
    ensures Replay(Refuse(Replay(init, before), payment), between) == Refuse(Replay(init, before + between), payment)
  {
    ReplayAppend(init, before + between, rest);
    ReplayAppend(init, before, between);
    RefusalMovesBack(Replay(init, before), between, payment);
  }

  lemma ReplayThrough(init: Db, before: seq<Call>, call: Call, after: seq<Call>)
    ensures Replay(init, before + [call] + after) == Replay(Serial(Replay(init, before), call.op).db, after)
  {
    ReplayOne(Replay(init, before), call);
    ReplayAppend(init, before, [call]);
    ReplayAppend(init, before + [call], after);
  }

  lemma ReadInRefused(then_: Db, db: Db, t: Txn, payment: nat)
    requires Deciding(t) && ReadIn(then_, db, t) && payment in then_.payments && t.op.payment != payment
    ensures ReadIn(Refuse(then_, payment), db, t)
  {
    RefusalTouches(then_, payment);
  }

  lemma UntargetedInsert(history: seq<Call>, k: nat, j: nat, call: Call, payment: nat)
    requires k <= |history| && j <= |history| && Untargeted(history[j..], payment) && !Targets(call.op, payment)
    ensures j <= k ==>
      Inserted(history, k, call)[..j] == history[..j] && Untargeted(Inserted(history, k, call)[j..], payment)
    ensures j > k ==> Untargeted(Inserted(history, k, call)[j + 1..], payment)
  {
    if j > k {
      assert Inserted(history, k, call)[j + 1..] == history[j..];
    } else {
      var tail := Inserted(history, k, call)[j..];
      forall i | 0 <= i < |tail|
        ensures !Targets(tail[i].op, payment)
      {
        if i < k - j { assert tail[i] == history[j..][i]; }
        else if i > k - j { assert tail[i] == history[j..][i - 1]; }
      }
    }
  }

  /** Calls inserted after a reading leave it where it stands, and so do refusals inserted before it. */
  lemma InsertStands(seen: seq<Call>, prefix: seq<Call>, k: nat, call: Call)
    requires Stands(seen, prefix) && k <= |prefix| && call.outcome.PersistedRefusal?
    ensures Stands(seen, Inserted(prefix, k, call))
  {
    assert prefix == prefix[..k] + prefix[k..];
    SettledOne(call);
    SettledAppend(prefix[..k], prefix[k..]);
    SettledAppend(prefix[..k], [call]);
    SettledAppend(prefix[..k] + [call], prefix[k..]);
  }

  /** The calls before place `q` of the longer history, when `j` calls of the old one are among them. */
  lemma InsertPrefix(history: seq<Call>, k: nat, call: Call, j: nat, q: nat)
    requires k <= j <= |history| && q == j + 1
    ensures Inserted(history, k, call)[..q] == Inserted(history[..j], k, call)
    ensures j < |history| ==> Inserted(history, k, call)[q] == history[j]
  {
  }

  /** A reading before the place of the insertion stays where it is. */
  lemma EarlierReading(init: Db, history: seq<Call>, k: nat, call: Call, db: Db, t: Txn, seen: seq<Call>, j: nat)
    requires j <= k <= |history| && Deciding(t) && ReadAt(init, history, j, db, t, seen)
      && !Targets(call.op, t.op.payment)
    ensures Placed(init, Inserted(history, k, call), db, t, seen)
  {
    UntargetedInsert(history, k, j, call, t.op.payment);
    assert ReadAt(init, Inserted(history, k, call), j, db, t, seen);
  }

  /** The state after `j` calls, as it is once the refusal stands among them. */
  predicate RefusedIn(init: Db, history: seq<Call>, k: nat, call: Call, j: nat)
    requires k <= j <= |history| && call.op.Authorize?
  {
    && call.op.payment in Replay(init, history[..j]).payments
    && Replay(init, Inserted(history, k, call)[..j + 1]) == Refuse(Replay(init, history[..j]), call.op.payment)
  }

  lemma LaterStands(history: seq<Call>, k: nat, call: Call, seen: seq<Call>, j: nat, q: nat)
    requires k <= j <= |history| && q == j + 1 && call.outcome.PersistedRefusal? && Stands(seen, history[..j])
    ensures Stands(seen, Inserted(history, k, call)[..q])
  {
    InsertPrefix(history, k, call, j, q);
    InsertStands(seen, history[..j], k, call);
  }

  /** A reading after it moves up by one. */
  lemma LaterReading(init: Db, history: seq<Call>, k: nat, call: Call, db: Db, t: Txn, seen: seq<Call>, j: nat)
    requires k < j <= |history| && call.op.Authorize? && call.outcome.PersistedRefusal?
    requires Deciding(t) && ReadAt(init, history, j, db, t, seen) && t.op.payment != call.op.payment
    requires RefusedIn(init, history, k, call, j)
    ensures Placed(init, Inserted(history, k, call), db, t, seen)
  {
    UntargetedInsert(history, k, j, call, t.op.payment);
    ReadInRefused(Replay(init, history[..j]), db, t, call.op.payment);
    assert ReadIn(Replay(init, Inserted(history, k, call)[..j + 1]), db, t);
    LaterStands(history, k, call, seen, j, j + 1);
    assert ReadAt(init, Inserted(history, k, call), j + 1, db, t, seen);
  }

  /** Another authorization still finds the state it read in, before or after the inserted refusal. */
  lemma InsertPlaces(init: Db, history: seq<Call>, k: nat, call: Call, db: Db, t: Txn, seen: seq<Call>)
    requires k <= |history| && call.op.Authorize? && call.outcome.PersistedRefusal?
    requires forall j :: k <= j <= |history| ==> RefusedIn(init, history, k, call, j)
    requires Deciding(t) && t.op.payment != call.op.payment && Placed(init, history, db, t, seen)
    ensures Placed(init, Inserted(history, k, call), db, t, seen)
  {
    var j: nat :| ReadAt(init, history, j, db, t, seen);
    if j <= k {
      EarlierReading(init, history, k, call, db, t, seen, j);
    } else {
      LaterReading(init, history, k, call, db, t, seen, j);
    }
  }

  lemma RefusedInAll(init: Db, history: seq<Call>, k: nat, call: Call)
    requires k <= |history| && call.op.Authorize? && Faithful(init, history)
    requires Untargeted(history[k..], call.op.payment)
    requires call.op.payment in Replay(init, history[..k]).payments
    requires Serial(Replay(init, history[..k]), call.op).db == Refuse(Replay(init, history[..k]), call.op.payment)
    ensures forall j :: k <= j <= |history| ==> RefusedIn(init, history, k, call, j)
  {
    forall j | k <= j <= |history| ensures RefusedIn(init, history, k, call, j)
    {
      InsertedState(init, history, k, call, j);
    }
  }

  /** Only the credits of the committed state matter to a reading. */
  lemma PlacedStays(init: Db, history: seq<Call>, db: Db, after: Db, t: Txn, seen: seq<Call>)
    requires Placed(init, history, db, t, seen) && after.ledger == db.ledger
    ensures Placed(init, history, after, t, seen)
  {
    if Deciding(t) {
      var j: nat :| ReadAt(init, history, j, db, t, seen);
      assert ReadAt(init, history, j, after, t, seen);
    }
  }

  lemma MoreAnswers(history: seq<Call>, q: nat, answers: set<Answer>, more: set<Answer>)
    requires q < |history| && SitedAt(history, q, answers) && answers <= more
    ensures SitedAt(history, q, more)
  {
  }

  /** A refusal after the place of the insertion moves up by one. */
  lemma SitedLater(history: seq<Call>, k: nat, call: Call, answers: set<Answer>, j: nat, q: nat)
    requires call.outcome.PersistedRefusal? && k <= j < |history| && q == j + 1
    requires history[j].outcome.PersistedRefusal? ==> SitedAt(history, j, answers)
    ensures Inserted(history, k, call)[q] == history[j]
    ensures history[j].outcome.PersistedRefusal? ==> SitedAt(Inserted(history, k, call), q, answers)
  {
    InsertPrefix(history, k, call, j, q);
    if history[j].outcome.PersistedRefusal? {
      var was :| Answer(history[j], was) in answers && Stands(was, history[..j]);
      InsertStands(was, history[..j], k, call);
      assert Answer(Inserted(history, k, call)[q], was) in answers;
    }
  }

  /** One before it stays. */
  lemma SitedEarlier(history: seq<Call>, k: nat, call: Call, answers: set<Answer>, q: nat)
    requires q < k <= |history| && (history[q].outcome.PersistedRefusal? ==> SitedAt(history, q, answers))
    ensures Inserted(history, k, call)[q] == history[q]
    ensures history[q].outcome.PersistedRefusal? ==> SitedAt(Inserted(history, k, call), q, answers)
  {
    assert Inserted(history, k, call)[..q] == history[..q];
  }

  lemma SitedHere(history: seq<Call>, k: nat, call: Call, seen: seq<Call>, answers: set<Answer>)
    requires k <= |history| && Answer(call, seen) in answers && Stands(seen, history[..k])
    ensures SitedAt(Inserted(history, k, call), k, answers)
  {
    assert Inserted(history, k, call)[..k] == history[..k];
    assert Answer(Inserted(history, k, call)[k], seen) in answers;
  }

  lemma SitedInsert(history: seq<Call>, k: nat, call: Call, seen: seq<Call>, answers: set<Answer>)
    requires Sited(history, answers) && k <= |history| && call.outcome.PersistedRefusal? && Stands(seen, history[..k])
    ensures Sited(Inserted(history, k, call), answers + {Answer(call, seen)})
  {
    var longer, more := Inserted(history, k, call), answers + {Answer(call, seen)};
    forall q | 0 <= q < |longer| && longer[q].outcome.PersistedRefusal? ensures SitedAt(longer, q, more)
    {
      if q < k {
        SitedEarlier(history, k, call, answers, q);
        MoreAnswers(longer, q, answers, more);
      } else if q == k {
        SitedHere(history, k, call, seen, more);
      } else {
        SitedLater(history, k, call, answers, q - 1, q);
        MoreAnswers(longer, q, answers, more);
      }
    }
  }

  lemma RefusalPlaces(init: Db, s: Sys, trace: Trace, k: nat, id: nat, other: nat)
    requires Isolated(s) && Traced(init, s, trace) && id in s.txns && other in s.txns && other != id
    requires Deciding(s.txns[id]) && s.txns[id].pc == Ready(Insufficient) && Deciding(s.txns[other])
    requires id in trace.marks && ReadAt(init, trace.history, k, s.db, s.txns[id], trace.marks[id])
    ensures s.txns[id].op.payment in s.db.payments && other in trace.marks
    ensures Placed(init, Inserted(trace.history, k, Call(id, s.txns[id].op, OutcomeOf(s.txns[id]))),
                   Refuse(s.db, s.txns[id].op.payment), s.txns[other], trace.marks[other])
  {
    var t, u := s.txns[id], s.txns[other];
    var call := Call(id, t.op, OutcomeOf(t));
    HeldWhileDeciding(s.db, t);
    RefusalTouches(s.db, t.op.payment);
    assert Apart(t, u) && Marked(init, s, trace, other);
    HeldWhileDeciding(s.db, u);
    RefusedThen(Replay(init, trace.history[..k]), s.db, t);
    InsufficientIsDeciding(s.db, t);
    RefusedInAll(init, trace.history, k, call);
    InsertPlaces(init, trace.history, k, call, s.db, u, trace.marks[other]);
    PlacedStays(init, Inserted(trace.history, k, call), s.db, Refuse(s.db, t.op.payment), u, trace.marks[other]);
  }

  lemma RefusalTraces(init: Db, s: Sys, trace: Trace, id: nat) returns (longer: Trace)
    requires Isolated(s) && Traced(init, s, trace) && id in s.txns && s.txns[id].pc == Ready(Insufficient)
    ensures id in trace.marks && longer.marks == trace.marks
    ensures var t := s.txns[id]; var call := Call(id, t.op, OutcomeOf(t));
      && longer.answers == trace.answers + {Answer(call, trace.marks[id])}
      && Traced(init, Sys(Apply(s.db, Buffer(t)), s.txns - {id}, s.replies + [call]), longer)
  {
    var t := s.txns[id];
    var call := Call(id, t.op, OutcomeOf(t));
    InsufficientIsDeciding(s.db, t);
    HeldWhileDeciding(s.db, t);
    assert Marked(init, s, trace, id);
    var seen := trace.marks[id];
    var k: nat :| ReadAt(init, trace.history, k, s.db, t, seen);
    longer := Trace(Inserted(trace.history, k, call), trace.marks, trace.answers + {Answer(call, seen)});
    InsertExplains(init, s, trace.history, k, t, call, seen);
    SitedInsert(trace.history, k, call, seen, trace.answers);
    var then_ := Sys(Refuse(s.db, t.op.payment), s.txns - {id}, s.replies + [call]);
    forall other | other in then_.txns ensures Marked(init, then_, longer, other)
    {
      if Deciding(s.txns[other]) { RefusalPlaces(init, s, trace, k, id, other); }
    }
  }

  lemma InsufficientIsDeciding(db: Db, t: Txn)
    requires TxnOk(db, t) && t.pc == Ready(Insufficient)
    ensures Deciding(t) && OutcomeOf(t) == PersistedRefusal(InsufficientFunds)
    ensures Buffer(t) == RefusalWrites(t.op.payment, t.loaded.payment)
  {
  }

  lemma RefusedThen(then_: Db, db: Db, t: Txn)
    requires Deciding(t) && t.pc == Ready(Insufficient) && ReadIn(then_, db, t)
    requires Transition(t.loaded.payment.status, Authorized)
    ensures Serial(then_, t.op) == Reply(PersistedRefusal(InsufficientFunds), Refuse(then_, t.op.payment))
  {
  }

  // ---------------------------------------------------------------- steps

  lemma FewerTraces(init: Db, s: Sys, trace: Trace, id: nat)
    requires Traced(init, s, trace)
    ensures Traced(init, s.(txns := s.txns - {id}), trace)
  {
    var t := s.(txns := s.txns - {id});
    forall other | other in t.txns ensures Marked(init, t, trace, other) { assert Marked(init, s, trace, other); }
  }

  lemma OpenTraces(init: Db, s: Sys, trace: Trace, id: nat, op: Op)
    requires Traced(init, s, trace)
    ensures Traced(init, s.(txns := s.txns[id := Begin(op)]), trace)
  {
    var t := s.(txns := s.txns[id := Begin(op)]);
    forall other | other in t.txns ensures Marked(init, t, trace, other)
    {
      if other != id { assert Marked(init, s, trace, other); }
    }
  }

  lemma ReadyTraces(init: Db, s: Sys, trace: Trace, id: nat) returns (longer: Trace)
    requires Isolated(s) && Traced(init, s, trace) && id in s.txns && s.txns[id].pc.Ready?
    ensures longer.marks == trace.marks
    ensures var t := s.txns[id]; var call := Call(id, t.op, OutcomeOf(t));
      && longer.answers <= trace.answers + AnswerOf(s, trace, id)
      && Traced(init, Sys(Apply(s.db, Buffer(t)), s.txns - {id}, s.replies + [call]), longer)
  {
    if s.txns[id].pc.verdict == Insufficient {
      longer := RefusalTraces(init, s, trace, id);
    } else {
      CommitTraces(init, s, trace, id);
      longer := Answered(trace, Call(id, s.txns[id].op, OutcomeOf(s.txns[id])));
    }
  }

  /** What a commit adds to the answered refusals. */
  function AnswerOf(s: Sys, trace: Trace, id: nat): set<Answer>
    requires id in s.txns
  {
    if s.txns[id].pc == Ready(Insufficient) && id in trace.marks
    then {Answer(Call(id, s.txns[id].op, OutcomeOf(s.txns[id])), trace.marks[id])}
    else {}
  }

  lemma CommitStepTraces(init: Db, s: Sys, trace: Trace, id: nat) returns (longer: Trace)
    requires Isolated(s) && Traced(init, s, trace) && id in s.txns
    requires Statement(s.db, Locked(s.db, s.txns[id])).Commit?
    ensures Traced(init, Next(s, Exec(id)), longer) && longer.marks == trace.marks
    ensures longer.answers <= trace.answers + AnswerOf(s, trace, id)
  {
    CommitStep(s, id);
    longer := ReadyTraces(init, s, trace, id);
  }

  lemma ExecTraces(init: Db, s: Sys, trace: Trace, id: nat) returns (longer: Trace)
    requires Isolated(s) && Traced(init, s, trace) && id in s.txns
    ensures Traced(init, Next(s, Exec(id)), longer)
    ensures longer.marks == if GoesOn(s, Exec(id)) then Noting(s, trace, id).marks else trace.marks
    ensures longer.answers <= trace.answers + AnswerOf(s, trace, id)
  {
    longer := trace;
    match Statement(s.db, Locked(s.db, s.txns[id]))
    case Continue(next) =>
      ContinueTraces(init, s, trace, id, next);
      longer := Noting(s, trace, id);
    case Abort(_) => FewerTraces(init, s, trace, id);
    case Commit => longer := CommitStepTraces(init, s, trace, id);
  }

  lemma StepTraces(init: Db, s: Sys, trace: Trace, step: Step) returns (longer: Trace)
    requires Isolated(s) && Traced(init, s, trace) && Enabled(s, step)
    ensures Traced(init, Next(s, step), longer)
    ensures longer.marks == if GoesOn(s, step) then Noting(s, trace, step.id).marks else trace.marks
    ensures longer.answers <= trace.answers + if step.Exec? then AnswerOf(s, trace, step.id) else {}
  {
    longer := trace;
    match step
    case Open(id, op) => OpenTraces(init, s, trace, id, op);
    case Rollback(id) => FewerTraces(init, s, trace, id);
    case Exec(id) => longer := ExecTraces(init, s, trace, id);
  }

  predicate GoesOn(s: Sys, step: Step)
  {
    step.Exec? && step.id in s.txns && Statement(s.db, Locked(s.db, s.txns[step.id])).Continue?
  }

  // ---------------------------------------------------------------- where refusals read

  /** At this step the authorization reads the balance that will refuse it: its debits, or that it has none. */
  predicate StartsDeciding(s: Sys, step: Step)
  {
    GoesOn(s, step) && !Deciding(s.txns[step.id]) && Deciding(Statement(s.db, Locked(s.db, s.txns[step.id])).txn)
  }

  /** The same transaction is open from the `i`-th state to the `m`-th. */
  ghost predicate OpenThroughout(states: seq<Sys>, i: nat, m: nat, id: nat)
    requires i <= m < |states|
  {
    forall j :: i <= j <= m ==> OpenFor(states[j], id, states[i])
  }

  predicate OpenFor(s: Sys, id: nat, since: Sys)
  {
    id in s.txns && id in since.txns && s.txns[id].op == since.txns[id].op
  }

  lemma OpenLonger(states: seq<Sys>, i: nat, m: nat, id: nat)
    requires i <= m < |states| - 1 && OpenThroughout(states, i, m, id) && OpenFor(states[m + 1], id, states[m])
    ensures OpenThroughout(states, i, m + 1, id)
  {
    assert OpenFor(states[m], id, states[i]);
  }

  /** The transaction started deciding at the `i`-th step and has been open since, up to the `m`-th state. */
  ghost predicate DecidingSince(states: seq<Sys>, steps: seq<Step>, i: nat, m: nat, id: nat)
    requires |states| == |steps| + 1
  {
    && i < m <= |steps| && StartsDeciding(states[i], steps[i]) && steps[i].id == id
    && OpenThroughout(states, i, m, id)
  }

  /** The call is the refusal that a transaction decided from its reading at the `i`-th step and committed at the
      `m`-th. */
  ghost predicate RefusedFrom(states: seq<Sys>, steps: seq<Step>, i: nat, m: nat, call: Call)
    requires |states| == |steps| + 1
  {
    && m < |steps| && DecidingSince(states, steps, i, m, call.txn) && steps[m] == Exec(call.txn)
    && OpenFor(states[m], call.txn, states[i]) && states[m].txns[call.txn].pc == Ready(Insufficient)
    && call == Call(call.txn, states[m].txns[call.txn].op, OutcomeOf(states[m].txns[call.txn]))
  }

  /** The `q`-th call of the history stands where its transaction read the balance: after the calls answered by
      then, in their order, and besides them only after refusals, which leave every balance as it is. */
  ghost predicate StandsAtItsReading(states: seq<Sys>, steps: seq<Step>, history: seq<Call>, q: nat)
    requires |states| == |steps| + 1 && q < |history|
  {
    exists i: nat, m: nat :: RefusedFrom(states, steps, i, m, history[q]) && Stands(states[i].replies, history[..q])
  }

  ghost predicate MarksKnown(states: seq<Sys>, steps: seq<Step>, marks: map<nat, seq<Call>>)
    requires |states| == |steps| + 1
  {
    forall id :: id in states[|steps|].txns && Deciding(states[|steps|].txns[id]) ==>
      id in marks && MarkKnown(states, steps, id, marks[id])
  }

  ghost predicate MarkKnown(states: seq<Sys>, steps: seq<Step>, id: nat, seen: seq<Call>)
    requires |states| == |steps| + 1
  {
    exists i: nat :: DecidingSince(states, steps, i, |steps|, id) && seen == states[i].replies
  }

  ghost predicate AnswerKnown(states: seq<Sys>, steps: seq<Step>, a: Answer)
    requires |states| == |steps| + 1
  {
    exists i: nat, m: nat :: RefusedFrom(states, steps, i, m, a.call) && a.seen == states[i].replies
  }

  ghost predicate AnswersKnown(states: seq<Sys>, steps: seq<Step>, answers: set<Answer>)
    requires |states| == |steps| + 1
  {
    forall a :: a in answers ==> AnswerKnown(states, steps, a)
  }

  lemma SinceLonger(states: seq<Sys>, steps: seq<Step>, n: nat, i: nat, m: nat, id: nat)
    requires |states| == |steps| + 1 && n <= |steps| && DecidingSince(states[..n + 1], steps[..n], i, m, id)
    ensures DecidingSince(states, steps, i, m, id)
  {
    assert forall j :: 0 <= j <= n ==> states[..n + 1][j] == states[j];
  }

  lemma AnswersLonger(states: seq<Sys>, steps: seq<Step>, n: nat, a: Answer)
    requires |states| == |steps| + 1 && n <= |steps| && AnswerKnown(states[..n + 1], steps[..n], a)
    ensures AnswerKnown(states, steps, a)
  {
    var i: nat, m: nat :| RefusedFrom(states[..n + 1], steps[..n], i, m, a.call)
      && a.seen == states[..n + 1][i].replies;
    SinceLonger(states, steps, n, i, m, a.call.txn);
    assert RefusedFrom(states, steps, i, m, a.call);
  }

  /** Who is deciding after a step was so before it, or starts now. */
  lemma DecidingSource(s: Sys, step: Step, id: nat)
    requires Enabled(s, step) && id in Next(s, step).txns && Deciding(Next(s, step).txns[id])
    ensures id in s.txns && Next(s, step).txns[id].op == s.txns[id].op
    ensures GoesOn(s, step) && step.id == id ==> Deciding(s.txns[id]) || StartsDeciding(s, step)
    ensures !(GoesOn(s, step) && step.id == id) ==> Next(s, step).txns[id] == s.txns[id]
  {
    if GoesOn(s, step) && step.id == id { StatementOp(s.db, Locked(s.db, s.txns[id])); }
  }

  lemma MarkStays(states: seq<Sys>, steps: seq<Step>, n: nat, id: nat, seen: seq<Call>)
    requires |states| == |steps| + 1 && |steps| == n + 1 && MarkKnown(states[..n + 1], steps[..n], id, seen)
    requires id in states[n].txns && id in states[n + 1].txns && states[n + 1].txns[id].op == states[n].txns[id].op
    ensures MarkKnown(states, steps, id, seen)
  {
    var i: nat :| DecidingSince(states[..n + 1], steps[..n], i, n, id) && seen == states[..n + 1][i].replies;
    SinceLonger(states, steps, n, i, n, id);
    OpenLonger(states, i, n, id);
    assert DecidingSince(states, steps, i, n + 1, id);
  }

  lemma MarksStay(states: seq<Sys>, steps: seq<Step>, n: nat, trace: Trace, longer: Trace)
    requires |states| == |steps| + 1 && |steps| == n + 1
    requires Enabled(states[n], steps[n]) && states[n + 1] == Next(states[n], steps[n])
    requires MarksKnown(states[..n + 1], steps[..n], trace.marks)
    requires longer.marks == if GoesOn(states[n], steps[n]) then Noting(states[n], trace, steps[n].id).marks
      else trace.marks
    ensures MarksKnown(states, steps, longer.marks)
  {
    forall id | id in states[n + 1].txns && Deciding(states[n + 1].txns[id])
      ensures id in longer.marks && MarkKnown(states, steps, id, longer.marks[id])
    {
      DecidingSource(states[n], steps[n], id);
      if Deciding(states[n].txns[id]) {
        assert MarkKnown(states[..n + 1], steps[..n], id, trace.marks[id]);
        MarkStays(states, steps, n, id, trace.marks[id]);
      } else {
        assert DecidingSince(states, steps, n, n + 1, id);
      }
    }
  }

  lemma NewAnswer(states: seq<Sys>, steps: seq<Step>, n: nat, id: nat, seen: seq<Call>)
    requires |states| == |steps| + 1 && |steps| == n + 1 && MarkKnown(states[..n + 1], steps[..n], id, seen)
    requires steps[n] == Exec(id) && id in states[n].txns && states[n].txns[id].pc == Ready(Insufficient)
    ensures AnswerKnown(states, steps, Answer(Call(id, states[n].txns[id].op, OutcomeOf(states[n].txns[id])), seen))
  {
    var call := Call(id, states[n].txns[id].op, OutcomeOf(states[n].txns[id]));
    var i: nat :| DecidingSince(states[..n + 1], steps[..n], i, n, id) && seen == states[..n + 1][i].replies;
    SinceLonger(states, steps, n, i, n, id);
    assert RefusedFrom(states, steps, i, n, call);
  }

  lemma AnswersStay(states: seq<Sys>, steps: seq<Step>, n: nat, trace: Trace, a: Answer)
    requires |states| == |steps| + 1 && |steps| == n + 1 && Isolated(states[n])
    requires MarksKnown(states[..n + 1], steps[..n], trace.marks)
    requires AnswersKnown(states[..n + 1], steps[..n], trace.answers)
    requires steps[n].Exec? && steps[n].id in states[n].txns
    requires a in trace.answers + AnswerOf(states[n], trace, steps[n].id)
    ensures AnswerKnown(states, steps, a)
  {
    if a in trace.answers {
      AnswersLonger(states, steps, n, a);
    } else {
      var id := steps[n].id;
      InsufficientIsDeciding(states[n].db, states[n].txns[id]);
      NewAnswer(states, steps, n, id, trace.marks[id]);
    }
  }

  // ---------------------------------------------------------------- the theorem

  lemma {:induction false} RunTraces(init: Db, states: seq<Sys>, steps: seq<Step>) returns (trace: Trace)
    requires Reaches(init, states, steps)
    ensures Traced(init, states[|steps|], trace)
    ensures MarksKnown(states, steps, trace.marks) && AnswersKnown(states, steps, trace.answers)
    decreases |steps|
  {
    if |steps| == 0 {
      trace := Trace([], map[], {});
    } else {
      var n := |steps| - 1;
      var shorter := RunTraces(init, states[..n + 1], steps[..n]);
      RunsAreIsolated(init, states[..n + 1], steps[..n]);
      trace := StepTraces(init, states[n], shorter, steps[n]);
      MarksStay(states, steps, n, shorter, trace);
      forall a | a in trace.answers ensures AnswerKnown(states, steps, a)
      {
        if steps[n].Exec? { AnswersStay(states, steps, n, shorter, a); } else { AnswersLonger(states, steps, n, a); }
      }
    }
  }

  /** Serializability of every run, over any number of customers, payments, concurrent transactions and
      rollbacks. Every call but the refusals stands in the order of the commits, and every refusal at its
      balance read. */
  lemma Serializable(init: Db, states: seq<Sys>, steps: seq<Step>) returns (history: seq<Call>)
    requires Reaches(init, states, steps)
    ensures Explains(init, states[|steps|], history)
    ensures forall q :: 0 <= q < |history| && history[q].outcome.PersistedRefusal? ==>
      StandsAtItsReading(states, steps, history, q)
  {
    var trace := RunTraces(init, states, steps);
    history := trace.history;
    forall q | 0 <= q < |history| && history[q].outcome.PersistedRefusal?
      ensures StandsAtItsReading(states, steps, history, q)
    {
      assert SitedAt(history, q, trace.answers);
      var seen :| Answer(history[q], seen) in trace.answers && Stands(seen, history[..q]);
      assert AnswerKnown(states, steps, Answer(history[q], seen));
    }
  }
}
