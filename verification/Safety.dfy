/** The laws of every reachable committed database, carried over from serial histories by
    serializability, and the branches of the service that no run ever takes. */
module Safety {
  import opened Money
  import opened Database
  import opened Transactions
  import opened Isolation
  import opened Serializability
  import opened Invariants
  import opened Books
  import opened EventLog
  import opened Stories
  import opened Idempotency
  import opened Totals

  ghost predicate Lawful(db: Db)
  {
    && PaymentsOk(db) && JournalsOk(db) && CashOk(db) && ProjectionOk(db) && ConservationOk(db)
    && CapturesOk(db) && RefundsOk(db) && BooksOk(db) && EventsOk(db) && StoriesOk(db) && RecordsOk(db)
  }

  lemma FreshIsLawful(db: Db)
    requires Fresh(db)
    ensures Lawful(db)
  {
    forall c, currency ensures Total(Taken(db.payments, c, currency)) == 0 {
      assert Taken(db.payments, c, currency) == map[];
    }
    forall m, currency ensures Total(Earned(db.payments, m, currency)) == 0 {
      assert Earned(db.payments, m, currency) == map[];
    }
  }

  /** Every operation, run alone, keeps every law. */
  lemma SerialIsLawful(db: Db, op: Op)
    requires Lawful(db)
    ensures Lawful(Serial(db, op).db)
  {
    PaymentsKept(db, op);
    JournalsKept(db, op);
    CashKept(db, op);
    ProjectionKept(db, op);
    ConservationKept(db, op);
    CapturesKept(db, op);
    RefundsKept(db, op);
    BooksKept(db, op);
    EventsKept(db, op);
    StoriesKept(db, op);
    RecordsKept(db, op);
  }

  lemma {:induction false} ReplayIsLawful(init: Db, history: seq<Call>)
    requires Fresh(init)
    ensures Lawful(Replay(init, history))
    decreases |history|
  {
    if |history| == 0 {
      FreshIsLawful(init);
    } else {
      ReplayIsLawful(init, history[..|history| - 1]);
      SerialIsLawful(Replay(init, history[..|history| - 1]), history[|history| - 1].op);
    }
  }

  /** Every law holds of the committed database in every state of every interleaved run. */
  lemma ReachableIsLawful(init: Db, states: seq<Sys>, steps: seq<Step>)
    requires Reaches(init, states, steps)
    ensures Lawful(states[|steps|].db)
  {
    var history := Serializable(init, states, steps);
    ReplayIsLawful(init, history);
  }

  /** No overspending: however many captures race, no customer's cash goes below zero. */
  lemma NoOverspending(init: Db, states: seq<Sys>, steps: seq<Step>, c: nat, currency: Currency)
    requires Reaches(init, states, steps)
    ensures 0 <= Cash(states[|steps|].db.ledger.entries, c, currency)
  {
    ReachableIsLawful(init, states, steps);
  }

  // ---------------------------------------------------------------- branches no run takes

  /** The guards the code keeps against races never fire: the unique journal reference never turns a
      capture away, an upserted ledger account is always found, a conflicting idempotency record is
      always there and complete, and the customer of a payment always exists. */
  lemma DeadBranches(init: Db, states: seq<Sys>, steps: seq<Step>, id: nat)
    requires Reaches(init, states, steps) && id in states[|steps|].txns
    ensures var s := states[|steps|];
      var after := Statement(s.db, Locked(s.db, s.txns[id]));
      after.Abort? ==> after.error !in {AlreadyCaptured, LedgerUpsertFailed, IdempotencyRaced}
    ensures var s := states[|steps|];
      s.txns[id].pc == LockRecord ==>
        Statement(s.db, Locked(s.db, s.txns[id])) != Goto(Locked(s.db, s.txns[id]), CheckRequest)
  {
    var s := states[|steps|];
    RunsAreIsolated(init, states, steps);
    ReachableIsLawful(init, states, steps);
    LockKeeps(s.db, s.txns[id]);
    NeverAborts(s.db, Locked(s.db, s.txns[id]));
  }

  lemma RecordFound(db: Db, t: Txn)
    requires RecordsOk(db) && t.op.Create? && CreateOk(db, t) && t.pc == LockRecord
    ensures Statement(db, t) != Abort(IdempotencyRaced) && Statement(db, t) != Goto(t, CheckRequest)
  {
    assert RecordOk(db.payments, KeyOf(t.op), db.idem[KeyOf(t.op)]);
  }

  lemma CapturePosts(db: Db, t: Txn)
    requires PaymentsOk(db) && JournalsOk(db) && t.op.Capture? && CaptureOk(db, t) && t.pc == PostJournal
    ensures Statement(db, t) == Goto(t, Ready(Proceed))
  {
    assert PaymentOk(db.customers, db.payments[t.op.payment]);
  }

  lemma KeyFound(db: Db, t: Txn)
    requires Posting(db, t) && t.pc.EnsureKey?
    ensures !Statement(db, t).Abort?
  {
  }

  /** Which statement each of these errors comes from. */
  lemma ErrorSource(db: Db, t: Txn)
    requires Statement(db, t).Abort?
    ensures Statement(db, t).error == AlreadyCaptured ==> t.pc == PostJournal && t.op.Capture?
    ensures Statement(db, t).error == LedgerUpsertFailed ==> t.pc.EnsureKey?
    ensures Statement(db, t).error == IdempotencyRaced ==> t.pc == LockRecord && t.op.Create?
  {
  }

  lemma NeverAborts(db: Db, t: Txn)
    requires PaymentsOk(db) && JournalsOk(db) && RecordsOk(db) && TxnOk(db, t)
    ensures Statement(db, t).Abort? ==>
      Statement(db, t).error !in {AlreadyCaptured, LedgerUpsertFailed, IdempotencyRaced}
    ensures t.pc == LockRecord ==> Statement(db, t) != Goto(t, CheckRequest)
  {
    if t.pc == LockRecord { RecordFound(db, t); }
    if t.pc == PostJournal && t.op.Capture? { CapturePosts(db, t); }
    if t.pc.EnsureKey? { KeyFound(db, t); }
    if Statement(db, t).Abort? { ErrorSource(db, t); }
  }
}
