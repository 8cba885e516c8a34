/** Locks are taken in one order, so waiting transactions never form a cycle, some transaction can
    always go on, and any set of open transactions can be run to its end. */
module Deadlock {
  import opened Money
  import opened Database
  import opened Transactions
  import opened Isolation
  import opened Totals

  /** Idempotency key or account row, payment row, customer row, customer ledger key, merchant ledger
      key, refund, journal reference. */
  function Rank(r: Resource): nat
  {
    match r
    case IdemRow(_) => 0
    case AccountRow(_) => 0
    case PaymentRow(_) => 1
    case CustomerRow(_) => 2
    case KeyRow(key) => if key.name == CustomerCash then 3 else 4
    case RefundId(_) => 5
    case JournalRow(_) => 6
  }

  /** Everything held at this statement ranks below this level. */
  function Level(pc: Pc): nat
  {
    match pc
    case Start => 0
    case LockRecord => 0
    case CheckRequest => 1
    case InsertPayment => 1
    case CheckAccount => 1
    case ReferCustomer => 2
    case LockCustomer => 2
    case EnsureKey(second, _) => if second then 4 else 3
    case InsertRefund => 5
    case PostJournal => 6
    case Ready(_) => 7
    case _ => 3
  }

  predicate Below(t: Txn)
  {
    forall r :: r in t.excl + t.shared ==> Rank(r) < Level(t.pc)
  }

  ghost predicate Ordered(s: Sys)
  {
    forall id :: id in s.txns ==> Below(s.txns[id])
  }

  lemma WantedIsNext(db: Db, t: Txn)
    requires Wants(db, t).Some?
    ensures Level(t.pc) <= Rank(Wants(db, t).value.resource)
  {
  }

  /** How far a transaction's statements have come. */
  function Stage(pc: Pc): (n: nat)
    ensures n <= 13
  {
    match pc
    case Start => 0
    case LockRecord => 1
    case CheckRequest => 2
    case InsertPayment => 3
    case ReferCustomer => 4
    case CheckAccount => 1
    case LockCustomer => 1
    case ReadAccounts => 2
    case ReadDebits => 3
    case ReadCredits(_) => 4
    case ReadCustomer => 1
    case EnsureKey(second, step) =>
      (if second then 8 else 5) + (match step case SelectKey => 0 case InsertKey => 1 case ReselectKey => 2)
    case InsertRefund => 11
    case PostJournal => 12
    case Ready(_) => 13
  }

  lemma StageAdvances(db: Db, t: Txn)
    requires Statement(db, t).Continue?
    ensures Stage(t.pc) < Stage(Statement(db, t).txn.pc)
  {
  }

  lemma LevelAdvances(db: Db, t: Txn)
    requires Statement(db, t).Continue?
    ensures Level(t.pc) <= Level(Statement(db, t).txn.pc)
    ensures Wants(db, t).Some? ==> Rank(Wants(db, t).value.resource) < Level(Statement(db, t).txn.pc)
  {
  }

  lemma ContinueOrdered(db: Db, t: Txn)
    requires Below(t) && Statement(db, Locked(db, t)).Continue?
    ensures Below(Statement(db, Locked(db, t)).txn)
    ensures Stage(t.pc) < Stage(Statement(db, Locked(db, t)).txn.pc)
  {
    var h := Locked(db, t);
    assert h.pc == t.pc && Wants(db, h) == Wants(db, t);
    StageAdvances(db, h);
    LevelAdvances(db, h);
    StatementLocks(db, h);
  }

  lemma StepKeepsOrdered(s: Sys, step: Step)
    requires Ordered(s) && Enabled(s, step)
    ensures Ordered(Next(s, step))
  {
    if step.Exec? && Statement(s.db, Locked(s.db, s.txns[step.id])).Continue? {
      ContinueOrdered(s.db, s.txns[step.id]);
    }
  }

  lemma {:induction false} RunsAreOrdered(init: Db, states: seq<Sys>, steps: seq<Step>)
    requires Reaches(init, states, steps)
    ensures Ordered(states[|steps|])
    decreases |steps|
  {
    if |steps| == 0 {
    } else {
      var n := |steps| - 1;
      RunsAreOrdered(init, states[..n + 1], steps[..n]);
      StepKeepsOrdered(states[n], steps[n]);
    }
  }

  // ---------------------------------------------------------------- waiting

  function WantedRank(s: Sys, id: nat): nat
    requires id in s.txns && Wants(s.db, s.txns[id]).Some?
  {
    Rank(Wants(s.db, s.txns[id]).value.resource)
  }

  /** Along a wait, the wanted rank strictly rises. */
  lemma WaitsRise(s: Sys, a: nat, b: nat)
    requires Ordered(s) && WaitsFor(s, a, b) && Wants(s.db, s.txns[b]).Some?
    ensures WantedRank(s, a) < WantedRank(s, b)
  {
    WantedIsNext(s.db, s.txns[b]);
  }

  ghost predicate WaitPath(s: Sys, path: seq<nat>)
  {
    |path| >= 2 && forall i :: 0 <= i < |path| - 1 ==> WaitsFor(s, path[i], path[i + 1])
  }

  lemma {:induction false} PathRises(s: Sys, path: seq<nat>)
    requires Ordered(s) && WaitPath(s, path)
    requires path[0] in s.txns && Wants(s.db, s.txns[path[0]]).Some?
    requires path[|path| - 1] in s.txns && Wants(s.db, s.txns[path[|path| - 1]]).Some?
    ensures WantedRank(s, path[0]) < WantedRank(s, path[|path| - 1])
    decreases |path|
  {
    var n := |path| - 1;
    assert WaitsFor(s, path[n - 1], path[n]);
    WaitsRise(s, path[n - 1], path[n]);
    if n == 1 {
    } else {
      assert WaitPath(s, path[..n]);
      PathRises(s, path[..n]);
    }
  }

  /** The wait-for graph of a reachable state has no cycle. */
  lemma NoWaitCycle(init: Db, states: seq<Sys>, steps: seq<Step>, path: seq<nat>)
    requires Reaches(init, states, steps) && WaitPath(states[|steps|], path)
    ensures path[0] != path[|path| - 1]
  {
    RunsAreOrdered(init, states, steps);
    var s := states[|steps|];
    assert WaitsFor(s, path[0], path[1]);
    if path[0] == path[|path| - 1] {
      PathRises(s, path);
      assert false;
    }
  }

  /** Whoever waits, waits in the end for a transaction that can step. */
  lemma {:induction false} WaitsForRunnable(s: Sys, id: nat) returns (free: nat)
    requires Ordered(s) && id in s.txns
    ensures CanStep(s, free)
    decreases if Wants(s.db, s.txns[id]).Some? then 7 - WantedRank(s, id) else 0
  {
    if CanStep(s, id) {
      free := id;
    } else {
      var holder :| WaitsFor(s, id, holder);
      if Wants(s.db, s.txns[holder]).None? {
        free := holder;
      } else {
        WaitsRise(s, id, holder);
        free := WaitsForRunnable(s, holder);
      }
    }
  }

  // ---------------------------------------------------------------- running everyone to the end

  ghost function Remaining(txns: map<nat, Txn>): map<nat, int>
  {
    map id | id in txns :: 14 - Stage(txns[id].pc)
  }

  ghost function WorkLeft(txns: map<nat, Txn>): int
  {
    Total(Remaining(txns))
  }

  lemma WorkNonNegative(txns: map<nat, Txn>)
    ensures 0 <= WorkLeft(txns)
  {
    TotalNonNegative(Remaining(txns));
  }

  lemma WorkRemoved(txns: map<nat, Txn>, id: nat)
    requires id in txns
    ensures 0 <= WorkLeft(txns - {id}) < WorkLeft(txns)
  {
    assert Remaining(txns - {id}) == Remaining(txns) - {id};
    TotalWithout(Remaining(txns), id);
    WorkNonNegative(txns - {id});
  }

  lemma WorkAdvanced(txns: map<nat, Txn>, id: nat, next: Txn)
    requires id in txns && Stage(txns[id].pc) < Stage(next.pc)
    ensures 0 <= WorkLeft(txns[id := next]) < WorkLeft(txns)
  {
    var left := 14 - Stage(next.pc);
    assert Remaining(txns[id := next]) == Remaining(txns)[id := left];
    TotalUpdate(Remaining(txns), id, left);
    WorkNonNegative(txns[id := next]);
  }

  lemma StepWorks(s: Sys, id: nat)
    requires Ordered(s) && CanStep(s, id)
    ensures 0 <= WorkLeft(Next(s, Exec(id)).txns) < WorkLeft(s.txns)
  {
    match Statement(s.db, Locked(s.db, s.txns[id]))
    case Continue(next) =>
      ContinueOrdered(s.db, s.txns[id]);
      WorkAdvanced(s.txns, id, next);
    case _ => WorkRemoved(s.txns, id);
  }

  /** From every reachable state, statements of the open transactions alone, each run when it need not
      wait, bring every one of them to its commit or its rollback. */
  lemma {:induction false} EveryoneFinishes(s: Sys) returns (states: seq<Sys>, steps: seq<Step>)
    requires Ordered(s)
    ensures IsRun(states, steps) && states[0] == s && states[|steps|].txns == map[]
    ensures forall i :: 0 <= i < |steps| ==> steps[i].Exec?
    ensures |steps| <= WorkLeft(s.txns)
    decreases WorkLeft(s.txns)
  {
    if s.txns == map[] {
      states, steps := [s], [];
    } else {
      var id :| id in s.txns;
      var free := WaitsForRunnable(s, id);
      StepWorks(s, free);
      StepKeepsOrdered(s, Exec(free));
      var rest, more := EveryoneFinishes(Next(s, Exec(free)));
      states, steps := [s] + rest, [Exec(free)] + more;
    }
  }
}
