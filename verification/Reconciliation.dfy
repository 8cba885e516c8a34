/** The reconciliation job reads the payments once and then, payment by payment, the ledger, each
    time whatever has been committed by then
    (services/payment_service/app/workers/reconciliation.py). */
module Reconciliation {
  import opened Money
  import opened Ledger
  import opened Lifecycle
  import opened Database
  import opened Transactions
  import opened Invariants
  import opened Safety
  import opened Histories

  datatype Finding = Finding(payment: nat, captured: int, ledgerCaptured: int)

  /** The CREDIT sum of the payment's capture journal. */
  function LedgerCaptured(db: Db, payment: nat): int
  {
    Sum(db.ledger.entries, JournalSide(Reference(PaymentCapture, payment), Credit))
  }

  predicate Mismatched(row: Payment, payment: nat, db: Db)
  {
    row.status == Captured && LedgerCaptured(db, payment) != row.captured
  }

  /** What is reported for the payment at place `k` of the listing. */
  predicate Reported(payments: map<nat, Payment>, listing: seq<nat>, seen: seq<Db>, k: nat, f: Finding)
    requires k < |listing| == |seen| && listing[k] in payments
  {
    && Mismatched(payments[listing[k]], listing[k], seen[k])
    && f == Finding(listing[k], payments[listing[k]].captured, LedgerCaptured(seen[k], listing[k]))
  }

  /** `payments` is what the first query returned, `listing` the order of its rows, and `seen[k]` the
      committed database when the ledger is summed for the `k`-th of them. */
  method ReconcileOnce(payments: map<nat, Payment>, listing: seq<nat>, seen: seq<Db>) returns (findings: seq<Finding>)
    requires |seen| == |listing| && forall k :: 0 <= k < |listing| ==> listing[k] in payments
    ensures forall f :: f in findings <==> exists k :: 0 <= k < |listing| && Reported(payments, listing, seen, k, f)
    ensures findings == [] <==> forall k :: 0 <= k < |listing| && payments[listing[k]].status == Captured ==>
      Sum(seen[k].ledger.entries, JournalSide(Reference(PaymentCapture, listing[k]), Credit))
        == payments[listing[k]].captured
  {
    findings := [];
    for i := 0 to |listing|
      invariant forall f :: f in findings <==> exists k :: 0 <= k < i && Reported(payments, listing, seen, k, f)
    {
      var row := payments[listing[i]];
      var captures := LedgerCaptured(seen[i], listing[i]);
      ghost var before := findings;
      if row.status == Captured && captures != row.captured {
        findings := findings + [Finding(listing[i], row.captured, captures)];
        assert Reported(payments, listing, seen, i, findings[|findings| - 1]);
      }
      forall f
        ensures f in findings <==> exists k :: 0 <= k < i + 1 && Reported(payments, listing, seen, k, f)
      {
        if f in findings && f !in before { assert Reported(payments, listing, seen, i, f); }
      }
    }
    assert findings == [] || findings[0] in findings;
    if k :| 0 <= k < |listing| && Mismatched(payments[listing[k]], listing[k], seen[k]) {
      var f := Finding(listing[k], payments[listing[k]].captured, LedgerCaptured(seen[k], listing[k]));
      assert Reported(payments, listing, seen, k, f);
      assert f in findings;
    }
  }

  /** A captured amount, once committed, is never changed by any later commit. */
  lemma {:induction false} CapturedForever(init: Db, states: seq<Sys>, steps: seq<Step>, i: nat, p: nat)
    requires Reaches(init, states, steps) && i <= |steps|
    requires p in states[i].db.payments && states[i].db.payments[p].captured > 0
    ensures p in states[|steps|].db.payments
    ensures states[|steps|].db.payments[p].captured == states[i].db.payments[p].captured
    decreases |steps|
  {
    if i == |steps| {
    } else {
      var n := |steps| - 1;
      Prefix(init, states, steps, n);
      assert states[..n + 1][i] == states[i] && states[..n + 1][n] == states[n];
      CapturedForever(init, states[..n + 1], steps[..n], i, p);
      CapturedOneStep(init, states, steps, p);
    }
  }

  lemma PaymentsOkAt(init: Db, states: seq<Sys>, steps: seq<Step>, j: nat)
    requires Reaches(init, states, steps) && j <= |steps|
    ensures PaymentsOk(states[j].db)
  {
    Prefix(init, states, steps, j);
    ReachableIsLawful(init, states[..j + 1], steps[..j]);
    assert states[..j + 1][j] == states[j];
  }

  lemma CapturedOneStep(init: Db, states: seq<Sys>, steps: seq<Step>, p: nat)
    requires Reaches(init, states, steps) && |steps| > 0 && p in states[|steps| - 1].db.payments
    requires states[|steps| - 1].db.payments[p].captured > 0
    ensures p in states[|steps|].db.payments
    ensures states[|steps|].db.payments[p].captured == states[|steps| - 1].db.payments[p].captured
  {
    EveryChangeIsAnEdge(init, states, steps, p);
    PaymentsOkAt(init, states, steps, |steps| - 1);
    PaymentsOkAt(init, states, steps, |steps|);
    CapturedKept(states[|steps| - 1].db, states[|steps|].db, p);
  }

  lemma CapturedKept(before: Db, after: Db, p: nat)
    requires PaymentsOk(before) && PaymentsOk(after) && p in before.payments && p in after.payments
    requires MovesOn(before.payments[p], after.payments[p]) && before.payments[p].captured > 0
    ensures after.payments[p].captured == before.payments[p].captured
  {
    assert PaymentOk(before.customers, before.payments[p]) && PaymentOk(after.customers, after.payments[p]);
  }

  lemma Prefix(init: Db, states: seq<Sys>, steps: seq<Step>, j: nat)
    requires Reaches(init, states, steps) && j <= |steps|
    ensures Reaches(init, states[..j + 1], steps[..j])
  {
  }

  /** A payment seen as captured at one point of a run has its full credit in the ledger at every later one. */
  lemma SeenCapturedIsInLedger(init: Db, states: seq<Sys>, steps: seq<Step>, i: nat, j: nat, p: nat)
    requires Reaches(init, states, steps) && i <= j <= |steps| && p in states[i].db.payments
    ensures !Mismatched(states[i].db.payments[p], p, states[j].db)
  {
    var row := states[i].db.payments[p];
    if row.status == Captured {
      Prefix(init, states, steps, i);
      ReachableIsLawful(init, states[..i + 1], steps[..i]);
      assert PaymentOk(states[i].db.customers, row);
      Prefix(init, states, steps, j);
      CapturedForever(init, states[..j + 1], steps[..j], i, p);
      ReachableIsLawful(init, states[..j + 1], steps[..j]);
      assert CapturesOk(states[j].db);
    }
  }

  /** No false alarm: whatever commits between the job's queries, it has nothing to report. With the
      contract of `ReconcileOnce`, its findings are empty. */
  lemma NoFalseAlarm(init: Db, states: seq<Sys>, steps: seq<Step>, first: nat, listing: seq<nat>, later: seq<nat>,
    seen: seq<Db>)
    requires Reaches(init, states, steps) && first <= |steps|
    requires |listing| == |later| == |seen|
    requires forall k :: 0 <= k < |later| ==> first <= later[k] <= |steps| && seen[k] == states[later[k]].db
    requires forall k :: 0 <= k < |listing| ==> listing[k] in states[first].db.payments
    ensures forall k :: 0 <= k < |listing| && states[first].db.payments[listing[k]].status == Captured ==>
      Sum(seen[k].ledger.entries, JournalSide(Reference(PaymentCapture, listing[k]), Credit))
        == states[first].db.payments[listing[k]].captured
  {
    forall k | 0 <= k < |listing| && states[first].db.payments[listing[k]].status == Captured
      ensures Sum(seen[k].ledger.entries, JournalSide(Reference(PaymentCapture, listing[k]), Credit))
           == states[first].db.payments[listing[k]].captured
    {
      SeenCapturedIsInLedger(init, states, steps, first, later[k], listing[k]);
    }
  }
}
