/** What a serial history says about the calls of a run: one capture for each payment, one answer for
    each idempotency key, and a bounded number of changes for each payment. */
module Histories {
  import opened Money
  import opened Ledger
  import opened Lifecycle
  import opened Database
  import opened Transactions
  import opened Isolation
  import opened Serializability
  import opened Invariants
  import opened Books
  import opened EventLog
  import opened Stories
  import opened Idempotency
  import opened Safety
  import opened Totals

  /** The state just before the last call, and that call's place in the history. */
  lemma LastCall(init: Db, history: seq<Call>)
    requires |history| > 0 && Faithful(init, history)
    ensures var front := history[..|history| - 1];
      && Faithful(init, front)
      && Accepted(Replay(init, front), history[|history| - 1].op)
      && Replay(init, history) == After(Replay(init, front), history[|history| - 1].op)
  {
  }

  // ---------------------------------------------------------------- captures

  lemma CapturedStays(db: Db, op: Op, p: nat)
    requires Reference(PaymentCapture, p) in db.ledger.journals
    ensures Reference(PaymentCapture, p) in After(db, op).ledger.journals
    ensures op.Capture? && op.payment == p ==> !Accepted(db, op)
  {
    if Writing(db, op) {
      JournalIn(db, op, Reference(PaymentCapture, p));
    } else {
      NothingAfter(db, op);
    }
  }

  lemma {:induction false} CaptureLeavesJournal(init: Db, history: seq<Call>, i: nat, p: nat)
    requires Faithful(init, history) && i < |history| && history[i].op.Capture? && history[i].op.payment == p
    ensures Reference(PaymentCapture, p) in Replay(init, history).ledger.journals
    decreases |history|
  {
    var n := |history| - 1;
    LastCall(init, history);
    if i == n {
      JournalIn(Replay(init, history[..n]), history[n].op, Reference(PaymentCapture, p));
    } else {
      CaptureLeavesJournal(init, history[..n], i, p);
      CapturedStays(Replay(init, history[..n]), history[n].op, p);
    }
  }

  lemma {:induction false} CapturesDiffer(init: Db, history: seq<Call>, i: nat, j: nat)
    requires Faithful(init, history) && i < j < |history| && history[i].op.Capture? && history[j].op.Capture?
    ensures history[i].op.payment != history[j].op.payment
    decreases |history|
  {
    var n := |history| - 1;
    LastCall(init, history);
    if j == n {
      if history[i].op.payment == history[n].op.payment {
        CaptureLeavesJournal(init, history[..n], i, history[i].op.payment);
        CapturedStays(Replay(init, history[..n]), history[n].op, history[i].op.payment);
        assert false;
      }
    } else {
      CapturesDiffer(init, history[..n], i, j);
    }
  }

  // ---------------------------------------------------------------- fundings

  lemma FundingStays(db: Db, op: Op, a: nat)
    requires Reference(AccountFunding, a) in db.ledger.journals
    ensures Reference(AccountFunding, a) in After(db, op).ledger.journals
    ensures op.Fund? && op.account == a ==> !Accepted(db, op)
  {
    if Writing(db, op) {
      JournalIn(db, op, Reference(AccountFunding, a));
    } else {
      NothingAfter(db, op);
    }
  }

  lemma {:induction false} FundingLeavesJournal(init: Db, history: seq<Call>, i: nat, a: nat)
    requires Faithful(init, history) && i < |history| && history[i].op.Fund? && history[i].op.account == a
    ensures Reference(AccountFunding, a) in Replay(init, history).ledger.journals
    decreases |history|
  {
    var n := |history| - 1;
    LastCall(init, history);
    if i == n {
      JournalIn(Replay(init, history[..n]), history[n].op, Reference(AccountFunding, a));
    } else {
      FundingLeavesJournal(init, history[..n], i, a);
      FundingStays(Replay(init, history[..n]), history[n].op, a);
    }
  }

  lemma {:induction false} FundingsDiffer(init: Db, history: seq<Call>, i: nat, j: nat)
    requires Faithful(init, history) && i < j < |history| && history[i].op.Fund? && history[j].op.Fund?
    ensures history[i].op.account != history[j].op.account
    decreases |history|
  {
    var n := |history| - 1;
    LastCall(init, history);
    if j == n {
      if history[i].op.account == history[n].op.account {
        FundingLeavesJournal(init, history[..n], i, history[i].op.account);
        FundingStays(Replay(init, history[..n]), history[n].op, history[i].op.account);
        assert false;
      }
    } else {
      FundingsDiffer(init, history[..n], i, j);
    }
  }

  // ---------------------------------------------------------------- what the calls add up to

  /** What an answered funding advances for a merchant in a currency, */
  function Funding(call: Call, m: nat, currency: Currency): int
  {
    if call.op.Fund? && call.outcome.Funded? && call.op.merchant == m && call.op.currency == currency
      then call.op.amount else 0
  }

  /** and what an answered capture earns it, or an answered refund takes back. */
  function Earning(call: Call, m: nat, currency: Currency): int
  {
    if !call.outcome.Done? || call.op.merchant != m || call.outcome.view.currency != currency then 0
    else if call.op.Capture? then call.outcome.view.amount
    else if call.op.Refund? then 0 - call.op.amount
    else 0
  }

  function Fundings(calls: seq<Call>, m: nat, currency: Currency): int
  {
    if |calls| == 0 then 0
    else Fundings(calls[..|calls| - 1], m, currency) + Funding(calls[|calls| - 1], m, currency)
  }

  function Earnings(calls: seq<Call>, m: nat, currency: Currency): int
  {
    if |calls| == 0 then 0
    else Earnings(calls[..|calls| - 1], m, currency) + Earning(calls[|calls| - 1], m, currency)
  }

  /** Refusals count for nothing. */
  lemma {:induction false} SettledSums(calls: seq<Call>, m: nat, currency: Currency)
    ensures Fundings(Settled(calls), m, currency) == Fundings(calls, m, currency)
    ensures Earnings(Settled(calls), m, currency) == Earnings(calls, m, currency)
    decreases |calls|
  {
    if |calls| == 0 {
    } else {
      var n := |calls| - 1;
      SettledSums(calls[..n], m, currency);
      assert (Settled(calls[..n]) + [calls[n]])[..|Settled(calls[..n])|] == Settled(calls[..n]);
    }
  }

  /** What one call does to the merchant's two accounts. */
  lemma CallBooks(db: Db, call: Call, m: nat, currency: Currency)
    requires Accepted(db, call.op) && Serial(db, call.op).outcome == call.outcome
    ensures Position(After(db, call.op).ledger.entries, LedgerKey(m, MerchantReceivable, currency))
         == Position(db.ledger.entries, LedgerKey(m, MerchantReceivable, currency)) + Earning(call, m, currency)
    ensures Position(After(db, call.op).ledger.entries, LedgerKey(m, ProviderFunding, currency))
         == Position(db.ledger.entries, LedgerKey(m, ProviderFunding, currency)) - Funding(call, m, currency)
  {
    if Writing(db, call.op) {
      PositionAfter(db, call.op, m, currency);
      CallMoves(db, call, m, currency);
    } else {
      NothingAfter(db, call.op);
    }
  }

  lemma CallMoves(db: Db, call: Call, m: nat, currency: Currency)
    requires Writing(db, call.op) && Serial(db, call.op).outcome == call.outcome
    ensures EarnedBy(db, call.op, m, currency) == Earning(call, m, currency)
    ensures FundedBy(db, call.op, m, currency) == Funding(call, m, currency)
  {
    if call.op.Capture? { CaptureShows(db, call.op); }
    if call.op.Refund? { RefundShows(db, call.op); }
    if call.op.Fund? { FundShows(db, call.op); }
  }

  lemma CaptureShows(db: Db, op: Op)
    requires Writing(db, op) && op.Capture?
    ensures var outcome := Serial(db, op).outcome;
      outcome.Done? && outcome.view.amount == Moved(db, op).1.minor && outcome.view.currency == Moved(db, op).1.currency
  {
  }

  lemma RefundShows(db: Db, op: Op)
    requires Writing(db, op) && op.Refund?
    ensures var outcome := Serial(db, op).outcome;
      outcome.Done? && op.amount == Moved(db, op).1.minor && outcome.view.currency == Moved(db, op).1.currency
  {
  }

  lemma FundShows(db: Db, op: Op)
    requires Writing(db, op) && op.Fund?
    ensures Serial(db, op).outcome.Funded? && Moved(db, op).1 == Amount(op.amount, op.currency)
  {
  }

  lemma {:induction false} HistoryBooks(init: Db, history: seq<Call>, m: nat, currency: Currency)
    requires Fresh(init) && Faithful(init, history)
    ensures Position(Replay(init, history).ledger.entries, LedgerKey(m, MerchantReceivable, currency))
         == Earnings(history, m, currency)
    ensures Position(Replay(init, history).ledger.entries, LedgerKey(m, ProviderFunding, currency))
         == 0 - Fundings(history, m, currency)
    decreases |history|
  {
    if |history| == 0 {
    } else {
      var n := |history| - 1;
      LastCall(init, history);
      HistoryBooks(init, history[..n], m, currency);
      CallBooks(Replay(init, history[..n]), history[n], m, currency);
    }
  }

  // ---------------------------------------------------------------- idempotency keys

  lemma {:induction false} AnswerIsClaimed(init: Db, history: seq<Call>, i: nat)
    requires Fresh(init) && Faithful(init, history) && i < |history| && history[i].op.Create?
    ensures history[i].outcome.Done?
    ensures ClaimedAs(Replay(init, history), IdemKey(history[i].op.merchant, history[i].op.key),
                      history[i].op.request, history[i].outcome.view)
    decreases |history|
  {
    var n := |history| - 1;
    var before := Replay(init, history[..n]);
    ReplayIsLawful(init, history[..n]);
    LastCall(init, history);
    if i == n {
      CreationAnswers(before, history[n].op);
    } else {
      AnswerIsClaimed(init, history[..n], i);
      ClaimStays(before, history[n].op, IdemKey(history[i].op.merchant, history[i].op.key),
                 history[i].op.request, history[i].outcome.view);
    }
  }

  // ---------------------------------------------------------------- changes of one payment

  /** How many calls of the history changed this payment after its creation. */
  function ChangesOf(history: seq<Call>, p: nat): nat
  {
    if |history| == 0 then 0
    else ChangesOf(history[..|history| - 1], p) + (if Targets(history[|history| - 1].op, p) then 1 else 0)
  }

  lemma {:induction false} ChangesAreEvents(init: Db, history: seq<Call>, p: nat)
    requires Fresh(init) && Faithful(init, history)
    ensures |OutboxOf(Replay(init, history), p)| == ChangesOf(history, p) + One(p in Replay(init, history).payments)
    decreases |history|
  {
    if |history| == 0 {
    } else {
      var n := |history| - 1;
      var before, op := Replay(init, history[..n]), history[n].op;
      LastCall(init, history);
      ReplayIsLawful(init, history[..n]);
      ChangesAreEvents(init, history[..n], p);
      EventAdded(before, op, p);
    }
  }

  lemma EventAdded(db: Db, op: Op, p: nat)
    requires Accepted(db, op) && db.outbox.Keys == db.payments.Keys
    ensures |OutboxOf(After(db, op), p)| - One(p in After(db, op).payments)
         == |OutboxOf(db, p)| - One(p in db.payments) + One(Targets(op, p))
  {
    if Writing(db, op) {
      OutboxAfter(db, op);
      PaymentsAfter(db, op);
    } else {
      NothingAfter(db, op);
    }
  }

  // ---------------------------------------------------------------- of every run

  predicate SameKey(x: Op, y: Op)
  {
    x.Create? && y.Create? && x.merchant == y.merchant && x.key == y.key
  }

  /** First wins: however creations under one key interleave and roll back, all that succeed asked for
      the same thing and are answered with the same body. */
  lemma FirstWins(init: Db, states: seq<Sys>, steps: seq<Step>, x: Call, y: Call)
    requires Reaches(init, states, steps) && x in states[|steps|].replies && y in states[|steps|].replies
    requires SameKey(x.op, y.op)
    ensures x.op.request == y.op.request && x.outcome == y.outcome && x.outcome.Done?
  {
    var history := Serializable(init, states, steps);
    assert x in multiset(states[|steps|].replies) && y in multiset(states[|steps|].replies);
    var i: nat :| i < |history| && history[i] == x;
    var j: nat :| j < |history| && history[j] == y;
    AnswerIsClaimed(init, history, i);
    AnswerIsClaimed(init, history, j);
  }

  /** However many captures of a payment race, at most one of them is ever answered. */
  lemma CapturedOnce(init: Db, states: seq<Sys>, steps: seq<Step>, i: nat, j: nat)
    requires Reaches(init, states, steps) && i < j < |states[|steps|].replies|
    requires states[|steps|].replies[i].op.Capture? && states[|steps|].replies[j].op.Capture?
    ensures states[|steps|].replies[i].op.payment != states[|steps|].replies[j].op.payment
  {
    var history := Serializable(init, states, steps);
    SettledCaptures(init, history, states[|steps|].replies, i, j);
  }

  /** A call that is not a persisted refusal has its place among the settled ones. */
  lemma {:induction false} SettledPlace(calls: seq<Call>, i: nat) returns (k: nat)
    requires i < |calls| && !calls[i].outcome.PersistedRefusal?
    ensures k < |Settled(calls)| && Settled(calls)[k] == calls[i] && k == |Settled(calls[..i])|
    decreases |calls|
  {
    var n := |calls| - 1;
    if i == n {
      k := |Settled(calls[..n])|;
    } else {
      k := SettledPlace(calls[..n], i);
      assert calls[..n][..i] == calls[..i];
    }
  }

  lemma {:induction false} SettledOrder(calls: seq<Call>, i: nat, j: nat)
    requires i < j <= |calls| && !calls[i].outcome.PersistedRefusal?
    ensures |Settled(calls[..i])| < |Settled(calls[..j])|
    decreases j
  {
    assert calls[..j][..j - 1] == calls[..j - 1];
    if i == j - 1 {
    } else {
      SettledOrder(calls, i, j - 1);
    }
  }

  lemma {:induction false} SettledSource(calls: seq<Call>, k: nat) returns (i: nat)
    requires k < |Settled(calls)|
    ensures i < |calls| && calls[i] == Settled(calls)[k] && k == |Settled(calls[..i])|
    decreases |calls|
  {
    var n := |calls| - 1;
    if k < |Settled(calls[..n])| {
      i := SettledSource(calls[..n], k);
      assert calls[..n][..i] == calls[..i];
    } else {
      i := n;
    }
  }

  lemma SettledCaptures(init: Db, history: seq<Call>, replies: seq<Call>, i: nat, j: nat)
    requires Faithful(init, history) && Settled(history) == Settled(replies) && i < j < |replies|
    requires multiset(history) == multiset(replies)
    requires replies[i].op.Capture? && replies[j].op.Capture?
    ensures replies[i].op.payment != replies[j].op.payment
  {
    CapturesSettle(init, history, replies, i);
    CapturesSettle(init, history, replies, j);
    var a := SettledPlace(replies, i);
    var b := SettledPlace(replies, j);
    SettledOrder(replies, i, j);
    var x := SettledSource(history, a);
    var y := SettledSource(history, b);
    if y <= x {
      if y < x { SettledOrder(history, y, x); }
      assert false;
    }
    CapturesDiffer(init, history, x, y);
  }

  /** A capture is never a persisted refusal. */
  lemma CapturesSettle(init: Db, history: seq<Call>, replies: seq<Call>, i: nat)
    requires Faithful(init, history) && multiset(history) == multiset(replies) && i < |replies|
      && replies[i].op.Capture?
    ensures !replies[i].outcome.PersistedRefusal?
  {
    assert replies[i] in multiset(history);
    var k: nat :| k < |history| && history[k] == replies[i];
    CallOutcome(init, history, k);
  }

  lemma {:induction false} CallOutcome(init: Db, history: seq<Call>, k: nat)
    requires Faithful(init, history) && k < |history| && history[k].op.Capture?
    ensures !history[k].outcome.PersistedRefusal?
    decreases |history|
  {
    if k == |history| - 1 {
    } else {
      CallOutcome(init, history[..|history| - 1], k);
    }
  }

  /** However many fundings of an account race, at most one of them is ever answered: the journal's reference is
      the account. */
  lemma FundedOnce(init: Db, states: seq<Sys>, steps: seq<Step>, i: nat, j: nat)
    requires Reaches(init, states, steps) && i < j < |states[|steps|].replies|
    requires states[|steps|].replies[i].op.Fund? && states[|steps|].replies[j].op.Fund?
    ensures states[|steps|].replies[i].op.account != states[|steps|].replies[j].op.account
  {
    var replies := states[|steps|].replies;
    var history := Serializable(init, states, steps);
    var x, y := TwoPlaces(replies, history, i, j);
    if x < y { FundingsDiffer(init, history, x, y); } else { FundingsDiffer(init, history, y, x); }
  }

  /** Two replies stand at two places of the history. */
  lemma TwoPlaces(replies: seq<Call>, history: seq<Call>, i: nat, j: nat) returns (x: nat, y: nat)
    requires multiset(history) == multiset(replies) && i < j < |replies|
    ensures x < |history| && y < |history| && x != y && history[x] == replies[i] && history[y] == replies[j]
  {
    assert replies[i] in multiset(history) && replies[j] in multiset(history);
    x :| 0 <= x < |history| && history[x] == replies[i];
    if replies[j] != replies[i] {
      y :| 0 <= y < |history| && history[y] == replies[j];
    } else {
      TwiceIn(replies, i, j);
      y := OtherPlace(history, x);
    }
  }

  lemma TwiceIn(calls: seq<Call>, i: nat, j: nat)
    requires i < j < |calls| && calls[i] == calls[j]
    ensures multiset(calls)[calls[i]] >= 2
  {
    assert calls == calls[..j] + [calls[j]] + calls[j + 1..];
    assert calls[..j][i] == calls[i] && calls[i] in calls[..j];
  }

  lemma OtherPlace(calls: seq<Call>, x: nat) returns (y: nat)
    requires x < |calls| && multiset(calls)[calls[x]] >= 2
    ensures y < |calls| && y != x && calls[y] == calls[x]
  {
    var rest := calls[..x] + calls[x + 1..];
    assert calls == calls[..x] + [calls[x]] + calls[x + 1..];
    assert multiset(calls) == multiset(rest) + multiset{calls[x]};
    assert calls[x] in rest;
    var k :| 0 <= k < |rest| && rest[k] == calls[x];
    y := if k < x then k else k + 1;
  }

  /** The books agree with what the callers were told: in every state of every run, the provider's account of a
      merchant stands for the answered fundings, its receivable for the answered captures less the answered
      refunds, and its customers' cash for the difference. */
  lemma BooksMatchReplies(init: Db, states: seq<Sys>, steps: seq<Step>, m: nat, currency: Currency)
    requires Reaches(init, states, steps)
    ensures var s := states[|steps|]; var entries := s.db.ledger.entries;
      && Sum(entries, KeySide(LedgerKey(m, ProviderFunding, currency), Credit))
           - Sum(entries, KeySide(LedgerKey(m, ProviderFunding, currency), Debit)) == Fundings(s.replies, m, currency)
      && Sum(entries, KeySide(LedgerKey(m, MerchantReceivable, currency), Debit))
           - Sum(entries, KeySide(LedgerKey(m, MerchantReceivable, currency), Credit))
         == Earnings(s.replies, m, currency)
      && Sum(entries, Held(CustomerCash, m, s.db.customers, currency))
         == Fundings(s.replies, m, currency) - Earnings(s.replies, m, currency)
  {
    var history := Serializable(init, states, steps);
    HistoryBooks(init, history, m, currency);
    SettledSums(history, m, currency);
    SettledSums(states[|steps|].replies, m, currency);
    ReachableIsLawful(init, states, steps);
    CustomersHold(states[|steps|].db, m, currency);
  }

  lemma {:induction false} CaptureIsRecorded(init: Db, history: seq<Call>, i: nat)
    requires Fresh(init) && Faithful(init, history) && i < |history| && history[i].op.Capture?
    ensures var db := Replay(init, history); var p := history[i].op.payment;
      PaymentsOk(db) && StoriesOk(db) && p in db.payments && db.payments[p].captured > 0
  {
    CaptureLeavesJournal(init, history, i, history[i].op.payment);
    ReplayIsLawful(init, history);
  }

  /** No capture without an authorization: once a capture has been answered, the payment's outbox rows begin with
      its creation, its authorization and its capture, in this order. */
  lemma CaptureFollowsAuthorization(init: Db, states: seq<Sys>, steps: seq<Step>, call: Call)
    requires Reaches(init, states, steps) && call in states[|steps|].replies && call.op.Capture?
    ensures call.op.payment in states[|steps|].db.outbox
    ensures var events := states[|steps|].db.outbox[call.op.payment];
      && |events| >= 3 && events[0].kind == PaymentCreated
      && events[1].kind == PaymentAuthorized && events[2].kind == PaymentCaptured
  {
    var history := Serializable(init, states, steps);
    assert call in multiset(states[|steps|].replies);
    var i: nat :| i < |history| && history[i] == call;
    CaptureIsRecorded(init, history, i);
    CapturedWasAuthorized(states[|steps|].db, call.op.payment);
  }

  /** A payment sees at most amount + 2 committed changes after its creation, each recorded by exactly
      one outbox row. */
  lemma ChangesAreBounded(init: Db, states: seq<Sys>, steps: seq<Step>, p: nat) returns (history: seq<Call>)
    requires Reaches(init, states, steps) && p in states[|steps|].db.payments
    ensures Explains(init, states[|steps|], history)
    ensures ChangesOf(history, p) + 1 == |OutboxOf(states[|steps|].db, p)| <= states[|steps|].db.payments[p].amount + 3
  {
    history := Serializable(init, states, steps);
    ReplayIsLawful(init, history);
    ChangesAreEvents(init, history, p);
    EventsAreBounded(states[|steps|].db, p);
  }

  // ---------------------------------------------------------------- committed changes

  /** What a commit may do to a payment: nothing, or follow an edge of the lifecycle and use up potential. */
  predicate MovesOn(before: Payment, after: Payment)
  {
    after == before || (Continues(before, after) && Potential(after) < Potential(before))
  }

  lemma SerialMovesOn(db: Db, op: Op, p: nat)
    requires PaymentsOk(db) && p in db.payments
    ensures p in Serial(db, op).db.payments && MovesOn(db.payments[p], Serial(db, op).db.payments[p])
  {
    assert Serial(db, op).db == After(db, op);
    if Writing(db, op) {
      PaymentsAfter(db, op);
      if !op.Fund? && !op.Create? {
        RowLeftOk(db, op);
        ChangeFits(db, op);
      }
    } else {
      NothingAfter(db, op);
    }
  }

  lemma RefusalMovesOn(db: Db, t: Txn, p: nat)
    requires TxnOk(db, t) && t.pc == Ready(Insufficient) && p in db.payments
    ensures p in Apply(db, Buffer(t)).payments && MovesOn(db.payments[p], Apply(db, Buffer(t)).payments[p])
  {
    InsufficientIsDeciding(db, t);
    HeldWhileDeciding(db, t);
  }

  lemma CommitMovesOn(db: Db, t: Txn, p: nat)
    requires PaymentsOk(db) && TxnOk(db, t) && t.pc.Ready? && p in db.payments
    ensures p in Apply(db, Buffer(t)).payments && MovesOn(db.payments[p], Apply(db, Buffer(t)).payments[p])
  {
    if t.pc.verdict == Insufficient {
      RefusalMovesOn(db, t, p);
    } else {
      CommitIsSerial(db, t);
      SerialMovesOn(db, t.op, p);
    }
  }

  /** In every run, no step deletes a payment, and every committed change of one follows an edge of the
      transition table, although refunds and refusals assign the status without asking it. */
  lemma EveryChangeIsAnEdge(init: Db, states: seq<Sys>, steps: seq<Step>, p: nat)
    requires Reaches(init, states, steps) && |steps| > 0 && p in states[|steps| - 1].db.payments
    ensures p in states[|steps|].db.payments
    ensures MovesOn(states[|steps| - 1].db.payments[p], states[|steps|].db.payments[p])
    ensures states[|steps|].db.payments[p] != states[|steps| - 1].db.payments[p] ==>
      Transition(states[|steps| - 1].db.payments[p].status, states[|steps|].db.payments[p].status)
  {
    var n := |steps| - 1;
    var s := states[n];
    RunsAreIsolated(init, states[..n + 1], steps[..n]);
    ReachableIsLawful(init, states[..n + 1], steps[..n]);
    StepMovesOn(s, steps[n], p);
    InTable(s.db.payments[p], states[n + 1].db.payments[p]);
  }

  lemma InTable(before: Payment, after: Payment)
    requires MovesOn(before, after)
    ensures after != before ==> Transition(before.status, after.status)
  {
  }

  lemma StepMovesOn(s: Sys, step: Step, p: nat)
    requires Isolated(s) && PaymentsOk(s.db) && Enabled(s, step) && p in s.db.payments
    ensures p in Next(s, step).db.payments && MovesOn(s.db.payments[p], Next(s, step).db.payments[p])
  {
    if step.Exec? && Statement(s.db, Locked(s.db, s.txns[step.id])).Commit? {
      CommitReady(s.db, s.txns[step.id]);
      CommitMovesOn(s.db, s.txns[step.id], p);
    }
  }
}
