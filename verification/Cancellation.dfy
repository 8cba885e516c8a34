/** A run in which a merchant cancels a payment and the event of the cancellation stops the consumer for good
    (services/payment_service/app/service.py, services/payment_service/app/workers/event_consumer.py). */
module Cancellation {
  import opened Money
  import opened Database
  import opened Transactions
  import Ledger
  import I = Inbox
  import C = EventConsumer
  import P = Publisher

  // ---------------------------------------------------------------- one call, with nobody else there

  /** The transaction after `n` statements that neither commit nor abort. */
  function Alone(db: Db, t: Txn, n: nat): Option<Txn>
    decreases n
  {
    if n == 0 then Some(t)
    else match Statement(db, Locked(db, t))
      case Continue(next) => Alone(db, next, n - 1)
      case _ => None
  }

  function Holding(db: Db, id: nat, t: Txn, replies: seq<Call>): Sys { Sys(db, map[id := t], replies) }

  function Ended(db: Db, id: nat, t: Txn, replies: seq<Call>): Sys
  {
    Sys(Apply(db, Buffer(t)), map[], replies + [Call(id, t.op, OutcomeOf(t))])
  }

  lemma CommitAlone(db: Db, id: nat, t: Txn, replies: seq<Call>)
    requires t.pc.Ready?
    ensures CanStep(Holding(db, id, t, replies), id)
    ensures Next(Holding(db, id, t, replies), Exec(id)) == Ended(db, id, t, replies)
  {
    ReadyCommits(db, t);
    assert map[id := t] - {id} == map[];
  }

  lemma ReadyCommits(db: Db, t: Txn)
    requires t.pc.Ready?
    ensures Locked(db, t) == t && Statement(db, t).Commit?
  {
  }

  lemma StepAlone(db: Db, id: nat, t: Txn, replies: seq<Call>)
    requires Statement(db, Locked(db, t)).Continue?
    ensures CanStep(Holding(db, id, t, replies), id)
    ensures Next(Holding(db, id, t, replies), Exec(id)) == Holding(db, id, Statement(db, Locked(db, t)).txn, replies)
  {
    var s, next := Holding(db, id, t, replies), Statement(db, Locked(db, t)).txn;
    assert s.txns[id := next] == map[id := next];
  }

  /** One step before a run. */
  lemma Before(s: Sys, step: Step, rest: seq<Sys>, later: seq<Step>)
    requires Enabled(s, step) && IsRun(rest, later) && rest[0] == Next(s, step)
    ensures IsRun([s] + rest, [step] + later)
  {
    var states, steps := [s] + rest, [step] + later;
    forall i | 0 <= i < |steps| ensures Enabled(states[i], steps[i]) && states[i + 1] == Next(states[i], steps[i])
    {
      if i > 0 { assert states[i] == rest[i - 1] && steps[i] == later[i - 1] && states[i + 1] == rest[i]; }
    }
  }

  /** The statements of a transaction and its commit, before a run that goes on from there. */
  lemma {:induction false} AloneIsRun(db: Db, id: nat, t: Txn, n: nat, replies: seq<Call>, rest: seq<Sys>,
    later: seq<Step>)
    returns (states: seq<Sys>, steps: seq<Step>)
    requires Alone(db, t, n).Some? && Alone(db, t, n).value.pc.Ready?
    requires IsRun(rest, later) && rest[0] == Ended(db, id, Alone(db, t, n).value, replies)
    ensures IsRun(states, steps) && states[0] == Holding(db, id, t, replies) && states[|steps|] == rest[|later|]
    decreases n
  {
    var s := Holding(db, id, t, replies);
    if n == 0 {
      CommitAlone(db, id, t, replies);
      Before(s, Exec(id), rest, later);
      states, steps := [s] + rest, [Exec(id)] + later;
    } else {
      StepAlone(db, id, t, replies);
      var more, then_ := AloneIsRun(db, id, Statement(db, Locked(db, t)).txn, n - 1, replies, rest, later);
      Before(s, Exec(id), more, then_);
      states, steps := [s] + more, [Exec(id)] + then_;
    }
  }

  /** A call opened and run to its commit while no other transaction is open, before a run that goes on from there. */
  lemma CallIsRun(db: Db, id: nat, op: Op, n: nat, replies: seq<Call>, rest: seq<Sys>, later: seq<Step>)
    returns (states: seq<Sys>, steps: seq<Step>)
    requires Alone(db, Begin(op), n).Some? && Alone(db, Begin(op), n).value.pc.Ready?
    requires IsRun(rest, later) && rest[0] == Ended(db, id, Alone(db, Begin(op), n).value, replies)
    ensures IsRun(states, steps) && states[0] == Sys(db, map[], replies) && states[|steps|] == rest[|later|]
  {
    var more, then_ := AloneIsRun(db, id, Begin(op), n, replies, rest, later);
    Before(Sys(db, map[], replies), Open(id, op), more, then_);
    states, steps := [Sys(db, map[], replies)] + more, [Open(id, op)] + then_;
  }

  // ---------------------------------------------------------------- the two calls

  const MERCHANT := 1
  const CUSTOMER := 2
  const PAYMENT := 3

  /** One merchant with one customer. */
  const START := Db({MERCHANT}, map[CUSTOMER := MERCHANT], map[], map[], map[], {}, Ledger.Tables(map[], []),
                    map[], map[], multiset{})
  const CREATION := Create(MERCHANT, "key", Request(CUSTOMER, 5, EUR), true, PAYMENT)
  const CANCELLATION := Cancel(MERCHANT, PAYMENT)
  const CREATED := Apply(START, CreateWrites(CREATION))

  lemma Unfold(db: Db, t: Txn, next: Txn, n: nat)
    requires n > 0 && Statement(db, Locked(db, t)) == Continue(next)
    ensures Alone(db, t, n) == Alone(db, next, n - 1)
  {
  }

  lemma CreationIsReady() returns (t: Txn)
    ensures Alone(START, Begin(CREATION), 4) == Some(t) && t.op == CREATION && t.pc == Ready(Proceed)
  {
    var t1 := Txn(CREATION, CheckRequest, Unread, {IdemRow(IdemKey(MERCHANT, "key"))}, {}, {});
    var t2 := t1.(pc := InsertPayment);
    var t3 := t1.(pc := ReferCustomer, excl := t1.excl + {PaymentRow(PAYMENT)});
    t := t3.(pc := Ready(Proceed), shared := {CustomerRow(CUSTOMER)});
    Unfold(START, Begin(CREATION), t1, 4);
    Unfold(START, t1, t2, 3);
    Unfold(START, t2, t3, 2);
    Unfold(START, t3, t, 1);
  }

  lemma CancellationIsReady() returns (t: Txn)
    ensures Alone(CREATED, Begin(CANCELLATION), 1) == Some(t)
    ensures t.op == CANCELLATION && t.pc == Ready(Proceed) && t.loaded == PaymentRead(NewPayment(CREATION))
  {
    assert CREATED.payments == map[PAYMENT := NewPayment(CREATION)];
    t := Txn(CANCELLATION, Ready(Proceed), PaymentRead(NewPayment(CREATION)), {PaymentRow(PAYMENT)}, {}, {});
    Unfold(CREATED, Begin(CANCELLATION), t, 1);
  }

  const STUCK := P.Row(PAYMENT, 1, Event(PaymentCancelled, EmptyPayload))

  /** The payment is created and cancelled, and the event of its cancellation is committed. */
  lemma PaymentCancels() returns (states: seq<Sys>, steps: seq<Step>)
    ensures Reaches(START, states, steps) && P.Committed(states[|steps|].db.outbox, STUCK)
  {
    var t := CreationIsReady();
    var u := CancellationIsReady();
    var replies := Ended(START, 0, t, []).replies;
    CreatedIs(t);
    var rest, later := CallIsRun(CREATED, 1, CANCELLATION, 1, replies, [Ended(CREATED, 1, u, replies)], []);
    states, steps := CallIsRun(START, 0, CREATION, 4, [], rest, later);
    CancellationNoted(u);
  }

  lemma CreatedIs(t: Txn)
    requires t.op == CREATION && t.pc == Ready(Proceed)
    ensures Ended(START, 0, t, []) == Sys(CREATED, map[], Ended(START, 0, t, []).replies)
  {
  }

  lemma CancellationNoted(t: Txn)
    requires t.op == CANCELLATION && t.pc == Ready(Proceed) && t.loaded == PaymentRead(NewPayment(CREATION))
    ensures P.Committed(Apply(CREATED, Buffer(t)).outbox, STUCK)
  {
    assert |CREATED.outbox[PAYMENT]| == 1;
    assert Apply(CREATED, Buffer(t)).outbox[PAYMENT] == CREATED.outbox[PAYMENT] + [STUCK.event];
  }

  // ---------------------------------------------------------------- the consumer

  const QUIET := I.Box([], 0, map[PAYMENT := MERCHANT], map[], {}, {}, map[])

  /** Its message is published, a consumer starts, claims the event, and stops. */
  lemma ConsumerStops() returns (states: seq<I.Box>, moves: seq<I.Move>)
    ensures I.Reaches(states, moves) && |moves| > 0
    ensures var b := states[|moves|];
      && b.log == [C.MessageOf(STUCK)] && b.offset == 0 && b.consumers == map[]
      && moves[|moves| - 1] == I.Work(0) && 0 in states[|moves| - 1].consumers
  {
    var s1 := I.Next(QUIET, I.Publish(C.MessageOf(STUCK)));
    var s2 := I.Next(s1, I.Join(0));
    assert s2.consumers == map[0 := I.Consumer(0, I.Fetched)];
    var s3 := I.Next(s2, I.Work(0));
    assert s3.consumers == map[0 := I.Consumer(0, I.Claimed)];
    var s4 := I.Next(s3, I.Work(0));
    assert s4.consumers == map[];
    states := [QUIET, s1, s2, s3, s4];
    moves := [I.Publish(C.MessageOf(STUCK)), I.Join(0), I.Work(0), I.Work(0)];
  }

  /** A reachable run of the payment service cancels a payment, and with its event in the topic a reachable run
      of the consumers comes to a state in which the consumer has stopped at it and none can ever drain the log. */
  lemma CancellationStopsConsumer()
    returns (states: seq<Sys>, steps: seq<Step>, boxes: seq<I.Box>, moves: seq<I.Move>)
    ensures Reaches(START, states, steps) && P.Committed(states[|steps|].db.outbox, STUCK)
    ensures I.Reaches(boxes, moves) && boxes[|moves|].log == [C.MessageOf(STUCK)]
    ensures |moves| > 0 && moves[|moves| - 1] == I.Work(0) && 0 in boxes[|moves| - 1].consumers
    ensures boxes[|moves|].consumers == map[] && boxes[|moves|].offset == 0 && !I.CanDrain(boxes[|moves|])
  {
    states, steps := PaymentCancels();
    boxes, moves := ConsumerStops();
    var b := boxes[|moves|];
    I.ReachableBox(boxes, moves);
    assert b.processed == {} by { Unprocessed(boxes, moves); }
    I.DrainsIffClear(b);
    assert !I.Settled(b, b.log[0]) && !I.Carried(b, 0, 0);
  }

  /** No message of the topic carries a payment id, so nothing can have been processed. */
  lemma Unprocessed(boxes: seq<I.Box>, moves: seq<I.Move>)
    requires I.Reaches(boxes, moves) && boxes[|moves|].log == [C.MessageOf(STUCK)]
    ensures boxes[|moves|].processed == {}
  {
    var b := boxes[|moves|];
    I.ReachableBox(boxes, moves);
    assert forall id :: id in b.processed ==> I.HandledOnce(boxes, b, id);
  }
}
