/** The consumer's loop run alone: message after message it handles what it can, stops at the first event
    without a payment id, and does what a run of the concurrent system does
    (services/payment_service/app/workers/event_consumer.py, services/payment_service/app/service.py). */
module EventConsumer {
  import opened Money
  import opened Database
  import Publisher
  import opened EventLog
  import opened Inbox

  /** One message handled and its offset committed. */
  function Past(b: Box, m: Message): Box
  {
    var next := b.(offset := b.offset + 1);
    if Settled(b, m) then next
    else next.(processed := b.processed + {m.id}, deliveries := b.deliveries + Keys(Matching(b, m), m.id))
  }

  /** Everything from the committed offset on, up to the first message that cannot be handled. */
  function Consumed(b: Box): Box
    decreases |b.log| - b.offset
  {
    if b.offset >= |b.log| || !Passable(b, b.log[b.offset]) then b else Consumed(Past(b, b.log[b.offset]))
  }

  // ---------------------------------------------------------------- the loop

  /** The database as one consumer sees it, and its group's offset. */
  class Worker {
    const payments: map<nat, nat>
    const endpoints: map<nat, Endpoint>
    var log: seq<Message>
    var offset: nat
    var processed: set<EventId>
    var deliveries: set<DeliveryKey>

    function Contents(): Box
      reads this
    {
      Box(log, offset, payments, endpoints, processed, deliveries, map[])
    }

    predicate Valid()
      reads this
    {
      forall d :: d in deliveries ==> d.event in processed
    }

    constructor (b: Box)
      requires NoStrays(b)
      ensures Valid() && Contents() == b.(consumers := map[])
    {
      payments, endpoints := b.payments, b.endpoints;
      log, offset, processed, deliveries := b.log, b.offset, b.processed, b.deliveries;
    }

    /** The candidates that subscribe to the type. */
    function Due(candidates: set<nat>, eventType: EventType): set<nat>
    {
      set k | k in candidates && k in endpoints && eventType in endpoints[k].eventTypes
    }

    method MarkEventProcessed(id: EventId) returns (claimed: bool)
      modifies this`processed
      ensures claimed == (id !in old(processed)) && processed == old(processed) + {id}
    {
      claimed := id !in processed;
      if claimed { processed := processed + {id}; }
    }

    /** `ok` is false when an exception is raised: a payload without `payment_id`, or a second delivery
        for the same endpoint and event. Without one, the added rows are exactly those still missing. */
    method ProcessPaymentEvent(m: Message) returns (ok: bool)
      requires Valid() && m.Envelope?
      modifies this`processed, this`deliveries
      ensures ok <==> Passable(old(Contents()), m)
      ensures ok ==> Contents() == Past(old(Contents()), m).(offset := old(offset))
      ensures ok && m.id !in old(processed) ==> processed == old(processed) + {m.id} && forall k ::
        DeliveryKey(k, m.id) in deliveries <==>
          && m.payment.value in payments && k in endpoints && endpoints[k].merchant == payments[m.payment.value]
          && endpoints[k].enabled && m.eventType in endpoints[k].eventTypes
    {
      ghost var before := Contents();
      var claimed := MarkEventProcessed(m.id);
      if !claimed { return true; }
      if m.payment.None? { return false; }
      if m.payment.value !in payments {
        assert Matching(before, m) == {};
        assert deliveries == before.deliveries + Keys({}, m.id);
        return true;
      }
      var merchant := payments[m.payment.value];
      var rest := set k | k in endpoints && endpoints[k].merchant == merchant && endpoints[k].enabled;
      ghost var all := rest;
      while rest != {}
        invariant rest <= all && processed == before.processed + {m.id}
        invariant deliveries == before.deliveries
          + Keys(Due(all - rest, m.eventType), m.id)
        decreases rest
      {
        var k :| k in rest;
        ghost var done := all - rest;
        rest := rest - {k};
        if m.eventType in endpoints[k].eventTypes {
          if DeliveryKey(k, m.id) in deliveries { return false; }
          deliveries := deliveries + {DeliveryKey(k, m.id)};
          assert Due(all - rest, m.eventType) == Due(done, m.eventType) + {k};
          assert Keys(Due(done, m.eventType) + {k}, m.id) == Keys(Due(done, m.eventType), m.id)
            + {DeliveryKey(k, m.id)};
        } else {
          assert Due(all - rest, m.eventType) == Due(done, m.eventType);
        }
      }
      assert Due(all - rest, m.eventType) == Subscribed(before, merchant, m.eventType);
      assert deliveries == before.deliveries + Keys(Matching(before, m), m.id);
      ok := true;
    }

    /** Each message in its own transaction, rolled back when processing raises; then the worker stops. */
    method Consume()
      requires Valid()
      modifies this
      ensures Valid() && Contents() == Consumed(old(Contents()))
    {
      while offset < |log|
        invariant Valid() && Consumed(Contents()) == Consumed(old(Contents()))
        decreases |log| - offset
      {
        var m := log[offset];
        if m.Envelope? {
          var processedBefore, deliveriesBefore := processed, deliveries;
          var ok := ProcessPaymentEvent(m);
          if !ok {
            processed, deliveries := processedBefore, deliveriesBefore;
            return;
          }
        }
        offset := offset + 1;
      }
    }
  }

  // ---------------------------------------------------------------- the loop is a run of the system

  /** One consumer, at the committed offset. */
  function With(b: Box, stage: Stage): Box { b.(consumers := map[0 := Consumer(b.offset, stage)]) }

  function Works(b: Box, n: nat): Option<Box>
    decreases n
  {
    if n == 0 then Some(b)
    else if 0 !in b.consumers || b.consumers[0].position >= |b.log| || b.consumers.Keys != {0} then None
    else Works(WorkStep(b, 0), n - 1)
  }

  lemma {:induction false} WorksAreRun(b: Box, n: nat) returns (states: seq<Box>, moves: seq<Move>)
    requires Works(b, n).Some?
    ensures IsRun(states, moves) && states[0] == b && states[|moves|] == Works(b, n).value
    decreases n
  {
    if n == 0 {
      states, moves := [b], [];
    } else {
      assert Enabled(b, Work(0));
      var rest, later := WorksAreRun(WorkStep(b, 0), n - 1);
      Prepend(b, Work(0), rest, later);
      states, moves := [b] + rest, [Work(0)] + later;
    }
  }

  /** A statement that only moves the consumer on. */
  lemma OneWork(b: Box, stage: Stage, t: Box, n: nat)
    requires b.offset < |b.log| && WorkStep(With(b, stage), 0) == t && n > 0
    ensures Works(With(b, stage), n) == Works(t, n - 1)
  {
  }

  lemma Restaged(b: Box, stage: Stage, next: Stage)
    ensures SetStage(With(b, stage), 0, next) == With(b, next)
    ensures OffsetCommitted(With(b, stage), 0) == With(b.(offset := b.offset + 1), Fetched)
  {
    assert SetStage(With(b, stage), 0, next).consumers == With(b, next).consumers;
    assert OffsetCommitted(With(b, stage), 0).consumers == With(b.(offset := b.offset + 1), Fetched).consumers;
  }

  /** From the claim of a new event to the commit of its deliveries. */
  lemma ClaimIsCommitted(b: Box, m: Message, n: nat)
    requires NoStrays(b) && b.offset < |b.log| && m == b.log[b.offset] && !Settled(b, m) && m.payment.Some? && n >= 2
    ensures var t := With(b.(processed := b.processed + {m.id},
      deliveries := b.deliveries + Keys(Matching(b, m), m.id)), Handled);
      Works(With(b, Chosen(Matching(b, m))), n) == Works(t, n - 1)
  {
    var t := b.(processed := b.processed + {m.id}, deliveries := b.deliveries + Keys(Matching(b, m), m.id));
    Restaged(b, Chosen(Matching(b, m)), Handled);
    OneWork(b, Chosen(Matching(b, m)), With(t, Handled), n);
  }

  lemma ClaimIsChosen(b: Box, m: Message) returns (n: nat)
    requires b.offset < |b.log| && m == b.log[b.offset] && !Settled(b, m) && m.payment.Some?
    ensures n >= 2 && Works(With(b, Fetched), n + 2) == Works(With(b, Chosen(Matching(b, m))), 2)
  {
    Restaged(b, Fetched, Claimed);
    if m.payment.value in b.payments {
      n := 3;
      var merchant := b.payments[m.payment.value];
      Restaged(b, Claimed, Loaded(merchant));
      Restaged(b, Loaded(merchant), Chosen(Matching(b, m)));
      OneWork(b, Fetched, With(b, Claimed), 5);
      OneWork(b, Claimed, With(b, Loaded(merchant)), 4);
      OneWork(b, Loaded(merchant), With(b, Chosen(Matching(b, m))), 3);
    } else {
      n := 2;
      Restaged(b, Claimed, Chosen(Matching(b, m)));
      OneWork(b, Fetched, With(b, Claimed), 4);
      OneWork(b, Claimed, With(b, Chosen(Matching(b, m))), 3);
    }
  }

  /** The statements of a new event, together, are `Past`. */
  lemma EventIsWorks(b: Box, m: Message) returns (n: nat)
    requires NoStrays(b) && b.offset < |b.log| && m == b.log[b.offset] && !Settled(b, m) && m.payment.Some?
    ensures Works(With(b, Fetched), n) == Some(With(Past(b, m), Fetched))
  {
    var t := b.(processed := b.processed + {m.id}, deliveries := b.deliveries + Keys(Matching(b, m), m.id));
    n := ClaimIsChosen(b, m);
    n := n + 2;
    ClaimIsCommitted(b, m, 2);
    Restaged(t, Handled, Handled);
    OneWork(t, Handled, With(Past(b, m), Fetched), 1);
  }

  /** The statements of one message, together, are `Past`. */
  lemma MessageIsWorks(b: Box) returns (n: nat)
    requires NoStrays(b) && b.offset < |b.log| && Passable(b, b.log[b.offset])
    ensures Works(With(b, Fetched), n) == Some(With(Past(b, b.log[b.offset]), Fetched))
  {
    var m := b.log[b.offset];
    if !Settled(b, m) {
      n := EventIsWorks(b, m);
    } else if m.Envelope? {
      n := 2;
      Restaged(b, Fetched, Handled);
      Restaged(b, Handled, Handled);
      OneWork(b, Fetched, With(b, Handled), 2);
      OneWork(b, Handled, With(Past(b, m), Fetched), 1);
    } else {
      n := 1;
      Restaged(b, Fetched, Fetched);
      OneWork(b, Fetched, With(Past(b, m), Fetched), 1);
    }
  }

  lemma {:induction false} WorksAdd(b: Box, n: nat, t: Box, k: nat)
    requires Works(b, n) == Some(t)
    ensures Works(b, n + k) == Works(t, k)
    decreases n
  {
    if n == 0 {
    } else {
      WorksAdd(WorkStep(b, 0), n - 1, t, k);
    }
  }

  lemma {:induction false} ConsumedIsWorks(b: Box) returns (n: nat)
    requires NoStrays(b)
    ensures Works(With(b, Fetched), n) == Some(With(Consumed(b), Fetched))
    decreases |b.log| - b.offset
  {
    if b.offset >= |b.log| || !Passable(b, b.log[b.offset]) {
      n := 0;
    } else {
      var first := MessageIsWorks(b);
      var t := Past(b, b.log[b.offset]);
      var rest := ConsumedIsWorks(t);
      WorksAdd(With(b, Fetched), first, With(t, Fetched), rest);
      n := first + rest;
    }
  }

  /** What the loop does is a run of one consumer that joins the group after a restart. */
  lemma ConsumedIsRun(b: Box) returns (states: seq<Box>, moves: seq<Move>)
    requires NoStrays(b) && b.consumers == map[]
    ensures IsRun(states, moves) && states[0] == b
      && states[|moves|].(consumers := map[]) == Consumed(b).(consumers := map[])
  {
    var n := ConsumedIsWorks(b);
    assert Next(b, Join(0)).consumers == With(b, Fetched).consumers;
    var rest, later := WorksAreRun(With(b, Fetched), n);
    Prepend(b, Join(0), rest, later);
    states, moves := [b] + rest, [Join(0)] + later;
  }

  // ---------------------------------------------------------------- the messages of the outbox

  /** The message published for an outbox row. */
  function MessageOf(e: Publisher.Row): Message
  {
    Envelope(EventId(e.payment, e.place), OfPayment(e.event.kind),
             if e.event.payload.EmptyPayload? then None else Some(e.event.payload.payment))
  }

  /** The topic holds messages of committed outbox rows only. */
  predicate FromOutbox(db: Db, b: Box, rows: seq<Publisher.Row>)
  {
    && |b.log| == |rows|
    && forall k :: 0 <= k < |rows| ==> Publisher.Committed(db.outbox, rows[k]) && b.log[k] == MessageOf(rows[k])
  }

  lemma OnlyCancellationsAreEmpty(db: Db, e: Publisher.Row)
    requires EventsOk(db) && Publisher.Committed(db.outbox, e)
    ensures MessageOf(e).payment == if e.event.kind == PaymentCancelled then None else Some(e.payment)
  {
    assert StoryOk(db.outbox[e.payment], e.payment, db.payments[e.payment]);
    assert e.event in db.outbox[e.payment];
  }

  lemma CancellationIsNeverProcessed(db: Db, states: seq<Box>, moves: seq<Move>, rows: seq<Publisher.Row>, k: nat)
    requires Reaches(states, moves) && EventsOk(db) && FromOutbox(db, states[|moves|], rows)
    requires k < |rows| && rows[k].event.kind == PaymentCancelled
    ensures EventId(rows[k].payment, rows[k].place) !in states[|moves|].processed
  {
    var b, id := states[|moves|], EventId(rows[k].payment, rows[k].place);
    ReachableBox(states, moves);
    if id in b.processed {
      assert HandledOnce(states, b, id);
      var m :| m in b.log && m.Envelope? && m.id == id && m.payment.Some?;
      var j :| 0 <= j < |b.log| && b.log[j] == m;
      assert rows[j] == rows[k];
      OnlyCancellationsAreEmpty(db, rows[k]);
      assert false;
    }
  }

  /** Fed by the outbox, the consumers can reach the end of the topic exactly when no payment was cancelled:
      a cancellation's empty payload stops every consumer that comes to it, and is never got past. */
  lemma DrainsIffNothingCancelled(db: Db, states: seq<Box>, moves: seq<Move>, rows: seq<Publisher.Row>)
    requires Reaches(states, moves) && EventsOk(db) && FromOutbox(db, states[|moves|], rows)
    ensures CanDrain(states[|moves|]) <==> forall k :: 0 <= k < |rows| ==> rows[k].event.kind != PaymentCancelled
  {
    var b := states[|moves|];
    ReachableBox(states, moves);
    DrainsIffClear(b);
    if k :| 0 <= k < |rows| && rows[k].event.kind == PaymentCancelled {
      CancellationIsNeverProcessed(db, states, moves, rows, k);
      if k < b.offset { PrefixSafety(states, moves, k); }
      assert !Settled(b, b.log[k]);
      forall j | 0 <= j <= k && b.log[j].Envelope? && b.log[j].id == b.log[k].id ensures b.log[j].payment.None?
      {
        assert rows[j] == rows[k];
        OnlyCancellationsAreEmpty(db, rows[k]);
      }
      assert !Carried(b, b.offset, k);
    } else {
      forall k | b.offset <= k < |b.log| && !Settled(b, b.log[k]) ensures Carried(b, b.offset, k)
      {
        OnlyCancellationsAreEmpty(db, rows[k]);
      }
    }
  }
}
