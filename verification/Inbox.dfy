/** The event consumer: messages are read from the log in order, each decodable one is handled in one
    database transaction that claims its event id and adds a webhook delivery for every subscribed
    endpoint, and the offset is committed afterwards. Consumers may be many, may crash at any point and
    may keep running after a rebalance; messages may be duplicated
    (services/payment_service/app/workers/event_consumer.py,
    services/payment_service/app/service.py, services/payment_service/app/infra/repositories.py). */
module Inbox {
  import opened Money
  import opened Database

  datatype EventId = EventId(payment: nat, place: nat)

  datatype EventType = OfPayment(kind: EventKind) | RiskApproved | RiskRejected | WebhookDeliveryFailed

  /** A message: `decode_event_payload` rejects it, or gives an envelope. `payment` is the inner payload's
      `payment_id`, when it has one. */
  datatype Message = Undecodable | Envelope(id: EventId, eventType: EventType, payment: Option<nat>)

  datatype Endpoint = Endpoint(merchant: nat, enabled: bool, eventTypes: set<EventType>)

  datatype DeliveryKey = DeliveryKey(endpoint: nat, event: EventId)

  // ---------------------------------------------------------------- the system

  /** Where a consumer is with the message at its position. */
  datatype Stage =
    | Fetched
    | Claimed                            // the processed_events row is inserted, not yet committed
    | Loaded(merchant: nat)              // the payment has been read
    | Chosen(endpoints: set<nat>)        // the deliveries have been added to the session
    | Handled                            // the database has committed, the offset has not

  datatype Consumer = Consumer(position: nat, stage: Stage)

  /** `payments` gives the merchant of each payment; `deliveries` holds the unique keys of the rows. */
  datatype Box = Box(
    log: seq<Message>,
    offset: nat,
    payments: map<nat, nat>,
    endpoints: map<nat, Endpoint>,
    processed: set<EventId>,
    deliveries: set<DeliveryKey>,
    consumers: map<nat, Consumer>)

  datatype Move =
    | Publish(message: Message)
    | AddPayment(payment: nat, merchant: nat)
    | SetEndpoint(endpoint: nat, row: Endpoint)
    | Join(consumer: nat)                // start reading at the committed offset
    | Work(consumer: nat)                // the consumer's next statement
    | Crash(consumer: nat)

  predicate InTransaction(stage: Stage) { stage.Claimed? || stage.Loaded? || stage.Chosen? }

  /** The consumer is at an envelope with this event id. */
  predicate At(b: Box, c: Consumer, id: EventId)
  {
    c.position < |b.log| && b.log[c.position].Envelope? && b.log[c.position].id == id
  }

  /** Its uncommitted `processed_events` row makes other claims of the event wait. */
  predicate Claims(b: Box, consumer: nat, id: EventId)
  {
    consumer in b.consumers && InTransaction(b.consumers[consumer].stage) && At(b, b.consumers[consumer], id)
  }

  ghost predicate Enabled(b: Box, move: Move)
  {
    match move
    case Publish(_) => true
    case AddPayment(payment, _) => payment !in b.payments
    case SetEndpoint(_, _) => true
    case Join(consumer) => consumer !in b.consumers
    case Work(consumer) =>
      && consumer in b.consumers && b.consumers[consumer].position < |b.log|
      && (b.consumers[consumer].stage == Fetched ==>
            forall id, other :: At(b, b.consumers[consumer], id) && other != consumer ==> !Claims(b, other, id))
    case Crash(consumer) => consumer in b.consumers
  }

  /** The merchant's endpoints that are enabled and subscribed to the message's type. */
  function Matching(b: Box, m: Message): set<nat>
    requires m.Envelope?
  {
    if m.payment.Some? && m.payment.value in b.payments then Subscribed(b, b.payments[m.payment.value], m.eventType)
      else {}
  }

  function Subscribed(b: Box, merchant: nat, eventType: EventType): set<nat>
  {
    set k | k in b.endpoints && b.endpoints[k].merchant == merchant && b.endpoints[k].enabled
            && eventType in b.endpoints[k].eventTypes
  }

  function Keys(endpoints: set<nat>, id: EventId): set<DeliveryKey> { set k | k in endpoints :: DeliveryKey(k, id) }

  /** The endpoints that have a delivery of the event. */
  function DeliveredTo(b: Box, id: EventId): set<nat> { set d | d in b.deliveries && d.event == id :: d.endpoint }

  function SetStage(b: Box, consumer: nat, stage: Stage): Box
    requires consumer in b.consumers
  {
    b.(consumers := b.consumers[consumer := b.consumers[consumer].(stage := stage)])
  }

  /** An exception that leaves the consumer's loop: the transaction is rolled back and the worker stops. */
  function Stopped(b: Box, consumer: nat): Box { b.(consumers := b.consumers - {consumer}) }

  function OffsetCommitted(b: Box, consumer: nat): Box
    requires consumer in b.consumers
  {
    var next := b.consumers[consumer].position + 1;
    b.(offset := next, consumers := b.consumers[consumer := Consumer(next, Fetched)])
  }

  /** Flush and commit: the unique key of the deliveries would stop a second one. */
  function Committed(b: Box, consumer: nat, endpoints: set<nat>, id: EventId): Box
    requires consumer in b.consumers
  {
    if exists k :: k in endpoints && DeliveryKey(k, id) in b.deliveries then Stopped(b, consumer)
    else SetStage(b, consumer, Handled).(processed := b.processed + {id},
      deliveries := b.deliveries + Keys(endpoints, id))
  }

  function WorkStep(b: Box, consumer: nat): Box
    requires consumer in b.consumers && b.consumers[consumer].position < |b.log|
  {
    var m := b.log[b.consumers[consumer].position];
    if m.Undecodable? then OffsetCommitted(b, consumer)
    else match b.consumers[consumer].stage
      case Fetched => SetStage(b, consumer, if m.id in b.processed then Handled else Claimed)
      case Claimed =>
        if m.payment.None? then Stopped(b, consumer)
        else if m.payment.value !in b.payments then SetStage(b, consumer, Chosen({}))
        else SetStage(b, consumer, Loaded(b.payments[m.payment.value]))
      case Loaded(merchant) => SetStage(b, consumer, Chosen(Subscribed(b, merchant, m.eventType)))
      case Chosen(endpoints) => Committed(b, consumer, endpoints, m.id)
      case Handled => OffsetCommitted(b, consumer)
  }

  function Next(b: Box, move: Move): Box
    requires Enabled(b, move)
  {
    match move
    case Publish(m) => b.(log := b.log + [m])
    case AddPayment(payment, merchant) => b.(payments := b.payments[payment := merchant])
    case SetEndpoint(endpoint, row) => b.(endpoints := b.endpoints[endpoint := row])
    case Join(consumer) => b.(consumers := b.consumers[consumer := Consumer(b.offset, Fetched)])
    case Work(consumer) => WorkStep(b, consumer)
    case Crash(consumer) => Stopped(b, consumer)
  }

  // ---------------------------------------------------------------- invariants

  /** The message needs no more work. */
  predicate Settled(b: Box, m: Message) { m.Undecodable? || m.id in b.processed }

  predicate PrefixSettled(b: Box, n: nat)
  {
    n <= |b.log| && forall k :: 0 <= k < n ==> Settled(b, b.log[k])
  }

  predicate ConsumerOk(b: Box, c: Consumer)
  {
    && PrefixSettled(b, c.position)
    && (c.stage != Fetched ==> c.position < |b.log| && b.log[c.position].Envelope?)
    && (c.stage == Handled ==> b.log[c.position].id in b.processed)
    && (InTransaction(c.stage) ==> b.log[c.position].id !in b.processed)
    && (c.stage.Loaded? ==> b.log[c.position].payment.Some? && b.log[c.position].payment.value in b.payments
                            && b.payments[b.log[c.position].payment.value] == c.stage.merchant)
    && (c.stage.Chosen? ==> b.log[c.position].payment.Some?)
  }

  ghost predicate ConsumersOk(b: Box)
  {
    && PrefixSettled(b, b.offset)
    && forall c :: c in b.consumers ==> ConsumerOk(b, b.consumers[c])
  }

  /** No two consumers work on the same event. */
  ghost predicate Exclusive(b: Box)
  {
    forall id, c, d :: Claims(b, c, id) && Claims(b, d, id) ==> c == d
  }

  /** Deliveries come with their event's `processed_events` row. */
  predicate NoStrays(b: Box)
  {
    forall d :: d in b.deliveries ==> d.event in b.processed
  }

  ghost predicate BoxOk(b: Box)
  {
    ConsumersOk(b) && Exclusive(b) && NoStrays(b)
  }

  /** Nothing settled becomes unsettled, and the log is append-only. */
  predicate Later(a: Box, b: Box)
  {
    && a.log <= b.log && a.processed <= b.processed && a.deliveries <= b.deliveries
    && forall p :: p in a.payments ==> p in b.payments && b.payments[p] == a.payments[p]
  }

  lemma NextIsLater(b: Box, move: Move)
    requires Enabled(b, move)
    ensures Later(b, Next(b, move))
  {
  }

  predicate Own(move: Move, c: nat) { (move.Work? || move.Join? || move.Crash?) && move.consumer == c }

  lemma OthersStay(b: Box, move: Move, c: nat)
    requires Enabled(b, move) && BoxOk(b) && c in Next(b, move).consumers && !Own(move, c)
    ensures c in b.consumers && Next(b, move).consumers[c] == b.consumers[c]
    ensures ConsumerOk(Next(b, move), b.consumers[c])
  {
    NextIsLater(b, move);
    var d := b.consumers[c];
    assert ConsumerOk(b, d);
    if InTransaction(d.stage) && move.Work? {
      assert Claims(b, c, b.log[d.position].id);
      assert !Claims(b, move.consumer, b.log[d.position].id);
    }
  }

  lemma OwnStays(b: Box, move: Move, c: nat)
    requires Enabled(b, move) && BoxOk(b) && c in Next(b, move).consumers && Own(move, c)
    ensures ConsumerOk(Next(b, move), Next(b, move).consumers[c])
  {
    NextIsLater(b, move);
    if move.Work? { WorkerStays(b, c); }
  }

  lemma WorkerStays(b: Box, c: nat)
    requires Enabled(b, Work(c)) && BoxOk(b) && c in WorkStep(b, c).consumers
    ensures ConsumerOk(WorkStep(b, c), WorkStep(b, c).consumers[c])
  {
    NextIsLater(b, Work(c));
    assert ConsumerOk(b, b.consumers[c]);
  }

  /** A claim is new or was held before. */
  lemma ClaimSource(b: Box, move: Move, c: nat, id: EventId)
    requires Enabled(b, move) && BoxOk(b) && Claims(Next(b, move), c, id)
    ensures Claims(b, c, id) || (move == Work(c) && At(b, b.consumers[c], id) && b.consumers[c].stage == Fetched)
  {
    if Own(move, c) {
      if move.Work? { assert ConsumerOk(b, b.consumers[c]); }
    } else {
      OthersStay(b, move, c);
      assert ConsumerOk(b, b.consumers[c]);
    }
  }

  lemma BoxKept(b: Box, move: Move)
    requires Enabled(b, move) && BoxOk(b)
    ensures BoxOk(Next(b, move))
  {
    var t := Next(b, move);
    NextIsLater(b, move);
    forall c | c in t.consumers ensures ConsumerOk(t, t.consumers[c])
    {
      if Own(move, c) { OwnStays(b, move, c); } else { OthersStay(b, move, c); }
    }
    if move.Work? { assert ConsumerOk(b, b.consumers[move.consumer]); }
    forall id, c, d | Claims(t, c, id) && Claims(t, d, id) ensures c == d
    {
      ClaimSource(b, move, c, id);
      ClaimSource(b, move, d, id);
    }
  }

  // ---------------------------------------------------------------- the effect happens once

  ghost predicate IsRun(states: seq<Box>, moves: seq<Move>)
  {
    && |states| == |moves| + 1
    && forall i :: 0 <= i < |moves| ==> Enabled(states[i], moves[i]) && states[i + 1] == Next(states[i], moves[i])
  }

  /** A run from an empty topic; payments and endpoints may exist already. */
  ghost predicate Reaches(states: seq<Box>, moves: seq<Move>)
  {
    && IsRun(states, moves)
    && states[0].log == [] && states[0].offset == 0 && states[0].processed == {} && states[0].deliveries == {}
    && states[0].consumers == map[]
  }

  /** The consumer holds the claim of the event, which nobody has processed. */
  ghost predicate Holding(b: Box, c: nat, m: Message)
    requires m.Envelope?
  {
    Claims(b, c, m.id) && m.id !in b.processed
  }

  ghost predicate HeldFrom(states: seq<Box>, j: nat, c: nat, m: Message)
    requires m.Envelope?
  {
    forall l :: j <= l < |states| ==> Holding(states[l], c, m)
  }

  /** In one state of the run, from which on the consumer has held the claim to the end, these were the
      endpoints to notify. */
  ghost predicate ReadUnderClaim(states: seq<Box>, c: nat, m: Message, endpoints: set<nat>)
    requires m.Envelope?
  {
    exists j: nat :: j < |states| && endpoints == Matching(states[j], m) && HeldFrom(states, j, c, m)
  }

  /** These endpoints were read under the very claim with which the event became processed in the `k`-th state. */
  ghost predicate ReadAndCommitted(states: seq<Box>, k: nat, c: nat, m: Message, endpoints: set<nat>)
    requires m.Envelope?
  {
    k < |states| && m.id in states[k].processed && ReadUnderClaim(states[..k], c, m, endpoints)
  }

  /** The event was handled once, for one of its messages. */
  ghost predicate HandledOnce(states: seq<Box>, b: Box, id: EventId)
  {
    exists m, k: nat, c: nat ::
      && m in b.log && m.Envelope? && m.id == id && m.payment.Some?
      && ReadAndCommitted(states, k, c, m, DeliveredTo(b, id))
  }

  ghost predicate ChoicesRead(states: seq<Box>, b: Box)
  {
    forall c :: c in b.consumers && b.consumers[c].stage.Chosen? && b.consumers[c].position < |b.log|
                && b.log[b.consumers[c].position].Envelope? ==>
      ReadUnderClaim(states, c, b.log[b.consumers[c].position], b.consumers[c].stage.endpoints)
  }

  ghost predicate RunOk(states: seq<Box>, b: Box)
  {
    && BoxOk(b) && ChoicesRead(states, b)
    && forall id :: id in b.processed ==> HandledOnce(states, b, id)
  }

  lemma ClaimLonger(states: seq<Box>, t: Box, c: nat, m: Message, endpoints: set<nat>)
    requires m.Envelope? && ReadUnderClaim(states, c, m, endpoints) && Holding(t, c, m)
    ensures ReadUnderClaim(states + [t], c, m, endpoints)
  {
    var j: nat :| j < |states| && endpoints == Matching(states[j], m) && HeldFrom(states, j, c, m);
    assert (states + [t])[j] == states[j];
    assert HeldFrom(states + [t], j, c, m);
  }

  lemma ClaimStarts(states: seq<Box>, b: Box, t: Box, c: nat, m: Message)
    requires m.Envelope? && |states| > 0 && states[|states| - 1] == b && Holding(b, c, m) && Holding(t, c, m)
    ensures ReadUnderClaim(states + [t], c, m, Matching(b, m))
  {
    var more, j := states + [t], |states| - 1;
    assert more[j] == b && more[j + 1] == t;
    assert HeldFrom(more, j, c, m);
  }

  lemma ChoiceRead(states: seq<Box>, b: Box, move: Move, c: nat)
    requires Enabled(b, move) && RunOk(states, b) && c in Next(b, move).consumers
    requires |states| > 0 && states[|states| - 1] == b
    requires Next(b, move).consumers[c].stage.Chosen?
    ensures ConsumerOk(Next(b, move), Next(b, move).consumers[c])
    ensures var t := Next(b, move);
      ReadUnderClaim(states + [t], c, t.log[t.consumers[c].position], t.consumers[c].stage.endpoints)
  {
    var t := Next(b, move);
    BoxKept(b, move);
    assert ConsumerOk(t, t.consumers[c]);
    var m := t.log[t.consumers[c].position];
    assert Holding(t, c, m);
    if Own(move, c) {
      assert ConsumerOk(b, b.consumers[c]);
      ClaimStarts(states, b, t, c, m);
    } else {
      OthersStay(b, move, c);
      assert ConsumerOk(b, b.consumers[c]);
      ClaimLonger(states, t, c, m, t.consumers[c].stage.endpoints);
    }
  }

  /** A commit delivers to the chosen endpoints and changes no other event's deliveries. */
  lemma CommitDelivers(b: Box, consumer: nat, endpoints: set<nat>, id: EventId)
    requires NoStrays(b) && id !in b.processed && consumer in b.consumers
    ensures var t := Committed(b, consumer, endpoints, id);
      && t.processed == b.processed + {id} && consumer in t.consumers
      && DeliveredTo(t, id) == endpoints
      && forall other :: other != id ==> DeliveredTo(t, other) == DeliveredTo(b, other)
  {
    var t := Committed(b, consumer, endpoints, id);
    forall k | k in endpoints ensures k in DeliveredTo(t, id)
    {
      assert DeliveryKey(k, id) in Keys(endpoints, id);
    }
    forall other, k | other != id && k in DeliveredTo(b, other) ensures k in DeliveredTo(t, other)
    {
      assert DeliveryKey(k, other) in t.deliveries;
    }
    forall other, k | other != id && k in DeliveredTo(t, other) ensures k in DeliveredTo(b, other)
    {
      assert DeliveryKey(k, other) in b.deliveries;
    }
  }

  lemma HandledStays(states: seq<Box>, b: Box, move: Move, id: EventId)
    requires Enabled(b, move) && RunOk(states, b) && id in Next(b, move).processed
    requires |states| > 0 && states[|states| - 1] == b
    ensures HandledOnce(states + [Next(b, move)], Next(b, move), id)
  {
    var t := Next(b, move);
    NextIsLater(b, move);
    if move.Work? && b.consumers[move.consumer].stage.Chosen? && b.log[b.consumers[move.consumer].position].Envelope? {
      var c := b.consumers[move.consumer];
      assert ConsumerOk(b, c);
      var m := b.log[c.position];
      CommitDelivers(b, move.consumer, c.stage.endpoints, m.id);
      if id == m.id {
        assert (states + [t])[..|states|] == states;
        assert ReadAndCommitted(states + [t], |states|, move.consumer, m, c.stage.endpoints);
        assert m in t.log;
        return;
      }
      assert DeliveredTo(t, id) == DeliveredTo(b, id);
    } else {
      assert t.deliveries == b.deliveries;
      assert DeliveredTo(t, id) == DeliveredTo(b, id);
    }
    assert HandledOnce(states, b, id);
    var m, k: nat, c: nat :| m in b.log && m.Envelope? && m.id == id && m.payment.Some?
                             && ReadAndCommitted(states, k, c, m, DeliveredTo(b, id));
    assert (states + [t])[..k] == states[..k];
    assert ReadAndCommitted(states + [t], k, c, m, DeliveredTo(t, id));
    assert m in t.log;
  }

  lemma ChoicesStayRead(states: seq<Box>, b: Box, move: Move)
    requires Enabled(b, move) && RunOk(states, b) && |states| > 0 && states[|states| - 1] == b
    ensures ChoicesRead(states + [Next(b, move)], Next(b, move))
  {
    var t := Next(b, move);
    forall c | c in t.consumers && t.consumers[c].stage.Chosen?
      ensures ConsumerOk(t, t.consumers[c])
      ensures ReadUnderClaim(states + [t], c, t.log[t.consumers[c].position], t.consumers[c].stage.endpoints)
    {
      ChoiceRead(states, b, move, c);
    }
  }

  lemma RunStaysOk(states: seq<Box>, b: Box, move: Move)
    requires Enabled(b, move) && RunOk(states, b) && |states| > 0 && states[|states| - 1] == b
    ensures RunOk(states + [Next(b, move)], Next(b, move))
  {
    var t := Next(b, move);
    BoxKept(b, move);
    ChoicesStayRead(states, b, move);
    forall id | id in t.processed ensures HandledOnce(states + [t], t, id)
    {
      HandledStays(states, b, move, id);
    }
  }

  lemma {:induction false} ReachableBox(states: seq<Box>, moves: seq<Move>)
    requires Reaches(states, moves)
    ensures RunOk(states, states[|moves|])
    decreases |moves|
  {
    if |moves| == 0 {
    } else {
      var n := |moves| - 1;
      ReachableBox(states[..n + 1], moves[..n]);
      RunStaysOk(states[..n + 1], states[n], moves[n]);
      assert states == states[..n + 1] + [states[n + 1]];
    }
  }

  /** Effectively once, under crashes, redeliveries and concurrent consumers. An event that is not processed has no
      delivery. One that is, became processed in the `k`-th state, for a message `m` that consumer `c` held the claim of
      from the `j`-th state on, and exactly those endpoints have a delivery of it that in the `j`-th state belonged to
      the merchant of the message's payment, were enabled and subscribed to its type. */
  lemma EffectivelyOnce(states: seq<Box>, moves: seq<Move>, id: EventId)
    returns (m: Message, c: nat, j: nat, k: nat)
    requires Reaches(states, moves)
    ensures id !in states[|moves|].processed ==> forall e :: DeliveryKey(e, id) !in states[|moves|].deliveries
    ensures id in states[|moves|].processed ==>
      && m in states[|moves|].log && m.Envelope? && m.id == id && m.payment.Some?
      && j < k <= |moves| && id in states[k].processed
      && forall l :: j <= l < k ==> Claims(states[l], c, id) && id !in states[l].processed
    ensures id in states[|moves|].processed ==> forall e ::
      DeliveryKey(e, id) in states[|moves|].deliveries <==>
        && m.payment.value in states[j].payments && e in states[j].endpoints
        && states[j].endpoints[e].merchant == states[j].payments[m.payment.value]
        && states[j].endpoints[e].enabled
        && m.eventType in states[j].endpoints[e].eventTypes
  {
    var b := states[|moves|];
    ReachableBox(states, moves);
    if id in b.processed {
      m, c, j, k := Handling(states, b, id);
      forall e ensures DeliveryKey(e, id) in b.deliveries <==> e in Matching(states[j], m)
      {
        Delivered(b, id, e);
      }
    } else {
      m, c, j, k := Undecodable, 0, 0, 0;
    }
  }

  lemma Delivered(b: Box, id: EventId, e: nat)
    ensures DeliveryKey(e, id) in b.deliveries <==> e in DeliveredTo(b, id)
  {
    if DeliveryKey(e, id) in b.deliveries { assert DeliveryKey(e, id).endpoint in DeliveredTo(b, id); }
  }

  /** The message, the claim and the reading behind a handled event. */
  lemma Handling(states: seq<Box>, b: Box, id: EventId) returns (m: Message, c: nat, j: nat, k: nat)
    requires HandledOnce(states, b, id)
    ensures m in b.log && m.Envelope? && m.id == id && m.payment.Some?
    ensures j < k < |states| && id in states[k].processed
    ensures forall l :: j <= l < k ==> Claims(states[l], c, id) && id !in states[l].processed
    ensures DeliveredTo(b, id) == Matching(states[j], m)
  {
    m, k, c :| m in b.log && m.Envelope? && m.id == id && m.payment.Some?
               && ReadAndCommitted(states, k, c, m, DeliveredTo(b, id));
    j :| j < |states[..k]| && DeliveredTo(b, id) == Matching(states[..k][j], m) && HeldFrom(states[..k], j, c, m);
    forall l | j <= l < k ensures Claims(states[l], c, id) && id !in states[l].processed
    {
      assert Holding(states[..k][l], c, m);
    }
  }

  /** No message is skipped: every one below the committed offset was undecodable or its event is processed. */
  lemma PrefixSafety(states: seq<Box>, moves: seq<Move>, k: nat)
    requires Reaches(states, moves) && k < states[|moves|].offset
    ensures k < |states[|moves|].log| && Settled(states[|moves|], states[|moves|].log[k])
  {
    ReachableBox(states, moves);
  }

  /** The unique key of the deliveries never stops a consumer: a chosen delivery is always new. */
  lemma NoDuplicateDelivery(states: seq<Box>, moves: seq<Move>, c: nat, k: nat)
    requires Reaches(states, moves) && c in states[|moves|].consumers
    requires states[|moves|].consumers[c].stage.Chosen? && k in states[|moves|].consumers[c].stage.endpoints
    ensures var b := states[|moves|];
      && b.consumers[c].position < |b.log| && b.log[b.consumers[c].position].Envelope?
      && DeliveryKey(k, b.log[b.consumers[c].position].id) !in b.deliveries
  {
    ReachableBox(states, moves);
    assert ConsumerOk(states[|moves|], states[|moves|].consumers[c]);
  }

  // ---------------------------------------------------------------- progress

  function StageNumber(stage: Stage): (n: nat)
    ensures n <= 4
  {
    match stage case Fetched => 0 case Claimed => 1 case Loaded(_) => 2 case Chosen(_) => 3 case Handled => 4
  }

  /** The consumer's backlog, counted in statements. */
  function Backlog(b: Box, c: Consumer): int { 5 * (|b.log| - c.position) - StageNumber(c.stage) }

  /** A message that a consumer can get past by its own work. */
  predicate Passable(b: Box, m: Message) { Settled(b, m) || m.payment.Some? }

  /** Each statement of a consumer that does not crash brings it nearer to the end of the log, when the
      message is undecodable, already processed or carries a payment id; */
  lemma WorkShrinksBacklog(b: Box, c: nat)
    requires BoxOk(b) && Enabled(b, Work(c)) && Passable(b, b.log[b.consumers[c].position])
    ensures var t := Next(b, Work(c));
      && c in t.consumers && 0 <= Backlog(t, t.consumers[c]) < Backlog(b, b.consumers[c])
      && b.consumers[c].position <= t.consumers[c].position <= b.consumers[c].position + 1
  {
    assert ConsumerOk(b, b.consumers[c]);
  }

  /** and otherwise it claims the event, fails, and leaves everything as it was. */
  lemma WorkStopsAtMissingPayment(b: Box, c: nat)
    requires BoxOk(b) && Enabled(b, Work(c)) && !Passable(b, b.log[b.consumers[c].position])
    ensures b.consumers[c].stage in {Fetched, Claimed}
    ensures var t := Next(b, Work(c));
      && t.(consumers := b.consumers) == b
      && (b.consumers[c].stage == Claimed ==> c !in t.consumers)
  {
    assert ConsumerOk(b, b.consumers[c]);
  }

  /** A message of the same event at or after `p`, and not after `k`, carries a payment id. */
  predicate Carried(b: Box, p: nat, k: nat)
    requires k < |b.log| && b.log[k].Envelope?
  {
    exists j :: p <= j <= k && b.log[j].Envelope? && b.log[j].id == b.log[k].id && b.log[j].payment.Some?
  }

  /** From position `p` on, each unprocessed event's first message carries a payment id. */
  predicate Clear(b: Box, p: nat)
  {
    forall k :: p <= k < |b.log| && !Settled(b, b.log[k]) ==> Carried(b, p, k)
  }

  lemma CarriedMoves(b: Box, t: Box, p: nat, q: nat, k: nat)
    requires t.log == b.log && k < |b.log| && b.log[k].Envelope? && Carried(b, p, k)
    requires p < |b.log| && (q == p || (q == p + 1 && Settled(t, t.log[p])))
    requires !Settled(t, t.log[k])
    ensures Carried(t, q, k)
  {
    var j :| p <= j <= k && b.log[j].Envelope? && b.log[j].id == b.log[k].id && b.log[j].payment.Some?;
    assert q <= j && t.log[j].id == t.log[k].id;
  }

  lemma ClearMoves(b: Box, t: Box, p: nat, q: nat)
    requires t.log == b.log && b.processed <= t.processed && p < |b.log|
    requires q == p || (q == p + 1 && Settled(t, t.log[p]))
    requires Clear(b, p)
    ensures Clear(t, q)
  {
    forall k: nat | q <= k < |t.log| && !Settled(t, t.log[k]) ensures Carried(t, q, k)
    {
      assert !Settled(b, b.log[k]) && Carried(b, p, k);
      CarriedMoves(b, t, p, q, k);
    }
  }

  /** What such a statement changes. */
  lemma WorkAdvances(b: Box, c: nat)
    requires BoxOk(b) && Enabled(b, Work(c)) && Passable(b, b.log[b.consumers[c].position])
    ensures var t, p := Next(b, Work(c)), b.consumers[c].position;
      && t.log == b.log && t.consumers.Keys == b.consumers.Keys && b.processed <= t.processed
      && (t.consumers[c].position == p || (t.consumers[c].position == p + 1 == t.offset && Settled(t, t.log[p])))
      && (t.consumers[c].position == p ==> t.offset == b.offset)
  {
    assert ConsumerOk(b, b.consumers[c]);
  }

  /** One statement of the only consumer, at a position from which the log is clear. */
  lemma DrainStep(b: Box, c: nat) returns (t: Box)
    requires BoxOk(b) && b.consumers.Keys == {c} && b.consumers[c].position < |b.log|
    requires Clear(b, b.consumers[c].position) && b.offset <= b.consumers[c].position
    ensures Enabled(b, Work(c)) && t == Next(b, Work(c)) && BoxOk(t) && t.log == b.log && t.consumers.Keys == {c}
    ensures 0 <= Backlog(t, t.consumers[c]) < Backlog(b, b.consumers[c])
    ensures Clear(t, t.consumers[c].position) && t.offset <= t.consumers[c].position <= |t.log|
    ensures t.consumers[c].position == |t.log| ==> t.offset == |t.log|
  {
    t := Next(b, Work(c));
    var p := b.consumers[c].position;
    assert Settled(b, b.log[p]) || Carried(b, p, p);
    WorkAdvances(b, c);
    WorkShrinksBacklog(b, c);
    BoxKept(b, Work(c));
    ClearMoves(b, t, p, t.consumers[c].position);
  }

  lemma Prepend(b: Box, move: Move, rest: seq<Box>, later: seq<Move>)
    requires Enabled(b, move) && IsRun(rest, later) && rest[0] == Next(b, move)
    ensures IsRun([b] + rest, [move] + later)
  {
  }

  lemma {:induction false} Drain(b: Box, c: nat) returns (states: seq<Box>, moves: seq<Move>)
    requires BoxOk(b) && b.consumers.Keys == {c} && Clear(b, b.consumers[c].position)
    requires b.offset <= b.consumers[c].position <= |b.log|
    requires b.consumers[c].position == |b.log| ==> b.offset == |b.log|
    ensures IsRun(states, moves) && states[0] == b
    ensures states[|moves|].offset == |b.log| == |states[|moves|].log|
    decreases Backlog(b, b.consumers[c])
  {
    if b.consumers[c].position == |b.log| {
      states, moves := [b], [];
    } else {
      var t := DrainStep(b, c);
      var rest, later := Drain(t, c);
      Prepend(b, Work(c), rest, later);
      states, moves := [b] + rest, [Work(c)] + later;
    }
  }

  /** The consumers are all at or before position `k`. */
  ghost predicate Held(b: Box, k: nat, id: EventId)
  {
    && id !in b.processed && b.offset <= k < |b.log|
    && forall c :: c in b.consumers ==> b.consumers[c].position <= k
  }

  lemma HeldStays(b: Box, move: Move, k: nat, id: EventId)
    requires Enabled(b, move) && BoxOk(b) && Held(b, k, id)
    requires b.log[k].Envelope? && b.log[k].id == id && !Carried(b, 0, k)
    ensures Held(Next(b, move), k, id)
  {
    NextIsLater(b, move);
    if move.Work? { assert ConsumerOk(b, b.consumers[move.consumer]); }
  }

  lemma UncarriedStays(a: Box, b: Box, k: nat)
    requires a.log <= b.log && k < |a.log| && a.log[k].Envelope? && !Carried(a, 0, k)
    ensures b.log[k] == a.log[k] && !Carried(b, 0, k)
  {
    assert forall j :: 0 <= j <= k ==> b.log[j] == a.log[j];
  }

  /** As long as no message of the event up to the one at `k` carries a payment id, no run ever processes the
      event or commits an offset past that message. */
  lemma {:induction false} HeldForever(states: seq<Box>, moves: seq<Move>, k: nat, id: EventId)
    requires IsRun(states, moves) && BoxOk(states[0]) && Held(states[0], k, id)
    requires states[0].log[k].Envelope? && states[0].log[k].id == id && !Carried(states[0], 0, k)
    ensures BoxOk(states[|moves|]) && states[0].log <= states[|moves|].log
    ensures Held(states[|moves|], k, id)
    decreases |moves|
  {
    if |moves| == 0 {
    } else {
      var n := |moves| - 1;
      HeldForever(states[..n + 1], moves[..n], k, id);
      NextIsLater(states[n], moves[n]);
      BoxKept(states[n], moves[n]);
      UncarriedStays(states[0], states[n], k);
      HeldStays(states[n], moves[n], k, id);
    }
  }

  ghost predicate CanDrain(b: Box)
  {
    exists states: seq<Box>, moves: seq<Move> ::
      IsRun(states, moves) && states[0] == b && states[|moves|].offset >= |b.log|
  }

  lemma DrainAlone(b: Box) returns (states: seq<Box>, moves: seq<Move>)
    requires BoxOk(b) && b.consumers == map[] && Clear(b, b.offset)
    ensures IsRun(states, moves) && states[0] == b && states[|moves|].offset == |b.log|
  {
    BoxKept(b, Join(0));
    var rest, later := Drain(Next(b, Join(0)), 0);
    Prepend(b, Join(0), rest, later);
    states, moves := [b] + rest, [Join(0)] + later;
  }

  /** Whatever the consumers are at, they can be restarted. */
  lemma {:induction false} DrainFromAny(b: Box) returns (states: seq<Box>, moves: seq<Move>)
    requires BoxOk(b) && Clear(b, b.offset)
    ensures IsRun(states, moves) && states[0] == b && states[|moves|].offset == |b.log|
    decreases |b.consumers|
  {
    if b.consumers == map[] {
      states, moves := DrainAlone(b);
    } else {
      var c :| c in b.consumers;
      var t := Next(b, Crash(c));
      BoxKept(b, Crash(c));
      FewerConsumers(b, c);
      var rest, later := DrainFromAny(t);
      Prepend(b, Crash(c), rest, later);
      states, moves := [b] + rest, [Crash(c)] + later;
    }
  }

  lemma FewerConsumers(b: Box, c: nat)
    requires c in b.consumers
    ensures |b.consumers - {c}| < |b.consumers|
  {
    assert b.consumers.Keys == (b.consumers - {c}).Keys + {c};
    assert |b.consumers.Keys| == |(b.consumers - {c}).Keys| + 1;
  }

  /** An unprocessed event whose messages from the offset on carry no payment id has none before it either. */
  lemma StuckIsHeld(b: Box, k: nat)
    requires BoxOk(b) && b.offset <= k < |b.log| && !Settled(b, b.log[k]) && !Carried(b, b.offset, k)
    ensures Held(b, k, b.log[k].id) && !Carried(b, 0, k)
  {
    forall c | c in b.consumers ensures b.consumers[c].position <= k { assert ConsumerOk(b, b.consumers[c]); }
    forall j | 0 <= j <= k && b.log[j].Envelope? && b.log[j].id == b.log[k].id ensures b.log[j].payment.None?
    {
      assert j < b.offset ==> Settled(b, b.log[j]);
    }
  }

  /** From any state, whatever its consumers are at, the end of the log can be reached exactly when every
      unprocessed event in it carries a payment id in its first message. */
  lemma DrainsIffClear(b: Box)
    requires BoxOk(b)
    ensures CanDrain(b) <==> Clear(b, b.offset)
  {
    if Clear(b, b.offset) {
      var states, moves := DrainFromAny(b);
    } else {
      var k: nat :| b.offset <= k < |b.log| && !Settled(b, b.log[k]) && !Carried(b, b.offset, k);
      StuckIsHeld(b, k);
      forall states: seq<Box>, moves: seq<Move> | IsRun(states, moves) && states[0] == b
        ensures states[|moves|].offset < |b.log|
      {
        HeldForever(states, moves, k, b.log[k].id);
      }
    }
  }
}
