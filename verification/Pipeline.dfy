/** The payment service, the outbox publishers and the event consumers together: what the service commits, the
    publishers may send, and what they send, the consumers read. Each part's steps are those of its own module;
    the outbox, the topic and the payments are shared. */
module Pipeline {
  import opened Money
  import opened Database
  import opened EventConsumer
  import T = Transactions
  import P = Publisher
  import I = Inbox
  import EventLog
  import Isolation
  import Safety

  // ---------------------------------------------------------------- the composition

  datatype World = World(core: T.Sys, pipe: P.Pipe, box: I.Box)

  datatype Turn = Serve(step: T.Step) | Ship(move: P.Move) | Consume(work: I.Move)

  /** The consumers' moves of their own: they publish nothing and add no payments. */
  predicate Consuming(move: I.Move) { !move.Publish? && !move.AddPayment? }

  function Merchants(payments: map<nat, Payment>): map<nat, nat> { map p | p in payments :: payments[p].merchant }

  function Topic(log: seq<P.Row>): seq<I.Message> { seq(|log|, i requires 0 <= i < |log| => MessageOf(log[i])) }

  ghost predicate Enabled(w: World, turn: Turn)
  {
    match turn
    case Serve(step) => T.Enabled(w.core, step)
    case Ship(move) => !move.Pay? && P.Enabled(w.pipe, move)
    case Consume(work) => Consuming(work) && I.Enabled(w.box, work)
  }

  function Next(w: World, turn: Turn): World
    requires Enabled(w, turn)
  {
    match turn
    case Serve(step) =>
      var core := T.Next(w.core, step);
      World(core, w.pipe.(outbox := core.db.outbox), w.box.(payments := Merchants(core.db.payments)))
    case Ship(move) =>
      var pipe := P.Next(w.pipe, move);
      w.(pipe := pipe, box := w.box.(log := Topic(pipe.log)))
    case Consume(work) => w.(box := I.Next(w.box, work))
  }

  /** Nothing has happened yet; webhook endpoints may be registered. */
  ghost predicate Initial(w: World)
  {
    && Fresh(w.core.db) && w.core == T.Sys(w.core.db, map[], [])
    && P.Initial(w.pipe) && w.pipe.outbox == w.core.db.outbox
    && w.box == I.Box([], 0, map[], w.box.endpoints, {}, {}, map[])
  }

  ghost predicate IsRun(worlds: seq<World>, turns: seq<Turn>)
  {
    && |worlds| == |turns| + 1
    && forall i :: 0 <= i < |turns| ==> Enabled(worlds[i], turns[i]) && worlds[i + 1] == Next(worlds[i], turns[i])
  }

  ghost predicate Reaches(worlds: seq<World>, turns: seq<Turn>)
  {
    IsRun(worlds, turns) && Initial(worlds[0])
  }

  // ---------------------------------------------------------------- its parts run by their own rules

  /** The runs of the three parts that a run of the whole contains. */
  datatype Parts = Parts(
    states: seq<T.Sys>, steps: seq<T.Step>,
    pipes: seq<P.Pipe>, moves: seq<P.Move>,
    boxes: seq<I.Box>, works: seq<I.Move>)

  ghost predicate Served(w: World, init: Db, parts: Parts)
  {
    T.Reaches(init, parts.states, parts.steps) && parts.states[|parts.steps|] == w.core
  }

  ghost predicate Shipped(w: World, parts: Parts)
  {
    P.Reaches(parts.pipes, parts.moves) && parts.pipes[|parts.moves|] == w.pipe
  }

  ghost predicate Consumed(w: World, parts: Parts)
  {
    I.Reaches(parts.boxes, parts.works) && parts.boxes[|parts.works|] == w.box
  }

  /** What the parts share. */
  predicate Joined(w: World)
  {
    && w.pipe.outbox == w.core.db.outbox
    && w.box.log == Topic(w.pipe.log)
    && w.box.payments == Merchants(w.core.db.payments)
  }

  /** The payments that the topic's messages name are there. */
  predicate Fed(b: I.Box)
  {
    forall i :: 0 <= i < |b.log| && b.log[i].Envelope? && b.log[i].payment.Some? ==>
      b.log[i].payment.value in b.payments
  }

  ghost predicate Occurs(worlds: seq<World>, b: I.Box)
  {
    exists t :: 0 <= t < |worlds| && worlds[t].box == b
  }

  /** The consumers' states are those of the run, and each is fed. */
  ghost predicate BoxesOk(worlds: seq<World>, boxes: seq<I.Box>)
  {
    forall j :: 0 <= j < |boxes| ==> Fed(boxes[j]) && Occurs(worlds, boxes[j])
  }

  ghost predicate PartsOf(worlds: seq<World>, parts: Parts)
    requires |worlds| > 0
  {
    var w := worlds[|worlds| - 1];
    && Served(w, worlds[0].core.db, parts) && Shipped(w, parts) && Consumed(w, parts)
    && Joined(w) && BoxesOk(worlds, parts.boxes)
  }

  // ---------------------------------------------------------------- one turn

  lemma ServiceAppends(init: Db, states: seq<T.Sys>, steps: seq<T.Step>, step: T.Step)
    requires T.Reaches(init, states, steps) && T.Enabled(states[|steps|], step)
    ensures T.Reaches(init, states + [T.Next(states[|steps|], step)], steps + [step])
  {
  }

  lemma PublisherAppends(pipes: seq<P.Pipe>, moves: seq<P.Move>, move: P.Move)
    requires P.Reaches(pipes, moves) && P.Enabled(pipes[|moves|], move)
    ensures P.Reaches(pipes + [P.Next(pipes[|moves|], move)], moves + [move])
  {
  }

  lemma ConsumerAppends(boxes: seq<I.Box>, works: seq<I.Move>, move: I.Move)
    requires I.Reaches(boxes, works) && I.Enabled(boxes[|works|], move)
    ensures I.Reaches(boxes + [I.Next(boxes[|works|], move)], works + [move])
  {
  }

  /** The payments are the same, each with its merchant, or there is one more. */
  predicate Gains(before: map<nat, nat>, after: map<nat, nat>)
  {
    after == before || exists p :: p in after && p !in before && after == before[p := after[p]]
  }

  lemma RowsGain(payments: map<nat, Payment>, rows: map<nat, Payment>)
    requires forall p :: p in rows ==> p in payments && rows[p].merchant == payments[p].merchant
    ensures Merchants(payments + rows) == Merchants(payments)
  {
  }

  lemma OneGains(payments: map<nat, Payment>, p: nat, row: Payment)
    requires p !in payments
    ensures Gains(Merchants(payments), Merchants(payments + map[p := row]))
  {
    assert Merchants(payments + map[p := row]) == Merchants(payments)[p := row.merchant];
  }

  /** A write set touches the rows of its own payment only, and never changes whose it is. */
  lemma BufferKeepsMerchants(db: Db, t: T.Txn)
    requires Isolation.TxnOk(db, t) && t.pc.Ready? && !t.op.Create?
    ensures forall p :: p in T.Buffer(t).payments ==>
      p in db.payments && T.Buffer(t).payments[p].merchant == db.payments[p].merchant
  {
    match t.op
    case Fund(_, _, _, _, _) =>
    case Authorize(_, _) =>
    case Capture(_, _, _) =>
    case Cancel(_, _) =>
    case Refund(_, _, _, _, _) =>
  }

  lemma CreationBuffer(db: Db, t: T.Txn)
    requires Isolation.TxnOk(db, t) && t.pc.Ready? && t.op.Create?
    ensures T.Buffer(t).payments == map[]
         || (t.op.newId !in db.payments && T.Buffer(t).payments == map[t.op.newId := NewPayment(t.op)])
  {
  }

  /** A commit adds the payment of a creation, or none, and never changes whose a payment is. */
  lemma CommitMerchants(db: Db, t: T.Txn)
    requires Isolation.TxnOk(db, t) && t.pc.Ready?
    ensures Gains(Merchants(db.payments), Merchants(Apply(db, T.Buffer(t)).payments))
  {
    if t.op.Create? {
      CreationBuffer(db, t);
      if T.Buffer(t).payments == map[] {
        RowsGain(db.payments, map[]);
      } else {
        OneGains(db.payments, t.op.newId, NewPayment(t.op));
      }
    } else {
      BufferKeepsMerchants(db, t);
      RowsGain(db.payments, T.Buffer(t).payments);
    }
  }

  lemma StepMerchants(s: T.Sys, step: T.Step)
    requires Isolation.Isolated(s) && T.Enabled(s, step)
    ensures Gains(Merchants(s.db.payments), Merchants(T.Next(s, step).db.payments))
  {
    if step.Exec? && T.Statement(s.db, T.Locked(s.db, s.txns[step.id])).Commit? {
      Isolation.CommitStep(s, step.id);
      CommitMerchants(s.db, s.txns[step.id]);
    } else {
      Isolation.OnlyCommitsWrite(s, step);
    }
  }

  // ---------------------------------------------------------------- the parts go on

  lemma MoreBoxes(worlds: seq<World>, w: World, boxes: seq<I.Box>)
    requires BoxesOk(worlds, boxes)
    ensures BoxesOk(worlds + [w], boxes)
  {
    forall j | 0 <= j < |boxes| ensures Occurs(worlds + [w], boxes[j])
    {
      assert Occurs(worlds, boxes[j]);
      var t :| 0 <= t < |worlds| && worlds[t].box == boxes[j];
      assert (worlds + [w])[t] == worlds[t];
    }
  }

  lemma OneBox(worlds: seq<World>, w: World, boxes: seq<I.Box>)
    requires BoxesOk(worlds, boxes) && Fed(w.box)
    ensures BoxesOk(worlds + [w], boxes + [w.box])
  {
    MoreBoxes(worlds, w, boxes);
    assert (worlds + [w])[|worlds|] == w;
  }

  /** The consumers' run when payments are added. */
  lemma PaymentsArrive(worlds: seq<World>, t: World, boxes: seq<I.Box>, works: seq<I.Move>)
    returns (more: seq<I.Box>, moves: seq<I.Move>)
    requires I.Reaches(boxes, works) && BoxesOk(worlds, boxes)
    requires t.box == boxes[|works|].(payments := t.box.payments) && Gains(boxes[|works|].payments, t.box.payments)
    ensures I.Reaches(more, moves) && more[|moves|] == t.box && BoxesOk(worlds + [t], more)
  {
    var b := boxes[|works|];
    if t.box.payments == b.payments {
      MoreBoxes(worlds, t, boxes);
      more, moves := boxes, works;
    } else {
      var p :| p in t.box.payments && p !in b.payments && t.box.payments == b.payments[p := t.box.payments[p]];
      ConsumerAppends(boxes, works, I.AddPayment(p, t.box.payments[p]));
      assert Fed(b);
      OneBox(worlds, t, boxes);
      more, moves := boxes + [t.box], works + [I.AddPayment(p, t.box.payments[p])];
    }
  }

  lemma ServeGains(init: Db, states: seq<T.Sys>, steps: seq<T.Step>, step: T.Step)
    requires T.Reaches(init, states, steps) && T.Enabled(states[|steps|], step)
    ensures Gains(Merchants(states[|steps|].db.payments), Merchants(T.Next(states[|steps|], step).db.payments))
    ensures P.Grows(states[|steps|].db.outbox, T.Next(states[|steps|], step).db.outbox)
  {
    Isolation.RunsAreIsolated(init, states, steps);
    StepMerchants(states[|steps|], step);
    P.ServiceGrowsOutbox(states[|steps|], step);
  }

  lemma ServeKeepsParts(worlds: seq<World>, turn: Turn, parts: Parts) returns (more: Parts)
    requires |worlds| > 0 && PartsOf(worlds, parts) && turn.Serve? && Enabled(worlds[|worlds| - 1], turn)
    ensures PartsOf(worlds + [Next(worlds[|worlds| - 1], turn)], more)
  {
    var w := worlds[|worlds| - 1];
    var t := Next(w, turn);
    ServeGains(worlds[0].core.db, parts.states, parts.steps, turn.step);
    ServiceAppends(worlds[0].core.db, parts.states, parts.steps, turn.step);
    PublisherAppends(parts.pipes, parts.moves, P.Pay(t.core.db.outbox));
    var boxes, works := PaymentsArrive(worlds, t, parts.boxes, parts.works);
    more := Parts(parts.states + [t.core], parts.steps + [turn.step],
                  parts.pipes + [t.pipe], parts.moves + [P.Pay(t.core.db.outbox)], boxes, works);
    assert (worlds + [t])[0] == worlds[0];
  }

  lemma FedBox(worlds: seq<World>, parts: Parts)
    requires |worlds| > 0 && PartsOf(worlds, parts)
    ensures Fed(worlds[|worlds| - 1].box)
  {
    assert parts.boxes[|parts.works|] == worlds[|worlds| - 1].box;
  }

  /** A publisher's move leaves the log or adds one committed row to it. */
  lemma ShipWrites(s: P.Pipe, move: P.Move)
    requires P.PipeOk(s) && P.Enabled(s, move) && !move.Pay?
    ensures var t := P.Next(s, move);
      && t.outbox == s.outbox
      && (t.log == s.log || exists e :: P.Committed(s.outbox, e) && t.log == s.log + [e])
  {
    match move
    case Write(worker) =>
      assert P.WorkerOk(s, s.workers[worker]);
      assert s.workers[worker].rest[0] in P.Held(s.workers[worker]);
    case _ =>
  }

  lemma TopicGrows(log: seq<P.Row>, e: P.Row)
    ensures Topic(log + [e]) == Topic(log) + [MessageOf(e)]
  {
  }

  lemma RowIsFed(db: Db, e: P.Row)
    requires EventLog.EventsOk(db) && P.Committed(db.outbox, e)
    ensures MessageOf(e).payment.Some? ==> MessageOf(e).payment.value in Merchants(db.payments)
  {
    OnlyCancellationsAreEmpty(db, e);
  }

  /** The consumers' run when the topic grows. */
  lemma MessageArrives(worlds: seq<World>, t: World, boxes: seq<I.Box>, works: seq<I.Move>, log: seq<P.Row>, db: Db)
    returns (more: seq<I.Box>, moves: seq<I.Move>)
    requires I.Reaches(boxes, works) && BoxesOk(worlds, boxes) && EventLog.EventsOk(db)
    requires boxes[|works|].log == Topic(log) && boxes[|works|].payments == Merchants(db.payments)
    requires t.box == boxes[|works|].(log := Topic(t.pipe.log))
    requires t.pipe.log == log || exists e :: P.Committed(db.outbox, e) && t.pipe.log == log + [e]
    ensures I.Reaches(more, moves) && more[|moves|] == t.box && BoxesOk(worlds + [t], more)
  {
    if t.pipe.log == log {
      MoreBoxes(worlds, t, boxes);
      more, moves := boxes, works;
    } else {
      var e :| P.Committed(db.outbox, e) && t.pipe.log == log + [e];
      TopicGrows(log, e);
      ConsumerAppends(boxes, works, I.Publish(MessageOf(e)));
      RowIsFed(db, e);
      assert Fed(boxes[|works|]);
      OneBox(worlds, t, boxes);
      more, moves := boxes + [t.box], works + [I.Publish(MessageOf(e))];
    }
  }

  lemma EventsOkAt(init: Db, states: seq<T.Sys>, steps: seq<T.Step>)
    requires T.Reaches(init, states, steps)
    ensures EventLog.EventsOk(states[|steps|].db)
  {
    Safety.ReachableIsLawful(init, states, steps);
  }

  lemma ShipKeepsParts(worlds: seq<World>, turn: Turn, parts: Parts) returns (more: Parts)
    requires |worlds| > 0 && PartsOf(worlds, parts) && turn.Ship? && Enabled(worlds[|worlds| - 1], turn)
    ensures PartsOf(worlds + [Next(worlds[|worlds| - 1], turn)], more)
  {
    var w := worlds[|worlds| - 1];
    var t := Next(w, turn);
    P.ReachablePipe(parts.pipes, parts.moves);
    ShipWrites(w.pipe, turn.move);
    PublisherAppends(parts.pipes, parts.moves, turn.move);
    EventsOkAt(worlds[0].core.db, parts.states, parts.steps);
    var boxes, works := MessageArrives(worlds, t, parts.boxes, parts.works, w.pipe.log, w.core.db);
    more := parts.(pipes := parts.pipes + [t.pipe], moves := parts.moves + [turn.move], boxes := boxes, works := works);
    assert (worlds + [t])[0] == worlds[0];
  }

  lemma ConsumingTouches(b: I.Box, work: I.Move)
    requires Consuming(work) && I.Enabled(b, work)
    ensures I.Next(b, work).log == b.log && I.Next(b, work).payments == b.payments
  {
  }

  lemma ConsumeKeepsParts(worlds: seq<World>, turn: Turn, parts: Parts) returns (more: Parts)
    requires |worlds| > 0 && PartsOf(worlds, parts) && turn.Consume? && Enabled(worlds[|worlds| - 1], turn)
    ensures PartsOf(worlds + [Next(worlds[|worlds| - 1], turn)], more)
  {
    var w := worlds[|worlds| - 1];
    var t := Next(w, turn);
    ConsumerAppends(parts.boxes, parts.works, turn.work);
    ConsumingTouches(w.box, turn.work);
    FedBox(worlds, parts);
    OneBox(worlds, t, parts.boxes);
    more := parts.(boxes := parts.boxes + [t.box], works := parts.works + [turn.work]);
    assert (worlds + [t])[0] == worlds[0];
  }

  /** Every run of the whole is made of runs of the service, of the publishers and of the consumers. */
  lemma {:induction false} RunHasParts(worlds: seq<World>, turns: seq<Turn>) returns (parts: Parts)
    requires Reaches(worlds, turns)
    ensures PartsOf(worlds, parts)
    decreases |turns|
  {
    if |turns| == 0 {
      parts := FirstParts(worlds[0]);
      assert worlds == [worlds[0]];
    } else {
      var n := |turns| - 1;
      var shorter := worlds[..n + 1];
      Shorter(worlds, turns);
      var less := RunHasParts(shorter, turns[..n]);
      assert worlds == shorter + [Next(shorter[n], turns[n])];
      parts := TurnKeepsParts(shorter, turns[n], less);
    }
  }

  /** A run without its last turn is a run. */
  lemma Shorter(worlds: seq<World>, turns: seq<Turn>)
    requires Reaches(worlds, turns) && |turns| > 0
    ensures var n := |turns| - 1; var front := worlds[..n + 1];
      && Reaches(front, turns[..n]) && front[0] == worlds[0] && front[n] == worlds[n]
      && Enabled(worlds[n], turns[n]) && worlds[n + 1] == Next(worlds[n], turns[n])
  {
  }

  lemma FirstParts(w: World) returns (parts: Parts)
    requires Initial(w)
    ensures PartsOf([w], parts)
  {
    parts := Parts([w.core], [], [w.pipe], [], [w.box], []);
    assert Merchants(w.core.db.payments) == map[];
    assert [w][0] == w && Occurs([w], w.box);
  }

  lemma TurnKeepsParts(worlds: seq<World>, turn: Turn, parts: Parts) returns (more: Parts)
    requires |worlds| > 0 && PartsOf(worlds, parts) && Enabled(worlds[|worlds| - 1], turn)
    ensures PartsOf(worlds + [Next(worlds[|worlds| - 1], turn)], more)
  {
    match turn
    case Serve(_) => more := ServeKeepsParts(worlds, turn, parts);
    case Ship(_) => more := ShipKeepsParts(worlds, turn, parts);
    case Consume(_) => more := ConsumeKeepsParts(worlds, turn, parts);
  }

  // ---------------------------------------------------------------- from the outbox to the deliveries

  /** The topic holds messages of committed rows only. */
  lemma TopicFromOutbox(worlds: seq<World>, parts: Parts)
    requires |worlds| > 0 && PartsOf(worlds, parts)
    ensures var w := worlds[|worlds| - 1]; FromOutbox(w.core.db, w.box, w.pipe.log)
  {
    P.ReachablePipe(parts.pipes, parts.moves);
  }

  lemma {:induction false} LaterAll(boxes: seq<I.Box>, works: seq<I.Move>, j: nat)
    requires I.IsRun(boxes, works) && j <= |works|
    ensures I.Later(boxes[j], boxes[|works|])
    decreases |works|
  {
    if j == |works| {
    } else {
      var n := |works| - 1;
      LaterAll(boxes[..n + 1], works[..n], j);
      I.NextIsLater(boxes[n], works[n]);
    }
  }

  /** In a topic made from the outbox, a message is known by its event id. */
  lemma MessageOfId(db: Db, b: I.Box, rows: seq<P.Row>, m: I.Message, e: P.Row)
    requires FromOutbox(db, b, rows) && P.Committed(db.outbox, e)
    requires m in b.log && m.Envelope? && m.id == I.EventId(e.payment, e.place)
    ensures m == MessageOf(e)
  {
    var i :| 0 <= i < |b.log| && b.log[i] == m;
    assert rows[i] == e;
  }

  /** The message of a row, claimed by a consumer of a fed box, names its own payment, which the box knows. */
  lemma OwnPayment(db: Db, now: I.Box, rows: seq<P.Row>, b: I.Box, c: nat, e: P.Row)
    requires EventLog.EventsOk(db) && FromOutbox(db, now, rows) && P.Committed(db.outbox, e)
      && now.payments == Merchants(db.payments)
    requires Fed(b) && I.Later(b, now) && I.Claims(b, c, I.EventId(e.payment, e.place)) && MessageOf(e).payment.Some?
    ensures e.payment in db.payments && MessageOf(e).payment == Some(e.payment)
    ensures e.payment in b.payments && b.payments[e.payment] == db.payments[e.payment].merchant
  {
    var m := b.log[b.consumers[c].position];
    assert now.log[b.consumers[c].position] == m;
    MessageOfId(db, now, rows, m, e);
    OnlyCancellationsAreEmpty(db, e);
    assert e.payment in b.payments && now.payments[e.payment] == b.payments[e.payment];
  }

  /** From the commit of a payment's event to the merchant's endpoints: once the event of an outbox row is processed,
      exactly those endpoints have a delivery of it that belonged to its own payment's merchant, were enabled and
      subscribed to its type in one state of the run, under the claim it was processed with. */
  lemma EventsReachTheirMerchant(worlds: seq<World>, turns: seq<Turn>, e: P.Row) returns (b: I.Box, c: nat)
    requires Reaches(worlds, turns)
    requires var w := worlds[|turns|];
      P.Committed(w.core.db.outbox, e) && I.EventId(e.payment, e.place) in w.box.processed
    ensures Occurs(worlds, b) && I.Claims(b, c, I.EventId(e.payment, e.place))
    ensures e.payment in worlds[|turns|].core.db.payments
    ensures var w := worlds[|turns|]; forall k ::
      I.DeliveryKey(k, I.EventId(e.payment, e.place)) in w.box.deliveries <==>
        && k in b.endpoints && b.endpoints[k].merchant == w.core.db.payments[e.payment].merchant
        && b.endpoints[k].enabled && I.OfPayment(e.event.kind) in b.endpoints[k].eventTypes
  {
    var w, id := worlds[|turns|], I.EventId(e.payment, e.place);
    var parts := RunHasParts(worlds, turns);
    TopicFromOutbox(worlds, parts);
    EventsOkAt(worlds[0].core.db, parts.states, parts.steps);
    var m, j, k;
    m, c, j, k := I.EffectivelyOnce(parts.boxes, parts.works, id);
    b := parts.boxes[j];
    MessageOfId(w.core.db, w.box, w.pipe.log, m, e);
    LaterAll(parts.boxes, parts.works, j);
    OwnPayment(w.core.db, w.box, w.pipe.log, b, c, e);
  }

  /** In no state of the whole does a consumer look for a payment that is not there. */
  lemma PaymentIsFound(worlds: seq<World>, turns: seq<Turn>, c: nat)
    requires Reaches(worlds, turns) && c in worlds[|turns|].box.consumers
    requires worlds[|turns|].box.consumers[c].position < |worlds[|turns|].box.log|
    ensures var b := worlds[|turns|].box; var m := b.log[b.consumers[c].position];
      m.Envelope? && (m.payment.Some? ==> m.payment.value in b.payments)
  {
    var parts := RunHasParts(worlds, turns);
    FedBox(worlds, parts);
  }

  /** The consumers can reach the end of the topic from a state of the whole exactly when no event in the topic
      is a cancellation. */
  lemma TopicDrainsIffNothingCancelled(worlds: seq<World>, turns: seq<Turn>)
    requires Reaches(worlds, turns)
    ensures var w := worlds[|turns|];
      I.CanDrain(w.box) <==> forall e :: e in w.pipe.log ==> e.event.kind != PaymentCancelled
  {
    var w := worlds[|turns|];
    var parts := RunHasParts(worlds, turns);
    TopicFromOutbox(worlds, parts);
    EventsOkAt(worlds[0].core.db, parts.states, parts.steps);
    DrainsIffNothingCancelled(w.core.db, parts.boxes, parts.works, w.pipe.log);
  }
}
