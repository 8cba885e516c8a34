/** The outbox publisher: several publishers lock disjoint batches of unpublished outbox rows, send
    each row to Kafka and note the result, and commit or crash. A send may be written to the log
    although the client saw an error, even long afterwards
    (services/payment_service/app/workers/outbox_publisher.py,
    services/payment_service/app/infra/repositories.py). */
module Publisher {
  import opened Database
  import opened Transactions
  import opened Totals

  /** An outbox row: `place` tells the rows of one payment apart, so that the first two fields stand
      for `event_id`. The message sent for the row has the same content. */
  datatype Row = Row(payment: nat, place: nat, event: Event)

  type Outbox = map<nat, seq<Event>>

  predicate Committed(outbox: Outbox, e: Row)
  {
    e.payment in outbox && e.place < |outbox[e.payment]| && outbox[e.payment][e.place] == e.event
  }

  /** Committed outbox rows are never changed or removed. */
  predicate Grows(before: Outbox, after: Outbox)
  {
    forall p :: p in before ==> p in after && before[p] <= after[p]
  }

  lemma ServiceGrowsOutbox(s: Sys, step: Step)
    requires Transactions.Enabled(s, step)
    ensures Grows(s.db.outbox, Transactions.Next(s, step).db.outbox)
  {
  }

  const BATCH_LIMIT := 100

  // ---------------------------------------------------------------- the system

  datatype Sending = Idle | Waiting | Written

  /** A publisher's transaction: rows marked so far, and those still to be sent. */
  datatype Worker = Worker(acked: set<Row>, failed: set<Row>, rest: seq<Row>, sending: Sending)

  /** `published` and `retries` are the committed `published_at` and `retry_count` columns. Two history
      variables are added: `limbo` are the sends whose record the broker may still write although no
      publisher waits for it, and `lost` counts the sends of batches that were rolled back. */
  datatype Pipe = Pipe(
    outbox: Outbox,
    published: set<Row>,
    retries: multiset<Row>,
    log: seq<Row>,
    workers: map<nat, Worker>,
    limbo: multiset<Row>,
    lost: multiset<Row>)

  datatype Move =
    | Pay(outbox: Outbox)                      // the payment service commits more rows
    | Select(worker: nat, batch: seq<Row>)     // lock a batch of unpublished rows, skipping locked ones
    | Send(worker: nat)
    | Write(worker: nat)                       // the broker appends the record
    | Ack(worker: nat)
    | Raise(worker: nat)                       // a KafkaError, whether or not the record was written
    | CommitBatch(worker: nat)
    | Crash(worker: nat)
    | LateWrite(row: Row)

  function Members(rows: seq<Row>): set<Row> { set e | e in rows }

  predicate Distinct(rows: seq<Row>)
  {
    forall i, j :: 0 <= i < j < |rows| ==> rows[i] != rows[j]
  }

  function Held(w: Worker): set<Row> { w.acked + w.failed + Members(w.rest) }

  predicate InFlight(w: Worker, e: Row) { w.sending != Idle && |w.rest| > 0 && w.rest[0] == e }

  /** The row was sent by this batch. */
  predicate Sent(w: Worker, e: Row) { e in w.acked || e in w.failed || InFlight(w, e) }

  /** The row was sent by this batch and its record is not in the log yet. */
  predicate Unwritten(w: Worker, e: Row) { w.sending == Waiting && InFlight(w, e) }

  ghost predicate Enabled(s: Pipe, move: Move)
  {
    match move
    case Pay(outbox) => Grows(s.outbox, outbox)
    case Select(worker, batch) =>
      && worker !in s.workers && |batch| <= BATCH_LIMIT && Distinct(batch)
      && forall e :: e in batch ==> Committed(s.outbox, e) && e !in s.published
                                    && forall w :: w in s.workers ==> e !in Held(s.workers[w])
    case Send(worker) => worker in s.workers && s.workers[worker].sending == Idle && |s.workers[worker].rest| > 0
    case Write(worker) => worker in s.workers && s.workers[worker].sending == Waiting && |s.workers[worker].rest| > 0
    case Ack(worker) => worker in s.workers && s.workers[worker].sending == Written && |s.workers[worker].rest| > 0
    case Raise(worker) => worker in s.workers && s.workers[worker].sending != Idle && |s.workers[worker].rest| > 0
    case CommitBatch(worker) =>
      worker in s.workers && s.workers[worker].sending == Idle && |s.workers[worker].rest| == 0
    case Crash(worker) => worker in s.workers
    case LateWrite(row) => row in s.limbo
  }

  /** What a crash leaves behind: the sends of the batch, one of them perhaps still on its way. */
  function SentRows(w: Worker): set<Row> { set e | e in Held(w) && Sent(w, e) }

  function OnItsWay(w: Worker): multiset<Row>
  {
    if w.sending == Waiting && |w.rest| > 0 then multiset{w.rest[0]} else multiset{}
  }

  function Next(s: Pipe, move: Move): Pipe
    requires Enabled(s, move)
  {
    match move
    case Pay(outbox) => s.(outbox := outbox)
    case Select(worker, batch) => s.(workers := s.workers[worker := Worker({}, {}, batch, Idle)])
    case Send(worker) => s.(workers := s.workers[worker := s.workers[worker].(sending := Waiting)])
    case Write(worker) =>
      var w := s.workers[worker];
      s.(log := s.log + [w.rest[0]], workers := s.workers[worker := w.(sending := Written)])
    case Ack(worker) =>
      var w := s.workers[worker];
      s.(workers := s.workers[worker := Worker(w.acked + {w.rest[0]}, w.failed, w.rest[1..], Idle)])
    case Raise(worker) =>
      var w := s.workers[worker];
      s.(workers := s.workers[worker := Worker(w.acked, w.failed + {w.rest[0]}, w.rest[1..], Idle)],
         limbo := s.limbo + OnItsWay(w))
    case CommitBatch(worker) =>
      var w := s.workers[worker];
      s.(published := s.published + w.acked, retries := s.retries + multiset(w.failed), workers := s.workers - {worker})
    case Crash(worker) =>
      var w := s.workers[worker];
      s.(lost := s.lost + multiset(SentRows(w)), limbo := s.limbo + OnItsWay(w), workers := s.workers - {worker})
    case LateWrite(row) => s.(log := s.log + [row], limbo := s.limbo - multiset{row})
  }

  // ---------------------------------------------------------------- counting

  function Copies(s: Pipe, e: Row): nat { multiset(s.log)[e] }

  ghost predicate Open(s: Pipe, e: Row) { exists w :: w in s.workers && Sent(s.workers[w], e) }

  ghost predicate Pending(s: Pipe, e: Row) { exists w :: w in s.workers && Unwritten(s.workers[w], e) }

  /** Every send of a row is either in the log or still to be written; and it was either acknowledged
      once and for all, counted as a retry, rolled back, or belongs to an open batch. */
  ghost predicate Conserved(s: Pipe, e: Row)
  {
    Copies(s, e) + s.limbo[e] + One(Pending(s, e)) == One(e in s.published) + s.retries[e] + s.lost[e] + One(Open(s, e))
  }

  ghost predicate WorkerOk(s: Pipe, w: Worker)
  {
    && Distinct(w.rest) && w.acked !! w.failed && w.acked !! Members(w.rest) && w.failed !! Members(w.rest)
    && Held(w) !! s.published
    && (forall e :: e in Held(w) ==> Committed(s.outbox, e))
    && (forall e :: e in w.acked ==> e in s.log)
    && (w.sending != Idle ==> |w.rest| > 0)
    && (w.sending == Written ==> w.rest[0] in s.log)
  }

  ghost predicate WorkersOk(s: Pipe)
  {
    forall w :: w in s.workers ==> WorkerOk(s, s.workers[w])
  }

  /** No two publishers hold the same row. */
  ghost predicate Apart(s: Pipe)
  {
    forall v, w :: v in s.workers && w in s.workers && v != w ==> Held(s.workers[v]) !! Held(s.workers[w])
  }

  ghost predicate LogOk(s: Pipe)
  {
    && (forall e :: e in s.log || e in s.limbo ==> Committed(s.outbox, e))
    && (forall e :: e in s.published ==> e in s.log)
  }

  ghost predicate PipeOk(s: Pipe)
  {
    WorkersOk(s) && Apart(s) && LogOk(s)
  }

  // ---------------------------------------------------------------- every step keeps it

  predicate Own(move: Move, w: nat)
  {
    !move.Pay? && !move.LateWrite? && move.worker == w
  }

  lemma OtherWorkerKept(s: Pipe, move: Move, w: nat)
    requires Enabled(s, move) && PipeOk(s) && w in Next(s, move).workers && !Own(move, w)
    ensures w in s.workers && Next(s, move).workers[w] == s.workers[w] && WorkerOk(Next(s, move), s.workers[w])
  {
    assert WorkerOk(s, s.workers[w]);
    if move.CommitBatch? { assert Held(s.workers[w]) !! Held(s.workers[move.worker]); }
  }

  /** The first row of a batch moves to the marked ones. */
  lemma Moved(w: Worker)
    requires |w.rest| > 0
    ensures Members(w.rest) == {w.rest[0]} + Members(w.rest[1..])
    ensures Distinct(w.rest) ==> w.rest[0] !in Members(w.rest[1..]) && Distinct(w.rest[1..])
  {
    assert w.rest == [w.rest[0]] + w.rest[1..];
  }

  lemma OwnWorkerKept(s: Pipe, move: Move, w: nat)
    requires Enabled(s, move) && PipeOk(s) && w in Next(s, move).workers && Own(move, w)
    ensures WorkerOk(Next(s, move), Next(s, move).workers[w])
    ensures w in s.workers ==> Held(Next(s, move).workers[w]) == Held(s.workers[w])
    ensures w !in s.workers ==> forall v :: v in s.workers ==> Held(s.workers[v]) !! Held(Next(s, move).workers[w])
  {
    if !move.Select? {
      assert WorkerOk(s, s.workers[w]);
      Moved(s.workers[w]);
    }
  }

  lemma ApartKept(s: Pipe, move: Move)
    requires Enabled(s, move) && PipeOk(s)
    ensures Apart(Next(s, move))
  {
    var t := Next(s, move);
    forall v, w | v in t.workers && w in t.workers && v != w ensures Held(t.workers[v]) !! Held(t.workers[w])
    {
      if Own(move, w) { OwnWorkerKept(s, move, w); } else { OtherWorkerKept(s, move, w); }
      if Own(move, v) { OwnWorkerKept(s, move, v); } else { OtherWorkerKept(s, move, v); }
    }
  }

  lemma LogKept(s: Pipe, move: Move)
    requires Enabled(s, move) && PipeOk(s)
    ensures LogOk(Next(s, move))
  {
    if !move.Pay? && !move.LateWrite? && !move.Select? { assert WorkerOk(s, s.workers[move.worker]); }
  }

  lemma PipeKept(s: Pipe, move: Move)
    requires Enabled(s, move) && PipeOk(s)
    ensures PipeOk(Next(s, move))
  {
    forall w | w in Next(s, move).workers ensures WorkerOk(Next(s, move), Next(s, move).workers[w])
    {
      if Own(move, w) { OwnWorkerKept(s, move, w); } else { OtherWorkerKept(s, move, w); }
    }
    ApartKept(s, move);
    LogKept(s, move);
  }

  /** At most one publisher can have sent a row, the one that holds it. */
  lemma Holder(s: Pipe, w: nat, e: Row)
    requires PipeOk(s) && w in s.workers && e in Held(s.workers[w])
    ensures Open(s, e) <==> Sent(s.workers[w], e)
    ensures Pending(s, e) <==> Unwritten(s.workers[w], e)
  {
    forall v | v in s.workers && Sent(s.workers[v], e) ensures v == w
    {
      assert e in Held(s.workers[v]);
    }
  }

  /** A step of one publisher leaves the sends of the others as they are. */
  lemma OthersUntouched(s: Pipe, t: Pipe, w: nat, e: Row)
    requires s.workers.Keys - {w} == t.workers.Keys - {w}
    requires forall v :: v in s.workers && v in t.workers && v != w ==> s.workers[v] == t.workers[v]
    requires w in s.workers ==> !Sent(s.workers[w], e)
    requires w in t.workers ==> !Sent(t.workers[w], e)
    ensures Open(s, e) <==> Open(t, e)
    ensures Pending(s, e) <==> Pending(t, e)
  {
    forall v | v in s.workers && Sent(s.workers[v], e) ensures v in t.workers && Sent(t.workers[v], e)
    {
      assert v in s.workers.Keys - {w};
    }
    forall v | v in t.workers && Sent(t.workers[v], e) ensures v in s.workers && Sent(s.workers[v], e)
    {
      assert v in t.workers.Keys - {w};
    }
  }

  predicate Sends(move: Move) { move.Send? || move.Write? || move.Ack? || move.Raise? }

  lemma SendConserved(s: Pipe, move: Move, e: Row)
    requires Enabled(s, move) && PipeOk(s) && PipeOk(Next(s, move)) && Sends(move)
    requires e in Held(s.workers[move.worker]) && e in Held(Next(s, move).workers[move.worker])
    requires Conserved(s, e)
    ensures Conserved(Next(s, move), e)
  {
    assert WorkerOk(s, s.workers[move.worker]);
    Moved(s.workers[move.worker]);
    Holder(s, move.worker, e);
    Holder(Next(s, move), move.worker, e);
  }

  /** A send of another row counts for nothing here. */
  lemma OthersCounts(s: Pipe, move: Move, e: Row)
    requires Enabled(s, move) && Sends(move) && e !in Held(s.workers[move.worker])
    ensures var t := Next(s, move);
      && Copies(t, e) == Copies(s, e) && t.limbo[e] == s.limbo[e]
      && t.published == s.published && t.retries == s.retries && t.lost == s.lost
      && s.workers.Keys == t.workers.Keys
      && forall v :: v in s.workers && v != move.worker ==> s.workers[v] == t.workers[v]
  {
    assert s.workers[move.worker].rest[0] in Held(s.workers[move.worker]);
  }

  lemma OthersConserved(s: Pipe, move: Move, e: Row)
    requires Enabled(s, move) && Sends(move)
    requires e !in Held(s.workers[move.worker]) && e !in Held(Next(s, move).workers[move.worker])
    requires Conserved(s, e)
    ensures Conserved(Next(s, move), e)
  {
    OthersCounts(s, move, e);
    NotHeldNotSent(s.workers[move.worker], e);
    NotHeldNotSent(Next(s, move).workers[move.worker], e);
    OthersUntouched(s, Next(s, move), move.worker, e);
  }

  lemma NotHeldNotSent(w: Worker, e: Row)
    requires e !in Held(w)
    ensures !Sent(w, e)
  {
  }

  /** The row was sent by the batch that ends: the send is counted, and nobody has another one open. */
  lemma EndSentCounts(s: Pipe, move: Move, e: Row)
    requires Enabled(s, move) && (move.CommitBatch? || move.Crash?) && WorkerOk(s, s.workers[move.worker])
    requires Sent(s.workers[move.worker], e)
    ensures var t := Next(s, move);
      && t.log == s.log && t.workers == s.workers - {move.worker} && e !in s.published
      && t.limbo[e] == s.limbo[e] + One(Unwritten(s.workers[move.worker], e))
      && One(e in t.published) + t.retries[e] + t.lost[e] == s.retries[e] + s.lost[e] + 1
  {
    assert e in Held(s.workers[move.worker]);
  }

  lemma EndLeavesNoneOpen(s: Pipe, w: nat, e: Row, t: Pipe)
    requires Apart(s) && w in s.workers && e in Held(s.workers[w]) && t.workers == s.workers - {w}
    ensures !Open(t, e) && !Pending(t, e)
  {
    forall v | v in t.workers ensures !Sent(t.workers[v], e)
    {
      assert Held(s.workers[v]) !! Held(s.workers[w]);
    }
  }

  lemma EndSentConserved(s: Pipe, move: Move, e: Row)
    requires Enabled(s, move) && PipeOk(s) && (move.CommitBatch? || move.Crash?)
    requires Sent(s.workers[move.worker], e) && Conserved(s, e)
    ensures Conserved(Next(s, move), e)
  {
    EndSentCounts(s, move, e);
    Holder(s, move.worker, e);
    EndLeavesNoneOpen(s, move.worker, e, Next(s, move));
  }

  /** It was not. */
  lemma EndCounts(s: Pipe, move: Move, e: Row)
    requires Enabled(s, move) && (move.CommitBatch? || move.Crash?) && WorkerOk(s, s.workers[move.worker])
    requires !Sent(s.workers[move.worker], e)
    ensures var t := Next(s, move);
      && t.log == s.log && t.limbo[e] == s.limbo[e] && t.retries[e] == s.retries[e] && t.lost[e] == s.lost[e]
      && (e in t.published <==> e in s.published)
      && t.workers == s.workers - {move.worker}
  {
  }

  lemma EndUnsentConserved(s: Pipe, move: Move, e: Row)
    requires Enabled(s, move) && PipeOk(s) && (move.CommitBatch? || move.Crash?)
    requires !Sent(s.workers[move.worker], e) && Conserved(s, e)
    ensures Conserved(Next(s, move), e)
  {
    EndCounts(s, move, e);
    OthersUntouched(s, Next(s, move), move.worker, e);
  }

  lemma EndConserved(s: Pipe, move: Move, e: Row)
    requires Enabled(s, move) && PipeOk(s) && (move.CommitBatch? || move.Crash?)
    requires Conserved(s, e)
    ensures Conserved(Next(s, move), e)
  {
    if Sent(s.workers[move.worker], e) { EndSentConserved(s, move, e); } else { EndUnsentConserved(s, move, e); }
  }

  lemma SelectConserved(s: Pipe, move: Move, e: Row)
    requires Enabled(s, move) && move.Select? && Conserved(s, e)
    ensures Conserved(Next(s, move), e)
  {
    OthersUntouched(s, Next(s, move), move.worker, e);
  }

  lemma WorkConserved(s: Pipe, move: Move, e: Row)
    requires Enabled(s, move) && PipeOk(s) && Sends(move) && Conserved(s, e)
    ensures Conserved(Next(s, move), e)
  {
    PipeKept(s, move);
    OwnWorkerKept(s, move, move.worker);
    if e in Held(s.workers[move.worker]) { SendConserved(s, move, e); } else { OthersConserved(s, move, e); }
  }

  lemma LogConserved(s: Pipe, move: Move, e: Row)
    requires Enabled(s, move) && (move.Pay? || move.LateWrite?) && Conserved(s, e)
    ensures Conserved(Next(s, move), e)
  {
    if move.Pay? {
    } else {
      assert multiset(s.log + [move.row]) == multiset(s.log) + multiset{move.row};
    }
  }

  lemma MoveConserved(s: Pipe, move: Move, e: Row)
    requires Enabled(s, move) && PipeOk(s) && Conserved(s, e)
    ensures Conserved(Next(s, move), e)
  {
    match move
    case Pay(_) => LogConserved(s, move, e);
    case LateWrite(_) => LogConserved(s, move, e);
    case Select(_, _) => SelectConserved(s, move, e);
    case CommitBatch(_) => EndConserved(s, move, e);
    case Crash(_) => EndConserved(s, move, e);
    case _ => WorkConserved(s, move, e);
  }

  // ---------------------------------------------------------------- all runs

  predicate Initial(s: Pipe)
  {
    s.published == {} && s.retries == s.limbo == s.lost == multiset{} && s.log == [] && s.workers == map[]
  }

  ghost predicate IsRun(states: seq<Pipe>, moves: seq<Move>)
  {
    && |states| == |moves| + 1
    && forall i :: 0 <= i < |moves| ==> Enabled(states[i], moves[i]) && states[i + 1] == Next(states[i], moves[i])
  }

  ghost predicate Reaches(states: seq<Pipe>, moves: seq<Move>)
  {
    IsRun(states, moves) && Initial(states[0])
  }

  /** Whatever the interleaving, the errors and the crashes: publishers hold disjoint batches, a
      published row has a copy in the log, and the log holds committed outbox rows only. */
  lemma {:induction false} ReachablePipe(states: seq<Pipe>, moves: seq<Move>)
    requires Reaches(states, moves)
    ensures PipeOk(states[|moves|])
    decreases |moves|
  {
    if |moves| == 0 {
    } else {
      var n := |moves| - 1;
      ReachablePipe(states[..n + 1], moves[..n]);
      PipeKept(states[n], moves[n]);
    }
  }

  /** Conservation of sends, for every row and every run. */
  lemma {:induction false} SendsAreConserved(states: seq<Pipe>, moves: seq<Move>, e: Row)
    requires Reaches(states, moves)
    ensures Conserved(states[|moves|], e)
    decreases |moves|
  {
    if |moves| == 0 {
    } else {
      var n := |moves| - 1;
      SendsAreConserved(states[..n + 1], moves[..n], e);
      ReachablePipe(states[..n + 1], moves[..n]);
      MoveConserved(states[n], moves[n], e);
    }
  }

  /** Nothing published is missing from the log, and duplicates are bounded by the failures: each row has
      at most one copy for its publication and one for each retry, rolled-back send and open send. */
  lemma NeverLostBoundedlyDuplicated(states: seq<Pipe>, moves: seq<Move>, e: Row)
    requires Reaches(states, moves)
    ensures var s := states[|moves|];
      && (e in s.published ==> 1 <= Copies(s, e))
      && (1 <= Copies(s, e) ==> Committed(s.outbox, e))
      && Copies(s, e) <= One(e in s.published) + s.retries[e] + s.lost[e] + One(Open(s, e))
  {
    ReachablePipe(states, moves);
    SendsAreConserved(states, moves, e);
  }

  /** Without errors and crashes a published row is in the log exactly once, and no copy is on its way. */
  lemma CleanRowIsSentOnce(states: seq<Pipe>, moves: seq<Move>, e: Row)
    requires Reaches(states, moves)
    requires e in states[|moves|].published && e !in states[|moves|].retries && e !in states[|moves|].lost
    ensures Copies(states[|moves|], e) == 1 && e !in states[|moves|].limbo && !Open(states[|moves|], e)
  {
    var s := states[|moves|];
    NeverLostBoundedlyDuplicated(states, moves, e);
    SendsAreConserved(states, moves, e);
    ReachablePipe(states, moves);
    forall w | w in s.workers ensures !Sent(s.workers[w], e)
    {
      assert WorkerOk(s, s.workers[w]);
    }
  }

  // ---------------------------------------------------------------- one pass of the publisher

  /** What became of one send: acknowledged, or a KafkaError although the record may be written. */
  datatype Result = Acknowledged | Errored(written: bool)

  /** The columns of an outbox row that the publisher assigns. */
  class OutboxRow {
    const row: Row
    var published: bool
    var retryCount: nat

    constructor (row: Row)
      ensures this.row == row && !published && retryCount == 0
    {
      this.row, published, retryCount := row, false, 0;
    }

    /** `mark_published` after an acknowledgement, `bump_publish_retry` after an error. */
    method Mark(result: Result)
      modifies this
      ensures published == (old(published) || result.Acknowledged?)
      ensures retryCount == old(retryCount) + One(result.Errored?)
    {
      if result.Acknowledged? { published := true; } else { retryCount := retryCount + 1; }
    }
  }

  function Rows(batch: seq<OutboxRow>): seq<Row> { seq(|batch|, i requires 0 <= i < |batch| => batch[i].row) }

  /** What one send adds to the log. */
  function Logged(e: Row, result: Result): seq<Row> { if result == Errored(false) then [] else [e] }

  /** The records that a batch adds to the log, in order. */
  function Records(rows: seq<Row>, results: seq<Result>): seq<Row>
    requires |rows| == |results|
  {
    if |rows| == 0 then []
    else Logged(rows[0], results[0]) + Records(rows[1..], results[1..])
  }

  function Acks(results: seq<Result>): nat
  {
    if |results| == 0 then 0 else One(results[0].Acknowledged?) + Acks(results[1..])
  }

  /** The rows whose send was acknowledged, or was not. */
  function Chosen(rows: seq<Row>, results: seq<Result>, acknowledged: bool): set<Row>
    requires |rows| == |results|
  {
    if |rows| == 0 then {}
    else
      var first := if results[0].Acknowledged? == acknowledged then {rows[0]} else {};
      first + Chosen(rows[1..], results[1..], acknowledged)
  }

  lemma Join(a: seq<Pipe>, m: seq<Move>, b: seq<Pipe>, n: seq<Move>)
    requires IsRun(a, m) && IsRun(b, n) && a[|m|] == b[0]
    ensures IsRun(a + b[1..], m + n)
  {
    var states, moves := a + b[1..], m + n;
    forall i | 0 <= i < |moves|
      ensures Enabled(states[i], moves[i]) && states[i + 1] == Next(states[i], moves[i])
    {
      if i < |m| {
        assert states[i] == a[i] && states[i + 1] == a[i + 1] && moves[i] == m[i];
      } else {
        assert states[i] == b[i - |m|] && states[i + 1] == b[i - |m| + 1] && moves[i] == n[i - |m|];
      }
    }
  }

  /** A batch after its first row has been sent and marked. */
  function Marked(w: Worker, result: Result): Worker
    requires |w.rest| > 0
  {
    if result.Acknowledged? then Worker(w.acked + {w.rest[0]}, w.failed, w.rest[1..], Idle)
    else Worker(w.acked, w.failed + {w.rest[0]}, w.rest[1..], Idle)
  }

  function AfterSend(s: Pipe, w: nat, result: Result): Pipe
    requires w in s.workers && |s.workers[w].rest| > 0
  {
    var before := s.workers[w];
    var marked := s.(workers := s.workers[w := Marked(before, result)]);
    if result == Errored(false) then marked.(limbo := s.limbo + multiset{before.rest[0]})
    else marked.(log := s.log + [before.rest[0]])
  }

  /** The system after a batch has been worked through. */
  function Worked(s: Pipe, w: nat, results: seq<Result>): Pipe
    requires w in s.workers && |s.workers[w].rest| == |results|
    decreases |results|
  {
    if |results| == 0 then s else Worked(AfterSend(s, w, results[0]), w, results[1..])
  }

  lemma FailedSendIsRun(s: Pipe, w: nat) returns (states: seq<Pipe>, moves: seq<Move>)
    requires w in s.workers && s.workers[w].sending == Idle && |s.workers[w].rest| > 0
    ensures IsRun(states, moves) && states[0] == s
    ensures states[|moves|] == AfterSend(s, w, Errored(false))
  {
    var s1 := Next(s, Send(w));
    var t := Next(s1, Raise(w));
    assert t.workers == AfterSend(s, w, Errored(false)).workers;
    states, moves := [s, s1, t], [Send(w), Raise(w)];
  }

  lemma WrittenSendIsRun(s: Pipe, w: nat, result: Result) returns (states: seq<Pipe>, moves: seq<Move>)
    requires w in s.workers && s.workers[w].sending == Idle && |s.workers[w].rest| > 0 && result != Errored(false)
    ensures IsRun(states, moves) && states[0] == s
    ensures states[|moves|] == AfterSend(s, w, result)
  {
    var s1 := Next(s, Send(w));
    var s2 := Next(s1, Write(w));
    var last := if result.Acknowledged? then Ack(w) else Raise(w);
    var t := Next(s2, last);
    assert t.workers == AfterSend(s, w, result).workers;
    states, moves := [s, s1, s2, t], [Send(w), Write(w), last];
  }

  /** The moves of one send. */
  lemma SendIsRun(s: Pipe, w: nat, result: Result) returns (states: seq<Pipe>, moves: seq<Move>)
    requires w in s.workers && s.workers[w].sending == Idle && |s.workers[w].rest| > 0
    ensures IsRun(states, moves) && states[0] == s
    ensures states[|moves|] == AfterSend(s, w, result)
  {
    if result == Errored(false) {
      states, moves := FailedSendIsRun(s, w);
    } else {
      states, moves := WrittenSendIsRun(s, w, result);
    }
  }

  /** Working through a batch is a run of the system. */
  lemma {:induction false} BatchIsRun(s: Pipe, w: nat, results: seq<Result>)
    returns (states: seq<Pipe>, moves: seq<Move>)
    requires w in s.workers && s.workers[w].sending == Idle && |s.workers[w].rest| == |results|
    ensures IsRun(states, moves) && states[0] == s && states[|moves|] == Worked(s, w, results)
    decreases |results|
  {
    if |results| == 0 {
      states, moves := [s], [];
    } else {
      var a, m := SendIsRun(s, w, results[0]);
      var b, n := BatchIsRun(AfterSend(s, w, results[0]), w, results[1..]);
      Join(a, m, b, n);
      states, moves := a + b[1..], m + n;
    }
  }

  lemma {:induction false} BatchFrames(s: Pipe, w: nat, results: seq<Result>)
    requires w in s.workers && |s.workers[w].rest| == |results|
    ensures var t := Worked(s, w, results);
      && t.outbox == s.outbox && t.published == s.published && t.retries == s.retries
      && t.workers - {w} == s.workers - {w}
    decreases |results|
  {
    if |results| == 0 {
    } else {
      var u := AfterSend(s, w, results[0]);
      BatchFrames(u, w, results[1..]);
      assert u.workers - {w} == s.workers - {w};
    }
  }

  lemma {:induction false} BatchLogs(s: Pipe, w: nat, results: seq<Result>)
    requires w in s.workers && |s.workers[w].rest| == |results|
    ensures Worked(s, w, results).log == s.log + Records(s.workers[w].rest, results)
    decreases |results|
  {
    if |results| == 0 {
    } else {
      var rest := s.workers[w].rest;
      BatchLogs(AfterSend(s, w, results[0]), w, results[1..]);
      Associates(s.log, [rest[0]], Records(rest[1..], results[1..]));
    }
  }

  /** That run adds the records in the order of the sends and leaves the committed rows and the other
      publishers alone, */
  lemma BatchWritesRecords(s: Pipe, w: nat, results: seq<Result>)
    requires w in s.workers && |s.workers[w].rest| == |results|
    ensures var t := Worked(s, w, results);
      && t.log == s.log + Records(s.workers[w].rest, results)
      && t.outbox == s.outbox && t.published == s.published && t.retries == s.retries
      && t.workers - {w} == s.workers - {w}
  {
    BatchFrames(s, w, results);
    BatchLogs(s, w, results);
  }

  /** and marks exactly the acknowledged rows as published and all others for a retry, as `PublishOnce` does. */
  lemma {:induction false} BatchMarksRows(s: Pipe, w: nat, results: seq<Result>)
    requires w in s.workers && |s.workers[w].rest| == |results|
    ensures var before, t := s.workers[w], Worked(s, w, results);
      && w in t.workers && t.workers[w].rest == []
      && t.workers[w].acked == before.acked + Chosen(before.rest, results, true)
      && t.workers[w].failed == before.failed + Chosen(before.rest, results, false)
    decreases |results|
  {
    if |results| == 0 {
    } else {
      BatchMarksRows(AfterSend(s, w, results[0]), w, results[1..]);
    }
  }

  /** The publisher has just selected these rows. */
  predicate Selected(s: Pipe, w: nat, rows: seq<Row>)
  {
    w in s.workers && s.workers[w] == Worker({}, {}, rows, Idle) && Distinct(rows)
  }

  lemma {:induction false} ChosenAt(rows: seq<Row>, results: seq<Result>, acknowledged: bool, i: nat)
    requires |rows| == |results| && Distinct(rows) && i < |rows|
    ensures rows[i] in Chosen(rows, results, acknowledged) <==> results[i].Acknowledged? == acknowledged
    decreases |rows|
  {
    ChosenAreRows(rows[1..], results[1..], acknowledged);
    if i == 0 {
    } else {
      ChosenAt(rows[1..], results[1..], acknowledged, i - 1);
    }
  }

  lemma {:induction false} ChosenAreRows(rows: seq<Row>, results: seq<Result>, acknowledged: bool)
    requires |rows| == |results|
    ensures forall e :: e in Chosen(rows, results, acknowledged) ==> e in rows
  {
    if |rows| == 0 {
    } else {
      ChosenAreRows(rows[1..], results[1..], acknowledged);
    }
  }

  /** The marks of the run, row by row. */
  lemma MarksAgree(s: Pipe, w: nat, rows: seq<Row>, results: seq<Result>)
    requires Selected(s, w, rows) && |rows| == |results|
    ensures var t := Worked(s, w, results);
      && t.log == s.log + Records(rows, results) && w in t.workers
      && forall i :: 0 <= i < |rows| ==>
        && (rows[i] in t.workers[w].acked <==> results[i].Acknowledged?)
        && (rows[i] in t.workers[w].failed <==> results[i].Errored?)
  {
    BatchWritesRecords(s, w, results);
    BatchMarksRows(s, w, results);
    forall i | 0 <= i < |rows|
      ensures rows[i] in Chosen(rows, results, true) <==> results[i].Acknowledged?
      ensures rows[i] in Chosen(rows, results, false) <==> results[i].Errored?
    {
      ChosenAt(rows, results, true, i);
      ChosenAt(rows, results, false, i);
    }
  }

  /** The rows have been marked up to the `k`-th, as the results say. */
  twostate predicate MarkedUpTo(batch: seq<OutboxRow>, results: seq<Result>, k: nat)
    requires |batch| == |results|
    reads batch
  {
    && (forall i :: 0 <= i < |batch| && i < k ==>
          && batch[i].published == (old(batch[i].published) || results[i].Acknowledged?)
          && batch[i].retryCount == old(batch[i].retryCount) + One(results[i].Errored?))
    && (forall i :: 0 <= i < |batch| && k <= i ==>
          batch[i].published == old(batch[i].published) && batch[i].retryCount == old(batch[i].retryCount))
  }

  lemma Associates(a: seq<Row>, b: seq<Row>, c: seq<Row>)
    ensures (a + b) + c == a + (b + c)
  {
  }

  /** What the log is once the sends from the `k`-th on have been made. */
  function WithRest(after: seq<Row>, rows: seq<Row>, results: seq<Result>, k: nat): seq<Row>
    requires k <= |rows| == |results|
  {
    after + Records(rows[k..], results[k..])
  }

  function CountWithRest(count: nat, results: seq<Result>, k: nat): nat
    requires k <= |results|
  {
    count + Acks(results[k..])
  }

  lemma NextStep(after: seq<Row>, count: nat, rows: seq<Row>, results: seq<Result>, k: nat)
    requires k < |rows| == |results|
    ensures WithRest(after + Logged(rows[k], results[k]), rows, results, k + 1) == WithRest(after, rows, results, k)
    ensures CountWithRest(count + One(results[k].Acknowledged?), results, k + 1) == CountWithRest(count, results, k)
  {
    assert results[k..][1..] == results[k + 1..] && rows[k..][1..] == rows[k + 1..];
    Associates(after, Logged(rows[k], results[k]), Records(rows[k + 1..], results[k + 1..]));
  }

  lemma LastStep(after: seq<Row>, count: nat, rows: seq<Row>, results: seq<Result>)
    requires |rows| == |results|
    ensures WithRest(after, rows, results, |rows|) == after && CountWithRest(count, results, |rows|) == count
  {
  }

  lemma FirstStep(log: seq<Row>, rows: seq<Row>, results: seq<Result>)
    requires |rows| == |results|
    ensures WithRest(log, rows, results, 0) == log + Records(rows, results)
    ensures CountWithRest(0, results, 0) == Acks(results)
  {
    assert rows[0..] == rows && results[0..] == results;
  }

  /** One send: a failed one marks its row and raises nothing further. */
  method SendOne(row: OutboxRow, result: Result, log: seq<Row>) returns (acked: bool, after: seq<Row>)
    modifies row
    ensures acked == result.Acknowledged? && after == log + Logged(row.row, result)
    ensures row.published == (old(row.published) || result.Acknowledged?)
    ensures row.retryCount == old(row.retryCount) + One(result.Errored?)
  {
    after := if result == Errored(false) then log else log + [row.row];
    row.Mark(result);
    acked := result.Acknowledged?;
  }

  /** The loop over the batch. */
  method SendAll(batch: seq<OutboxRow>, results: seq<Result>, log: seq<Row>) returns (count: nat, after: seq<Row>)
    requires |batch| == |results| && forall i, j :: 0 <= i < j < |batch| ==> batch[i] != batch[j]
    modifies batch
    ensures count == Acks(results) && after == log + Records(Rows(batch), results)
    ensures MarkedUpTo(batch, results, |batch|)
  {
    count, after := 0, log;
    ghost var rows := Rows(batch);
    FirstStep(log, rows, results);
    for k := 0 to |batch|
      invariant CountWithRest(count, results, k) == Acks(results)
      invariant WithRest(after, rows, results, k) == log + Records(rows, results)
      invariant MarkedUpTo(batch, results, k)
    {
      NextStep(after, count, rows, results, k);
      var acked;
      acked, after := SendOne(batch[k], results[k], after);
      if acked { count := count + 1; }
    }
    LastStep(after, count, rows, results);
  }

  /** `batch` is what `pending_outbox` selected. When `w` is the publisher of `s` that has selected the same rows,
      the objects and the log end as `Worked` says, which is a run of the system. */
  method PublishOnce(started: bool, batch: seq<OutboxRow>, results: seq<Result>, log: seq<Row>,
                     ghost s: Pipe, ghost w: nat)
    returns (count: nat, after: seq<Row>)
    requires |batch| == |results| && forall i, j :: 0 <= i < j < |batch| ==> batch[i] != batch[j]
    modifies batch
    ensures !started ==> count == 0 && after == log && unchanged(batch)
    ensures started ==> count == Acks(results) && after == log + Records(Rows(batch), results)
    ensures started ==> forall i :: 0 <= i < |batch| ==>
      && batch[i].published == (old(batch[i].published) || results[i].Acknowledged?)
      && batch[i].retryCount == old(batch[i].retryCount) + One(results[i].Errored?)
    ensures started && Selected(s, w, Rows(batch)) && s.log == log ==>
      var t := Worked(s, w, results);
      && t.log == after && w in t.workers
      && forall i :: 0 <= i < |batch| ==>
        && batch[i].published == (old(batch[i].published) || batch[i].row in t.workers[w].acked)
        && batch[i].retryCount == old(batch[i].retryCount) + One(batch[i].row in t.workers[w].failed)
  {
    if !started { return 0, log; }
    count, after := SendAll(batch, results, log);
    if Selected(s, w, Rows(batch)) && s.log == log { MarksAgree(s, w, Rows(batch), results); }
  }

  lemma OneMove(s: Pipe, move: Move) returns (states: seq<Pipe>, moves: seq<Move>)
    requires Enabled(s, move)
    ensures IsRun(states, moves) && states[0] == s && states[|moves|] == Next(s, move)
  {
    states, moves := [s, Next(s, move)], [move];
  }

  /** A publisher takes at most 100 rows, each committed, unpublished and locked by nobody, and any such batch. */
  lemma SelectedExactly(s: Pipe, w: nat, batch: seq<Row>)
    ensures Enabled(s, Select(w, batch)) <==>
      && w !in s.workers && |batch| <= 100 && (forall i, j :: 0 <= i < j < |batch| ==> batch[i] != batch[j])
      && forall e :: e in batch ==>
        && e.payment in s.outbox && e.place < |s.outbox[e.payment]| && s.outbox[e.payment][e.place] == e.event
        && e !in s.published
        && forall v :: v in s.workers ==>
          e !in s.workers[v].acked && e !in s.workers[v].failed && e !in s.workers[v].rest
  {
    forall e | e in batch
      ensures forall v :: v in s.workers ==>
        (e in Held(s.workers[v]) <==>
          e in s.workers[v].acked || e in s.workers[v].failed || e in s.workers[v].rest)
    {
    }
  }

  /** A publisher that nobody else disturbs, from its selection of one row to its commit. */
  lemma PublishOne(s: Pipe, w: nat, e: Row) returns (states: seq<Pipe>, moves: seq<Move>)
    requires Enabled(s, Select(w, [e]))
    ensures IsRun(states, moves) && states[0] == s && e in states[|moves|].published
  {
    var a, m := OneMove(s, Select(w, [e]));
    var selected := Next(s, Select(w, [e]));
    var b, n := SendIsRun(selected, w, Acknowledged);
    Join(a, m, b, n);
    var sent := AfterSend(selected, w, Acknowledged);
    var c, o := OneMove(sent, CommitBatch(w));
    Join(a + b[1..], m + n, c, o);
    states, moves := a + b[1..] + c[1..], m + n + o;
  }

  /** No committed row is lost: from every reachable state some run publishes it, whether it waits,
      or is held by a publisher `w` that then crashes. */
  lemma NoRowIsLost(s: Pipe, w: nat, e: Row) returns (states: seq<Pipe>, moves: seq<Move>)
    requires PipeOk(s) && Committed(s.outbox, e)
    requires forall v :: v in s.workers && v != w ==> e !in Held(s.workers[v])
    ensures IsRun(states, moves) && states[0] == s && e in states[|moves|].published
  {
    if e in s.published {
      states, moves := [s], [];
    } else if w in s.workers {
      var a, m := OneMove(s, Crash(w));
      var b, n := PublishOne(Next(s, Crash(w)), w, e);
      Join(a, m, b, n);
      states, moves := a + b[1..], m + n;
    } else {
      states, moves := PublishOne(s, w, e);
    }
  }
}
