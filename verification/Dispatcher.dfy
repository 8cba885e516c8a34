/** The webhook dispatcher: dispatchers lock disjoint batches of due deliveries, post each one and
    record the answer, and commit or crash; a merchant may replay a delivery at any time
    (services/payment_service/app/workers/webhook_dispatcher.py, services/payment_service/app/main.py). */
module Dispatcher {
  import opened Money
  import opened Totals

  // ---------------------------------------------------------------- one delivery

  datatype DeliveryStatus = Pending | Retry | Succeeded | DeadLetter

  datatype LastError = HttpStatus(code: int) | Transport(text: string) | ManualReplay

  datatype Delivery = Delivery(endpoint: nat, status: DeliveryStatus, attempts: nat, due: Option<real>,
    lastError: Option<LastError>)

  /** What the post came to: an answer with any status code, or an `httpx.HTTPError`. */
  datatype Response = Answer(code: int) | HttpError(text: string)

  predicate Active(d: Delivery) { d.status in {Pending, Retry} }

  function PowerOfTwo(n: nat): nat { if n == 0 then 1 else 2 * PowerOfTwo(n - 1) }

  function NextDelay(attempts: nat, jitter: real): real
  {
    var delay := PowerOfTwo(attempts) as real + jitter;
    if delay < 300.0 then delay else 300.0
  }

  /** The wait is never over five minutes, and whatever the jitter it does not shrink from one attempt to the next. */
  lemma {:induction false} DelayGrows(attempts: nat, jitter: real, next: real)
    requires 0.0 <= jitter <= 1.0 && 0.0 <= next <= 1.0
    ensures 1.0 <= NextDelay(attempts, jitter) <= NextDelay(attempts + 1, next) <= 300.0
  {
    PowerPositive(attempts);
  }

  lemma {:induction false} PowerPositive(n: nat)
    ensures 1 <= PowerOfTwo(n)
  {
    if n == 0 {
    } else {
      PowerPositive(n - 1);
    }
  }

  lemma SmallPowers()
    ensures [PowerOfTwo(0), PowerOfTwo(1), PowerOfTwo(2), PowerOfTwo(3), PowerOfTwo(4), PowerOfTwo(5), PowerOfTwo(6),
             PowerOfTwo(7), PowerOfTwo(8), PowerOfTwo(9)] == [1, 2, 4, 8, 16, 32, 64, 128, 256, 512]
  {
    assert PowerOfTwo(3) == 8;
    assert PowerOfTwo(6) == 64;
  }

  lemma {:induction false} LargePowers(n: nat)
    requires n >= 9
    ensures PowerOfTwo(n) >= 512
  {
    if n == 9 {
      SmallPowers();
    } else {
      LargePowers(n - 1);
    }
  }

  /** Without its jitter the delay is one second at no attempts and doubles from each attempt to the next until the
      cap: 256 seconds at the eighth, and exactly five minutes from the ninth on. */
  lemma DelayDoubles(attempts: nat, jitter: real)
    requires 0.0 <= jitter <= 1.0
    ensures NextDelay(0, 0.0) == 1.0 && NextDelay(8, 0.0) == 256.0
    ensures attempts < 8 ==> NextDelay(attempts + 1, 0.0) == 2.0 * NextDelay(attempts, 0.0)
    ensures attempts <= 8 ==> NextDelay(attempts, jitter) == NextDelay(attempts, 0.0) + jitter
    ensures attempts >= 9 ==> NextDelay(attempts, jitter) == 300.0
  {
    SmallPowers();
    if attempts >= 9 { LargePowers(attempts); }
  }

  /** The delivery after one post. `retryAt` is the time drawn for a next attempt. Only a 2xx answer
      succeeds, and only a server error or no answer, below the maximum, is tried again. A status code is stored
      when the delivery is given up for it, an HTTP client's error always. */
  function Attempted(d: Delivery, response: Response, maximum: int, retryAt: real): (after: Delivery)
    ensures after.attempts == d.attempts + 1 && after.endpoint == d.endpoint && after.status != Pending
    ensures after.status == Succeeded <==> response.Answer? && 200 <= response.code < 300
    ensures after.status == Retry <==> after.attempts < maximum && (response.Answer? ==> 500 <= response.code)
    ensures after.due == if after.status == Retry then Some(retryAt) else d.due
    ensures after.lastError == (
      match response
      case HttpError(text) => Some(Transport(text))
      case Answer(code) => if after.status == DeadLetter then Some(HttpStatus(code)) else d.lastError)
  {
    var counted := d.(attempts := d.attempts + 1);
    match response
    case Answer(code) =>
      if 200 <= code < 300 then counted.(status := Succeeded)
      else if counted.attempts >= maximum || code < 500 then
        counted.(status := DeadLetter, lastError := Some(HttpStatus(code)))
      else counted.(status := Retry, due := Some(retryAt))
    case HttpError(text) =>
      var failed := counted.(lastError := Some(Transport(text)));
      if counted.attempts >= maximum then failed.(status := DeadLetter)
        else failed.(status := Retry, due := Some(retryAt))
  }

  /** An answer other than success is stored as the last error if and only if the delivery is given up for it. */
  lemma ErrorStoredIffGivenUp(d: Delivery, code: int, maximum: int, retryAt: real)
    requires !(200 <= code < 300)
    requires d.lastError != Some(HttpStatus(code))
    ensures var after := Attempted(d, Answer(code), maximum, retryAt);
      after.lastError == Some(HttpStatus(code)) <==> d.attempts + 1 >= maximum || code < 500
  {
  }

  /** A first 500 answer, with the default maximum of 6, leaves no error behind. */
  lemma FirstServerErrorIsNotStored(endpoint: nat, retryAt: real)
    ensures Attempted(Delivery(endpoint, Pending, 0, None, None), Answer(500), 6, retryAt)
         == Delivery(endpoint, Retry, 1, Some(retryAt), None)
  {
  }

  /** Without its endpoint a delivery is given up unposted. */
  function Abandoned(d: Delivery): Delivery { d.(status := DeadLetter) }

  function Replayed(d: Delivery): Delivery { d.(status := Pending, due := None, lastError := Some(ManualReplay)) }

  // ---------------------------------------------------------------- one pass over a batch

  class DeliveryRow {
    const endpoint: nat
    var status: DeliveryStatus
    var attempts: nat
    var due: Option<real>
    var lastError: Option<LastError>

    function Value(): Delivery
      reads this
    {
      Delivery(endpoint, status, attempts, due, lastError)
    }

    constructor (d: Delivery)
      ensures Value() == d
    {
      endpoint, status, attempts, due, lastError := d.endpoint, d.status, d.attempts, d.due, d.lastError;
    }

    method Restore(d: Delivery)
      requires d.endpoint == endpoint
      modifies this
      ensures Value() == d
    {
      status, attempts, due, lastError := d.status, d.attempts, d.due, d.lastError;
    }

    /** The assignments made around one post. */
    method Record(response: Response, maximum: int, now: real, jitter: real)
      modifies this
      ensures Value() == Attempted(old(Value()), response, maximum, now + NextDelay(old(attempts) + 1, jitter))
    {
      attempts := attempts + 1;
      match response
      case Answer(code) =>
        if 200 <= code < 300 {
          status := Succeeded;
        } else if attempts >= maximum || code < 500 {
          status := DeadLetter;
          lastError := Some(HttpStatus(code));
        } else {
          status := Retry;
          due := Some(now + NextDelay(attempts, jitter));
        }
      case HttpError(text) =>
        status := if attempts >= maximum then DeadLetter else Retry;
        if status == Retry { due := Some(now + NextDelay(attempts, jitter)); }
        lastError := Some(Transport(text));
    }
  }

  /** What the pass meets at each delivery. */
  datatype Meeting = Meeting(endpointExists: bool, secretExists: bool, response: Response, now: real, jitter: real)

  function Met(d: Delivery, m: Meeting, maximum: int): Delivery
  {
    if m.endpointExists then Attempted(d, m.response, maximum, m.now + NextDelay(d.attempts + 1, m.jitter))
      else Abandoned(d)
  }

  /** The wait after a failed attempt: two seconds after the first, doubling up to five minutes. */
  lemma RetryIsDue(d: Delivery, m: Meeting, maximum: int)
    requires m.endpointExists && 0.0 <= m.jitter <= 1.0 && Met(d, m, maximum).status == Retry
    ensures Met(d, m, maximum).due == Some(m.now +
      if d.attempts < 8 then [2.0, 4.0, 8.0, 16.0, 32.0, 64.0, 128.0, 256.0][d.attempts] + m.jitter else 300.0)
  {
    SmallPowers();
    DelayDoubles(d.attempts + 1, m.jitter);
  }

  /** A fifth attempt that meets a server error, under the default maximum of 6, is made again 32 seconds later. */
  lemma FifthRetryWaits(endpoint: nat, due: Option<real>, error: Option<LastError>, now: real)
    ensures Met(Delivery(endpoint, Retry, 4, due, error), Meeting(true, true, Answer(500), now, 0.0), 6)
         == Delivery(endpoint, Retry, 5, Some(now + 32.0), error)
  {
    SmallPowers();
  }

  predicate Fails(m: Meeting) { m.endpointExists && !m.secretExists }

  predicate Success(m: Meeting) { m.endpointExists && m.response.Answer? && 200 <= m.response.code < 300 }

  function Successes(meetings: seq<Meeting>): nat
  {
    if |meetings| == 0 then 0
    else Successes(meetings[..|meetings| - 1]) + (if Success(meetings[|meetings| - 1]) then 1 else 0)
  }

  /** ROLLBACK: every row of the batch is again what it was. */
  method RestoreAll(batch: seq<DeliveryRow>, before: seq<Delivery>)
    requires |batch| == |before| && forall i, j :: 0 <= i < j < |batch| ==> batch[i] != batch[j]
    requires forall i :: 0 <= i < |batch| ==> batch[i].endpoint == before[i].endpoint
    modifies batch
    ensures forall i :: 0 <= i < |batch| ==> batch[i].Value() == before[i]
  {
    for i := 0 to |batch|
      invariant forall j :: 0 <= j < i ==> batch[j].Value() == before[j]
    {
      batch[i].Restore(before[i]);
    }
  }

  /** One delivery of the batch whose secret is there or not needed. */
  method DispatchRow(row: DeliveryRow, m: Meeting, maximum: int) returns (sent: bool)
    requires !Fails(m)
    modifies row
    ensures row.Value() == Met(old(row.Value()), m, maximum) && sent == Success(m)
  {
    if !m.endpointExists {
      row.status := DeadLetter;
      return false;
    }
    row.Record(m.response, maximum, m.now, m.jitter);
    return row.status == Succeeded;
  }

  /** A missing signing secret raises, and then nothing of the whole batch is recorded. Without its endpoint a delivery
      is given up unposted. */
  method DispatchOnce(batch: seq<DeliveryRow>, meetings: seq<Meeting>, maximum: int) returns (sent: Option<nat>)
    requires |batch| == |meetings| && forall i, j :: 0 <= i < j < |batch| ==> batch[i] != batch[j]
    modifies batch
    ensures sent == if exists i :: 0 <= i < |batch| && meetings[i].endpointExists && !meetings[i].secretExists
      then None else Some(Successes(meetings))
    ensures sent.None? ==> forall i :: 0 <= i < |batch| ==> batch[i].Value() == old(batch[i].Value())
    ensures sent.Some? ==> forall i :: 0 <= i < |batch| ==>
      && batch[i].Value() == Met(old(batch[i].Value()), meetings[i], maximum)
      && (meetings[i].endpointExists ==> batch[i].attempts == old(batch[i].attempts) + 1)
      && (!meetings[i].endpointExists ==> batch[i].Value() == old(batch[i].Value()).(status := DeadLetter))
  {
    var before := seq(|batch|, i requires 0 <= i < |batch| reads batch => batch[i].Value());
    var count := 0;
    for k := 0 to |batch|
      invariant count == Successes(meetings[..k])
      invariant forall i :: 0 <= i < k ==> !Fails(meetings[i])
      invariant forall i :: 0 <= i < k ==> batch[i].Value() == Met(before[i], meetings[i], maximum)
      invariant forall i :: k <= i < |batch| ==> batch[i].Value() == before[i]
    {
      assert meetings[..k + 1][..k] == meetings[..k];
      if Fails(meetings[k]) {
        RestoreAll(batch, before);
        return None;
      }
      var one := DispatchRow(batch[k], meetings[k], maximum);
      if one { count := count + 1; }
    }
    assert meetings[..|batch|] == meetings;
    sent := Some(count);
  }

  /** A row of `audit_logs` with action webhook.delivery_replayed: its resource and its metadata. */
  datatype AuditRow = AuditRow(delivery: nat, attempts: nat)

  /** `replay_webhook_delivery_route`: only the owner's deliveries are found; the status is not looked at,
      `attempts` is not reset, and the audit row tells it. */
  method ReplayDelivery(id: nat, row: DeliveryRow?, owner: Option<nat>, merchant: nat, audits: seq<AuditRow>)
    returns (found: bool, logged: seq<AuditRow>)
    modifies row
    ensures found == (row != null && owner == Some(merchant))
    ensures row != null ==> row.Value() == (if found then Replayed(old(row.Value())) else old(row.Value()))
    ensures found ==> row.status == Pending && row.due == None && row.lastError == Some(ManualReplay)
    ensures found ==> row.attempts == old(row.attempts)
    ensures logged == audits + if found then [AuditRow(id, old(row.attempts))] else []
  {
    if row == null { return false, audits; }
    if owner == None || owner.value != merchant { return false, audits; }
    row.status := Pending;
    row.due := None;
    row.lastError := Some(ManualReplay);
    return true, audits + [AuditRow(id, row.attempts)];
  }

  // ---------------------------------------------------------------- the system

  /** A dispatcher's transaction: the deliveries it has locked, and those it has recorded. */
  datatype Batch = Batch(locked: set<nat>, done: map<nat, Delivery>)

  /** `committed` is a history variable: how many recorded attempts have been committed. */
  datatype Mail = Mail(rows: map<nat, Delivery>, audits: seq<AuditRow>, workers: map<nat, Batch>, committed: nat)

  datatype Move =
    | Add(id: nat, endpoint: nat)
    | Lock(worker: nat, ids: set<nat>)
    | Post(worker: nat, id: nat, response: Response, retryAt: real)
    | Abandon(worker: nat, id: nat)
    | CommitBatch(worker: nat)
    | Crash(worker: nat)
    | Replay(id: nat)

  const BATCH_LIMIT := 25

  ghost predicate Unlocked(s: Mail, id: nat)
  {
    forall w :: w in s.workers ==> id !in s.workers[w].locked
  }

  predicate Working(s: Mail, worker: nat, id: nat)
  {
    worker in s.workers && id in s.workers[worker].locked && id !in s.workers[worker].done && id in s.rows
  }

  ghost predicate Enabled(s: Mail, move: Move)
  {
    match move
    case Add(id, _) => id !in s.rows
    case Lock(worker, ids) =>
      && worker !in s.workers && |ids| <= BATCH_LIMIT
      && forall id :: id in ids ==> id in s.rows && Active(s.rows[id]) && Unlocked(s, id)
    case Post(worker, id, _, _) => Working(s, worker, id)
    case Abandon(worker, id) => Working(s, worker, id)
    case CommitBatch(worker) => worker in s.workers && s.workers[worker].done.Keys == s.workers[worker].locked
    case Crash(worker) => worker in s.workers
    case Replay(id) => id in s.rows && Unlocked(s, id)
  }

  function Noted(s: Mail, worker: nat, id: nat, d: Delivery): Mail
    requires worker in s.workers
  {
    s.(workers := s.workers[worker := s.workers[worker].(done := s.workers[worker].done[id := d])])
  }

  function Next(s: Mail, move: Move, maximum: int): Mail
    requires Enabled(s, move)
  {
    match move
    case Add(id, endpoint) => s.(rows := s.rows[id := Delivery(endpoint, Pending, 0, None, None)])
    case Lock(worker, ids) => s.(workers := s.workers[worker := Batch(ids, map[])])
    case Post(worker, id, response, retryAt) => Noted(s, worker, id, Attempted(s.rows[id], response, maximum, retryAt))
    case Abandon(worker, id) => Noted(s, worker, id, Abandoned(s.rows[id]))
    case CommitBatch(worker) =>
      var done := s.workers[worker].done;
      s.(rows := s.rows + done, workers := s.workers - {worker}, committed := s.committed + |done|)
    case Crash(worker) => s.(workers := s.workers - {worker})
    case Replay(id) =>
      s.(rows := s.rows[id := Replayed(s.rows[id])], audits := s.audits + [AuditRow(id, s.rows[id].attempts)])
  }

  // ---------------------------------------------------------------- the bound on attempts

  function Limit(maximum: int): nat { if maximum > 1 then maximum else 1 }

  /** How many audit rows a delivery has. */
  function AuditsOf(audits: seq<AuditRow>, id: nat): nat
  {
    if |audits| == 0 then 0 else AuditsOf(audits[..|audits| - 1], id) + One(audits[|audits| - 1].delivery == id)
  }

  lemma OneMoreAudit(audits: seq<AuditRow>, a: AuditRow, id: nat)
    ensures AuditsOf(audits + [a], id) == AuditsOf(audits, id) + One(a.delivery == id)
  {
    assert (audits + [a])[..|audits|] == audits;
  }

  predicate Bounded(d: Delivery, replays: nat, maximum: int)
  {
    && d.attempts <= Limit(maximum) + replays
    && (Active(d) ==> d.attempts < Limit(maximum) + replays)
    && (d.status == Retry ==> d.attempts < maximum)
  }

  /** `after` is what one recorded pass over `before` left. */
  ghost predicate StepsTo(before: Delivery, after: Delivery, maximum: int)
  {
    after == Abandoned(before) || exists response, retryAt :: after == Attempted(before, response, maximum, retryAt)
  }

  ghost predicate BatchOk(s: Mail, b: Batch, maximum: int)
  {
    && b.done.Keys <= b.locked
    && (forall id :: id in b.locked ==> id in s.rows && Active(s.rows[id]))
    && (forall id :: id in b.done ==> id in s.rows && StepsTo(s.rows[id], b.done[id], maximum))
  }

  ghost predicate MailOk(s: Mail, maximum: int)
  {
    && (forall id :: id in s.rows ==> Bounded(s.rows[id], AuditsOf(s.audits, id), maximum))
    && (forall w :: w in s.workers ==> BatchOk(s, s.workers[w], maximum))
    && (forall v, w :: v in s.workers && w in s.workers && v != w ==> s.workers[v].locked !! s.workers[w].locked)
  }

  /** A pass over an active delivery keeps the bounds and uses up fuel. */
  lemma StepIsBounded(before: Delivery, after: Delivery, replays: nat, maximum: int)
    requires StepsTo(before, after, maximum) && Active(before) && Bounded(before, replays, maximum)
    ensures Bounded(after, replays, maximum) && Fuel(after, maximum) < Fuel(before, maximum)
  {
  }

  lemma RowsStayBounded(s: Mail, move: Move, maximum: int, id: nat)
    requires Enabled(s, move) && MailOk(s, maximum) && id in Next(s, move, maximum).rows
    ensures Bounded(Next(s, move, maximum).rows[id], AuditsOf(Next(s, move, maximum).audits, id), maximum)
  {
    if move.Replay? { OneMoreAudit(s.audits, AuditRow(move.id, s.rows[move.id].attempts), id); }
    if move.CommitBatch? && id in s.workers[move.worker].done {
      assert BatchOk(s, s.workers[move.worker], maximum);
      StepIsBounded(s.rows[id], s.workers[move.worker].done[id], AuditsOf(s.audits, id), maximum);
    }
  }

  lemma BatchesStayOk(s: Mail, move: Move, maximum: int, w: nat)
    requires Enabled(s, move) && MailOk(s, maximum) && w in Next(s, move, maximum).workers
    ensures BatchOk(Next(s, move, maximum), Next(s, move, maximum).workers[w], maximum)
    ensures w in s.workers ==> Next(s, move, maximum).workers[w].locked == s.workers[w].locked
  {
    if w in s.workers {
      assert BatchOk(s, s.workers[w], maximum);
      if move.CommitBatch? { assert BatchOk(s, s.workers[move.worker], maximum); }
    }
  }

  lemma MailKept(s: Mail, move: Move, maximum: int)
    requires Enabled(s, move) && MailOk(s, maximum)
    ensures MailOk(Next(s, move, maximum), maximum)
  {
    var t := Next(s, move, maximum);
    forall id | id in t.rows
      ensures Bounded(t.rows[id], AuditsOf(t.audits, id), maximum) { RowsStayBounded(s, move, maximum, id); }
    forall w | w in t.workers ensures BatchOk(t, t.workers[w], maximum) { BatchesStayOk(s, move, maximum, w); }
    forall v, w | v in t.workers && w in t.workers && v != w ensures t.workers[v].locked !! t.workers[w].locked
    {
      BatchesStayOk(s, move, maximum, v);
      BatchesStayOk(s, move, maximum, w);
    }
  }

  ghost predicate IsRun(states: seq<Mail>, moves: seq<Move>, maximum: int)
  {
    && |states| == |moves| + 1
    && forall i :: 0 <= i < |moves| ==>
      Enabled(states[i], moves[i]) && states[i + 1] == Next(states[i], moves[i], maximum)
  }

  /** A run without its last move is a run. */
  lemma Shorter(states: seq<Mail>, moves: seq<Move>, maximum: int)
    requires IsRun(states, moves, maximum) && |moves| > 0
    ensures var n := |moves| - 1; var front := states[..n + 1];
      && IsRun(front, moves[..n], maximum) && front[0] == states[0] && front[n] == states[n]
      && Enabled(states[n], moves[n]) && states[n + 1] == Next(states[n], moves[n], maximum)
  {
  }

  ghost predicate Reaches(states: seq<Mail>, moves: seq<Move>, maximum: int)
  {
    IsRun(states, moves, maximum) && states[0] == Mail(map[], [], map[], 0)
  }

  lemma {:induction false} ReachableMail(states: seq<Mail>, moves: seq<Move>, maximum: int)
    requires Reaches(states, moves, maximum)
    ensures MailOk(states[|moves|], maximum)
    decreases |moves|
  {
    if |moves| == 0 {
    } else {
      var n := |moves| - 1;
      Shorter(states, moves, maximum);
      ReachableMail(states[..n + 1], moves[..n], maximum);
      MailKept(states[n], moves[n], maximum);
    }
  }

  // ---------------------------------------------------------------- final states and replays

  function Replays(moves: seq<Move>, id: nat): nat
  {
    if |moves| == 0 then 0
    else Replays(moves[..|moves| - 1], id) + One(moves[|moves| - 1] == Replay(id))
  }

  /** There is one audit row for each replay. */
  lemma {:induction false} EveryReplayIsAudited(states: seq<Mail>, moves: seq<Move>, maximum: int, id: nat)
    requires IsRun(states, moves, maximum)
    ensures AuditsOf(states[|moves|].audits, id) == AuditsOf(states[0].audits, id) + Replays(moves, id)
    decreases |moves|
  {
    if |moves| == 0 {
    } else {
      var n := |moves| - 1;
      Shorter(states, moves, maximum);
      EveryReplayIsAudited(states[..n + 1], moves[..n], maximum, id);
      MoveAudits(states[n], moves[n], maximum, id);
    }
  }

  lemma MoveAudits(s: Mail, move: Move, maximum: int, id: nat)
    requires Enabled(s, move)
    ensures AuditsOf(Next(s, move, maximum).audits, id) == AuditsOf(s.audits, id) + One(move == Replay(id))
  {
    if move.Replay? { OneMoreAudit(s.audits, AuditRow(move.id, s.rows[move.id].attempts), id); }
  }

  /** In every reachable state no delivery was attempted more often than the maximum and its replays add up to;
      a delivery waiting for a retry is below the maximum; and no two dispatchers hold the same one. */
  lemma AttemptsAreBounded(states: seq<Mail>, moves: seq<Move>, maximum: int)
    requires Reaches(states, moves, maximum)
    ensures MailOk(states[|moves|], maximum)
    ensures forall id :: id in states[|moves|].rows ==>
      states[|moves|].rows[id].attempts <= (if maximum > 1 then maximum else 1) + Replays(moves, id)
  {
    ReachableMail(states, moves, maximum);
    forall id | id in states[|moves|].rows
      ensures states[|moves|].rows[id].attempts <= Limit(maximum) + Replays(moves, id)
    {
      EveryReplayIsAudited(states, moves, maximum, id);
    }
  }

  /** A delivery that had succeeded or been given up is active again. */
  predicate Returns(s: Mail, t: Mail, id: nat)
  {
    && id in s.rows && s.rows[id].status in {Succeeded, DeadLetter}
    && !(id in t.rows && t.rows[id].status == s.rows[id].status)
  }

  /** At how many steps of the run the delivery left a final state. */
  function Departures(states: seq<Mail>, id: nat): nat
  {
    if |states| < 2 then 0
    else Departures(states[..|states| - 1], id) + One(Returns(states[|states| - 2], states[|states| - 1], id))
  }

  /** Each time a delivery leaves a final state, an audit row of its own is written. */
  lemma {:induction false} EveryReturnIsAudited(states: seq<Mail>, moves: seq<Move>, maximum: int, id: nat)
    requires IsRun(states, moves, maximum) && MailOk(states[0], maximum)
    ensures MailOk(states[|moves|], maximum)
    ensures Departures(states, id) + AuditsOf(states[0].audits, id) <= AuditsOf(states[|moves|].audits, id)
    decreases |moves|
  {
    if |moves| == 0 {
    } else {
      var n := |moves| - 1;
      Shorter(states, moves, maximum);
      EveryReturnIsAudited(states[..n + 1], moves[..n], maximum, id);
      MailKept(states[n], moves[n], maximum);
      MoveIsAudited(states[n], moves[n], maximum, id);
    }
  }

  lemma MoveIsAudited(s: Mail, move: Move, maximum: int, id: nat)
    requires Enabled(s, move) && MailOk(s, maximum)
    ensures One(Returns(s, Next(s, move, maximum), id)) + AuditsOf(s.audits, id)
         <= AuditsOf(Next(s, move, maximum).audits, id)
  {
    MoveAudits(s, move, maximum, id);
    if move.CommitBatch? { assert BatchOk(s, s.workers[move.worker], maximum); }
  }

  /** The `a`-th audit row was written at the `i`-th step, a replay, and tells the attempts made by then. */
  predicate Tells(states: seq<Mail>, moves: seq<Move>, a: nat, audit: AuditRow, i: nat)
    requires |states| == |moves| + 1
  {
    && i < |moves| && moves[i] == Replay(audit.delivery) && |states[i].audits| == a
    && audit.delivery in states[i].rows && states[i].rows[audit.delivery].attempts == audit.attempts
  }

  /** Every audit row tells the attempts its delivery had at the moment of its replay, and none is ever lost. */
  lemma {:induction false} AuditsTellAttempts(states: seq<Mail>, moves: seq<Move>, maximum: int, a: nat)
    returns (i: nat)
    requires Reaches(states, moves, maximum) && a < |states[|moves|].audits|
    ensures Tells(states, moves, a, states[|moves|].audits[a], i)
    decreases |moves|
  {
    var n := |moves| - 1;
    Shorter(states, moves, maximum);
    if a < |states[n].audits| {
      i := AuditsTellAttempts(states[..n + 1], moves[..n], maximum, a);
    } else {
      i := n;
    }
  }

  /** A delivery that succeeded or was given up is not touched again, unless it is replayed. */
  lemma {:induction false} FinalUntilReplayed(states: seq<Mail>, moves: seq<Move>, maximum: int, id: nat)
    requires IsRun(states, moves, maximum) && MailOk(states[0], maximum)
    requires id in states[0].rows && states[0].rows[id].status in {Succeeded, DeadLetter} && Replays(moves, id) == 0
    ensures MailOk(states[|moves|], maximum)
    ensures id in states[|moves|].rows && states[|moves|].rows[id] == states[0].rows[id]
    decreases |moves|
  {
    if |moves| == 0 {
    } else {
      var n := |moves| - 1;
      Shorter(states, moves, maximum);
      FinalUntilReplayed(states[..n + 1], moves[..n], maximum, id);
      MailKept(states[n], moves[n], maximum);
      FinalStays(states[n], moves[n], maximum, id);
    }
  }

  lemma FinalStays(s: Mail, move: Move, maximum: int, id: nat)
    requires Enabled(s, move) && MailOk(s, maximum) && id in s.rows && move != Replay(id)
    requires s.rows[id].status in {Succeeded, DeadLetter}
    ensures id in Next(s, move, maximum).rows && Next(s, move, maximum).rows[id] == s.rows[id]
  {
    if move.CommitBatch? { assert BatchOk(s, s.workers[move.worker], maximum); }
  }

  // ---------------------------------------------------------------- the loop is a run of the system

  predicate Known(rows: map<nat, Delivery>, ids: seq<nat>)
  {
    forall i :: 0 <= i < |ids| ==> ids[i] in rows
  }

  predicate Distinct(ids: seq<nat>)
  {
    forall i, j :: 0 <= i < j < |ids| ==> ids[i] != ids[j]
  }

  function Locked(ids: seq<nat>): set<nat> { set i | 0 <= i < |ids| :: ids[i] }

  lemma {:induction false} LockedSize(ids: seq<nat>)
    requires Distinct(ids)
    ensures |Locked(ids)| == |ids|
  {
    if |ids| == 0 {
    } else {
      var n := |ids| - 1;
      LockedSize(ids[..n]);
      assert Locked(ids) == Locked(ids[..n]) + {ids[n]};
    }
  }

  /** The deliveries that a pass records. */
  function Results(rows: map<nat, Delivery>, ids: seq<nat>, meetings: seq<Meeting>, maximum: int): map<nat, Delivery>
    requires |ids| == |meetings| && Known(rows, ids) && Distinct(ids)
  {
    map i | 0 <= i < |ids| :: ids[i] := Met(rows[ids[i]], meetings[i], maximum)
  }

  lemma OneMoreResult(rows: map<nat, Delivery>, ids: seq<nat>, meetings: seq<Meeting>, k: nat, maximum: int)
    requires |ids| == |meetings| && Known(rows, ids) && Distinct(ids) && k < |ids|
    ensures ids[k] !in Results(rows, ids[..k], meetings[..k], maximum)
    ensures Results(rows, ids[..k + 1], meetings[..k + 1], maximum)
         == Results(rows, ids[..k], meetings[..k], maximum)[ids[k] := Met(rows[ids[k]], meetings[k], maximum)]
  {
    var more := Results(rows, ids[..k + 1], meetings[..k + 1], maximum);
    assert ids[..k + 1][k] == ids[k];
    forall id | id in Results(rows, ids[..k], meetings[..k], maximum) ensures id in more
    {
      var i :| 0 <= i < k && ids[i] == id;
      assert ids[..k + 1][i] == id;
    }
  }

  /** What the pass does at one delivery, as a move. */
  function MoveFor(d: Delivery, w: nat, id: nat, m: Meeting): Move
  {
    if m.endpointExists then Post(w, id, m.response, m.now + NextDelay(d.attempts + 1, m.jitter)) else Abandon(w, id)
  }

  predicate CanLock(s: Mail, w: nat, ids: seq<nat>)
  {
    w !in s.workers && |ids| <= BATCH_LIMIT && Distinct(ids) && Known(s.rows, ids)
  }

  ghost predicate Lockable(s: Mail, w: nat, ids: seq<nat>)
  {
    CanLock(s, w, ids) && forall i :: 0 <= i < |ids| ==> Active(s.rows[ids[i]]) && Unlocked(s, ids[i])
  }

  /** The system while a dispatcher works on its batch. */
  function InBatch(s: Mail, w: nat, ids: seq<nat>, done: map<nat, Delivery>): Mail
  {
    s.(workers := s.workers[w := Batch(Locked(ids), done)])
  }

  lemma Append(states: seq<Mail>, moves: seq<Move>, move: Move, maximum: int)
    requires IsRun(states, moves, maximum) && Enabled(states[|moves|], move)
    ensures IsRun(states + [Next(states[|moves|], move, maximum)], moves + [move], maximum)
  {
    var more, longer := states + [Next(states[|moves|], move, maximum)], moves + [move];
    forall i | 0 <= i < |longer| ensures Enabled(more[i], longer[i]) && more[i + 1] == Next(more[i], longer[i], maximum)
    {
      if i < |moves| { assert more[i] == states[i] && more[i + 1] == states[i + 1] && longer[i] == moves[i]; }
    }
  }

  lemma OnePost(s: Mail, w: nat, ids: seq<nat>, done: map<nat, Delivery>, id: nat, m: Meeting, maximum: int)
    requires id in s.rows && id in Locked(ids) && id !in done
    ensures Enabled(InBatch(s, w, ids, done), MoveFor(s.rows[id], w, id, m))
    ensures Next(InBatch(s, w, ids, done), MoveFor(s.rows[id], w, id, m), maximum)
         == InBatch(s, w, ids, done[id := Met(s.rows[id], m, maximum)])
  {
    var t := Next(InBatch(s, w, ids, done), MoveFor(s.rows[id], w, id, m), maximum);
    assert t.workers == InBatch(s, w, ids, done[id := Met(s.rows[id], m, maximum)]).workers;
  }

  /** Locking the batch, and then posting or giving up its first `k` deliveries in turn. */
  lemma {:induction false} PostsAreRun(s: Mail, w: nat, ids: seq<nat>, meetings: seq<Meeting>, k: nat, maximum: int)
    returns (states: seq<Mail>, moves: seq<Move>)
    requires |ids| == |meetings| && Lockable(s, w, ids) && k <= |ids|
    ensures IsRun(states, moves, maximum) && states[0] == s && |moves| == k + 1
    ensures states[|moves|] == InBatch(s, w, ids, Results(s.rows, ids[..k], meetings[..k], maximum))
    decreases k
  {
    if k == 0 {
      LockedSize(ids);
      assert Results(s.rows, ids[..0], meetings[..0], maximum) == map[];
      states, moves := [s, Next(s, Lock(w, Locked(ids)), maximum)], [Lock(w, Locked(ids))];
    } else {
      var n := k - 1;
      states, moves := PostsAreRun(s, w, ids, meetings, n, maximum);
      OneMoreResult(s.rows, ids, meetings, n, maximum);
      OnePost(s, w, ids, Results(s.rows, ids[..n], meetings[..n], maximum), ids[n], meetings[n], maximum);
      var move := MoveFor(s.rows[ids[n]], w, ids[n], meetings[n]);
      Append(states, moves, move, maximum);
      states, moves := states + [Next(states[|moves|], move, maximum)], moves + [move];
    }
  }

  lemma BatchEnds(s: Mail, w: nat, ids: seq<nat>, done: map<nat, Delivery>, maximum: int)
    requires w !in s.workers
    ensures Enabled(InBatch(s, w, ids, done), Crash(w)) && Next(InBatch(s, w, ids, done), Crash(w), maximum) == s
    ensures done.Keys == Locked(ids) ==>
      && Enabled(InBatch(s, w, ids, done), CommitBatch(w))
      && Next(InBatch(s, w, ids, done), CommitBatch(w), maximum)
         == s.(rows := s.rows + done, committed := s.committed + |done|)
  {
    assert InBatch(s, w, ids, done).workers - {w} == s.workers;
  }

  lemma CrashIsRun(s: Mail, w: nat, ids: seq<nat>, meetings: seq<Meeting>, k: nat, maximum: int)
    returns (states: seq<Mail>, moves: seq<Move>)
    requires |ids| == |meetings| && Lockable(s, w, ids) && k <= |ids|
    ensures IsRun(states, moves, maximum) && states[0] == s && |moves| == k + 2
    ensures moves[|moves| - 1] == Crash(w) && states[|moves|] == s
  {
    var rest, later := PostsAreRun(s, w, ids, meetings, k, maximum);
    BatchEnds(s, w, ids, Results(s.rows, ids[..k], meetings[..k], maximum), maximum);
    Append(rest, later, Crash(w), maximum);
    states, moves := rest + [s], later + [Crash(w)];
  }

  lemma ResultsCover(rows: map<nat, Delivery>, ids: seq<nat>, meetings: seq<Meeting>, maximum: int)
    requires |ids| == |meetings| && Known(rows, ids) && Distinct(ids)
    ensures Results(rows, ids, meetings, maximum).Keys == Locked(ids)
    ensures |Results(rows, ids, meetings, maximum)| == |ids|
  {
    LockedSize(ids);
    assert |Results(rows, ids, meetings, maximum)| == |Results(rows, ids, meetings, maximum).Keys|;
  }

  lemma AllPosted(s: Mail, w: nat, ids: seq<nat>, meetings: seq<Meeting>, maximum: int)
    returns (states: seq<Mail>, moves: seq<Move>)
    requires |ids| == |meetings| && Lockable(s, w, ids)
    ensures IsRun(states, moves, maximum) && states[0] == s && |moves| == |ids| + 1
    ensures states[|moves|] == InBatch(s, w, ids, Results(s.rows, ids, meetings, maximum))
  {
    states, moves := PostsAreRun(s, w, ids, meetings, |ids|, maximum);
    assert ids[..|ids|] == ids && meetings[..|ids|] == meetings;
  }

  lemma BatchCommits(s: Mail, w: nat, ids: seq<nat>, meetings: seq<Meeting>, maximum: int)
    requires |ids| == |meetings| && Lockable(s, w, ids)
    ensures var t := InBatch(s, w, ids, Results(s.rows, ids, meetings, maximum));
      Enabled(t, CommitBatch(w)) && Next(t, CommitBatch(w), maximum) == AllRecorded(s, ids, meetings, maximum)
  {
    ResultsCover(s.rows, ids, meetings, maximum);
    BatchEnds(s, w, ids, Results(s.rows, ids, meetings, maximum), maximum);
  }

  lemma CommitIsRun(s: Mail, w: nat, ids: seq<nat>, meetings: seq<Meeting>, maximum: int)
    returns (states: seq<Mail>, moves: seq<Move>)
    requires |ids| == |meetings| && Lockable(s, w, ids)
    ensures IsRun(states, moves, maximum) && states[0] == s && |moves| == |ids| + 2
    ensures moves[|moves| - 1] == CommitBatch(w) && states[|moves|] == AllRecorded(s, ids, meetings, maximum)
  {
    var rest, later := AllPosted(s, w, ids, meetings, maximum);
    BatchCommits(s, w, ids, meetings, maximum);
    Append(rest, later, CommitBatch(w), maximum);
    states, moves := rest + [AllRecorded(s, ids, meetings, maximum)], later + [CommitBatch(w)];
  }

  function AllRecorded(s: Mail, ids: seq<nat>, meetings: seq<Meeting>, maximum: int): Mail
    requires |ids| == |meetings| && Known(s.rows, ids) && Distinct(ids)
  {
    s.(rows := s.rows + Results(s.rows, ids, meetings, maximum), committed := s.committed + |ids|)
  }

  /** `DispatchOnce` is a run of the concurrent system: a lock of the batch, one post or surrender for each
      delivery, and a commit of what was recorded; or, exactly when a signing secret is missing, a crash that
      leaves everything as it was. */
  lemma DispatchIsRun(s: Mail, w: nat, ids: seq<nat>, meetings: seq<Meeting>, maximum: int)
    returns (states: seq<Mail>, moves: seq<Move>)
    requires |ids| == |meetings| && Lockable(s, w, ids)
    ensures IsRun(states, moves, maximum) && states[0] == s && |moves| > 0
    ensures if exists i :: 0 <= i < |ids| && Fails(meetings[i])
      then moves[|moves| - 1] == Crash(w) && states[|moves|] == s
      else moves[|moves| - 1] == CommitBatch(w) && states[|moves|] == AllRecorded(s, ids, meetings, maximum)
  {
    if k :| 0 <= k < |ids| && Fails(meetings[k]) {
      states, moves := CrashIsRun(s, w, ids, meetings, k, maximum);
    } else {
      states, moves := CommitIsRun(s, w, ids, meetings, maximum);
    }
  }

  /** The committed rows of such a batch are those that `DispatchOnce` leaves in its objects. */
  lemma ResultsAreMet(rows: map<nat, Delivery>, ids: seq<nat>, meetings: seq<Meeting>, maximum: int, i: nat)
    requires |ids| == |meetings| && Known(rows, ids) && Distinct(ids) && i < |ids|
    ensures (rows + Results(rows, ids, meetings, maximum))[ids[i]] == Met(rows[ids[i]], meetings[i], maximum)
    ensures forall id :: id in rows && id !in Locked(ids) ==>
      (rows + Results(rows, ids, meetings, maximum))[id] == rows[id]
  {
    assert ids[i] in Results(rows, ids, meetings, maximum);
  }

  // ---------------------------------------------------------------- no delivery is lost

  /** A dispatcher takes at most 25 deliveries, each PENDING or RETRY and locked by nobody, and any such batch. */
  lemma LockedExactly(s: Mail, w: nat, ids: set<nat>)
    ensures Enabled(s, Lock(w, ids)) <==>
      && w !in s.workers && |ids| <= 25
      && forall id :: id in ids ==>
        && id in s.rows && s.rows[id].status in {Pending, Retry}
        && forall v :: v in s.workers ==> id !in s.workers[v].locked
  {
  }

  /** One move after another. */
  lemma Then(states: seq<Mail>, moves: seq<Move>, move: Move, maximum: int)
    returns (more: seq<Mail>, longer: seq<Move>)
    requires IsRun(states, moves, maximum) && Enabled(states[|moves|], move)
    ensures IsRun(more, longer, maximum) && more[0] == states[0]
    ensures longer == moves + [move] && more[|longer|] == Next(states[|moves|], move, maximum)
    ensures |more| > |moves| && more[|moves|] == states[|moves|]
  {
    Append(states, moves, move, maximum);
    more, longer := states + [Next(states[|moves|], move, maximum)], moves + [move];
  }

  /** A dispatcher that has the delivery to itself, from its selection to its commit. */
  lemma AttemptOne(states: seq<Mail>, moves: seq<Move>, w: nat, id: nat, response: Response, retryAt: real,
                   maximum: int)
    returns (more: seq<Mail>, longer: seq<Move>)
    requires IsRun(states, moves, maximum)
    requires Enabled(states[|moves|], Lock(w, {id}))
    ensures IsRun(more, longer, maximum) && more[0] == states[0] && id in more[|longer|].rows
    ensures longer == moves + [Lock(w, {id}), Post(w, id, response, retryAt), CommitBatch(w)]
    ensures more[|longer|].rows[id] == Attempted(states[|moves|].rows[id], response, maximum, retryAt)
  {
    var s := states[|moves|];
    more, longer := Then(states, moves, Lock(w, {id}), maximum);
    more, longer := Then(more, longer, Post(w, id, response, retryAt), maximum);
    more, longer := Then(more, longer, CommitBatch(w), maximum);
  }

  /** No delivery is lost: from every state of a run a PENDING or RETRY delivery can still be attempted, whether it
      waits or is held by a dispatcher `w` that then crashes. */
  lemma NoDeliveryIsLost(s: Mail, w: nat, id: nat, response: Response, retryAt: real, maximum: int)
    returns (states: seq<Mail>, moves: seq<Move>)
    requires id in s.rows && s.rows[id].status in {Pending, Retry}
    requires forall v :: v in s.workers && v != w ==> id !in s.workers[v].locked
    ensures IsRun(states, moves, maximum) && states[0] == s
    ensures var t := states[|moves|];
      && id in t.rows && t.rows[id].attempts == s.rows[id].attempts + 1
      && (t.rows[id].status == Succeeded <==> response.Answer? && 200 <= response.code < 300)
  {
    if w in s.workers {
      states, moves := Then([s], [], Crash(w), maximum);
    } else {
      states, moves := [s], [];
    }
    LockedExactly(states[|moves|], w, {id});
    states, moves := AttemptOne(states, moves, w, id, response, retryAt, maximum);
  }

  /** A replayed delivery, whatever became of it before, waits again at once with its attempts kept, and can be
      attempted again. */
  lemma ReplayIsAttempted(s: Mail, w: nat, id: nat, response: Response, retryAt: real, maximum: int)
    returns (states: seq<Mail>, moves: seq<Move>)
    requires id in s.rows && w !in s.workers
    requires forall v :: v in s.workers ==> id !in s.workers[v].locked
    ensures IsRun(states, moves, maximum) && states[0] == s
    ensures moves == [Replay(id), Lock(w, {id}), Post(w, id, response, retryAt), CommitBatch(w)]
    ensures id in states[1].rows && states[1].rows[id]
      == Delivery(s.rows[id].endpoint, Pending, s.rows[id].attempts, None, Some(ManualReplay))
    ensures states[1].audits == s.audits + [AuditRow(id, s.rows[id].attempts)]
    ensures id in states[4].rows && states[4].rows[id].attempts == s.rows[id].attempts + 1
    ensures states[4].rows[id].status == Succeeded <==> response.Answer? && 200 <= response.code < 300
  {
    states, moves := Then([s], [], Replay(id), maximum);
    LockedExactly(states[1], w, {id});
    states, moves := AttemptOne(states, moves, w, id, response, retryAt, maximum);
  }

  /** So can a new one. */
  lemma NewDeliveryIsAttempted(s: Mail, w: nat, id: nat, endpoint: nat, response: Response, retryAt: real, maximum: int)
    returns (states: seq<Mail>, moves: seq<Move>)
    requires id !in s.rows && w !in s.workers
    requires forall v :: v in s.workers ==> id !in s.workers[v].locked
    ensures IsRun(states, moves, maximum) && states[0] == s
    ensures moves == [Add(id, endpoint), Lock(w, {id}), Post(w, id, response, retryAt), CommitBatch(w)]
    ensures id in states[1].rows && states[1].rows[id] == Delivery(endpoint, Pending, 0, None, None)
    ensures id in states[4].rows && states[4].rows[id].attempts == 1
    ensures states[4].rows[id].status == Succeeded <==> response.Answer? && 200 <= response.code < 300
  {
    states, moves := Then([s], [], Add(id, endpoint), maximum);
    LockedExactly(states[1], w, {id});
    states, moves := AttemptOne(states, moves, w, id, response, retryAt, maximum);
  }

  // ---------------------------------------------------------------- quiescence

  /** How many more attempts a delivery can see without a replay. */
  function Fuel(d: Delivery, maximum: int): nat
  {
    if !Active(d) then 0 else if maximum - d.attempts > 1 then maximum - d.attempts else 1
  }

  function Fuels(rows: map<nat, Delivery>, maximum: int): map<nat, int>
  {
    map id | id in rows :: Fuel(rows[id], maximum)
  }

  ghost function AllFuel(rows: map<nat, Delivery>, maximum: int): int { Total(Fuels(rows, maximum)) }

  lemma OneRow(rows: map<nat, Delivery>, id: nat, d: Delivery, maximum: int)
    ensures AllFuel(rows[id := d], maximum)
         == AllFuel(rows, maximum) - (if id in rows then Fuel(rows[id], maximum) else 0) + Fuel(d, maximum)
  {
    TotalUpdate(Fuels(rows, maximum), id, Fuel(d, maximum));
    assert Fuels(rows[id := d], maximum) == Fuels(rows, maximum)[id := Fuel(d, maximum)];
  }

  lemma OneLess(done: map<nat, Delivery>, id: nat)
    requires id in done
    ensures |done| == |done - {id}| + 1
  {
    assert done.Keys == (done - {id}).Keys + {id};
    assert |done.Keys| == |(done - {id}).Keys| + 1;
  }

  lemma MergeOne(rows: map<nat, Delivery>, done: map<nat, Delivery>, id: nat)
    requires id in done && id in rows
    ensures rows + done == (rows + (done - {id}))[id := done[id]]
    ensures (rows + (done - {id}))[id] == rows[id]
  {
  }

  /** Committing a batch uses up at least one unit for each of its deliveries. */
  lemma {:induction false} BatchBurnsFuel(rows: map<nat, Delivery>, done: map<nat, Delivery>, maximum: int)
    requires forall id :: id in done ==> id in rows && Fuel(done[id], maximum) < Fuel(rows[id], maximum)
    ensures AllFuel(rows + done, maximum) + |done| <= AllFuel(rows, maximum)
    decreases |done|
  {
    if done == map[] {
      assert rows + done == rows;
    } else {
      var id :| id in done;
      BatchBurnsFuel(rows, done - {id}, maximum);
      MergeOne(rows, done, id);
      OneRow(rows + (done - {id}), id, done[id], maximum);
      OneLess(done, id);
    }
  }

  /** New deliveries and replays bring at most the maximum each. */
  function Brought(moves: seq<Move>, maximum: int): nat
  {
    if |moves| == 0 then 0 else Brought(moves[..|moves| - 1], maximum) + BroughtBy(moves[|moves| - 1], maximum)
  }

  function BroughtBy(move: Move, maximum: int): nat { if move.Add? || move.Replay? then Limit(maximum) else 0 }

  lemma MoveBurnsFuel(s: Mail, move: Move, maximum: int)
    requires Enabled(s, move) && MailOk(s, maximum)
    ensures var t := Next(s, move, maximum);
      t.committed + AllFuel(t.rows, maximum)
        <= s.committed + AllFuel(s.rows, maximum) + BroughtBy(move, maximum)
  {
    match move
    case Add(id, endpoint) => OneRow(s.rows, id, Delivery(endpoint, Pending, 0, None, None), maximum);
    case Replay(id) => OneRow(s.rows, id, Replayed(s.rows[id]), maximum);
    case CommitBatch(worker) =>
      var b := s.workers[worker];
      assert BatchOk(s, b, maximum);
      forall id | id in b.done ensures Fuel(b.done[id], maximum) < Fuel(s.rows[id], maximum)
      {
        StepIsBounded(s.rows[id], b.done[id], AuditsOf(s.audits, id), maximum);
      }
      BatchBurnsFuel(s.rows, b.done, maximum);
    case _ =>
  }

  /** Dispatching comes to rest: in any run from any lawful state the committed attempts are bounded by the
      fuel there was and what new deliveries and replays brought, however the dispatchers crash. */
  lemma {:induction false} DispatchingComesToRest(states: seq<Mail>, moves: seq<Move>, maximum: int)
    requires IsRun(states, moves, maximum) && MailOk(states[0], maximum)
    ensures MailOk(states[|moves|], maximum)
    ensures states[|moves|].committed + AllFuel(states[|moves|].rows, maximum)
         <= states[0].committed + AllFuel(states[0].rows, maximum) + Brought(moves, maximum)
    decreases |moves|
  {
    if |moves| == 0 {
    } else {
      var n := |moves| - 1;
      Shorter(states, moves, maximum);
      DispatchingComesToRest(states[..n + 1], moves[..n], maximum);
      MailKept(states[n], moves[n], maximum);
      MoveBurnsFuel(states[n], moves[n], maximum);
    }
  }
}
