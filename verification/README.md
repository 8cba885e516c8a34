# Verification model of the ForgePay payment service

ForgePay's correctness rests on PostgreSQL transactions and row locks, a double-entry ledger, and an
outbox that feeds Kafka, an inbox and a webhook dispatcher. This project models those mechanisms in
Dafny and proves what they guarantee, for any number of merchants, customers, payments, concurrent
transactions, workers and crashes. `dafny verify dfyconfig.toml` checks all of it.

## How the model is built

**Money and posting.** `Money`, `Ledger` and `Posting` hold the ledger lines, the journal tables and
the two balance checks. `Triggers` is the database's own discipline: arbitrary statements in arbitrary
transactions against the constraints, the immediate trigger and the deferred one.

**Payments, three ways.** `Database` has the rows, each operation's write set, and `Serial`, an
operation run alone; `Answers` says in plain statuses, accounts and rows what that tells the caller and leaves
behind. `Session` is the service code itself: classes whose fields the methods assign,
each route proved to do what `Serial` says. `Transactions` is the same operations statement by
statement under READ COMMITTED, with row locks, waits on unfinished unique-key inserts, the foreign
key's share lock, buffered writes, and a rollback possible at any point.

**From interleaving to laws.** `Isolation` proves what the locks give each transaction. `Serializability`
turns every interleaved run into a serial history. `Invariants`, `Books`, `EventLog`, `Stories` and `Idempotency`
prove laws of single operations, and `Safety` and `Histories` carry them to every state of every run. `Refusals` explains the
calls that roll back and shows that no commit fails its deferred checks. `Deadlock` proves that waiting never
closes a cycle and that everyone can finish. `Reconciliation` reads across a run.

**Events.** `Publisher`, `Inbox`, `Dispatcher` and `Secrets` are transition systems of their own, with
crashes, ambiguous sends, duplicates and concurrent workers, next to the loops as the code has them;
`Publisher`, `EventConsumer` and `Dispatcher` prove those loops to be runs of the concurrent system.
`Pipeline` puts service, publishers and consumers together. `Cancellation` exhibits runs in which a cancelled payment
stops the consumer.

## Where code and documentation differ

The model follows the code.

- Posted entries are documented as immutable (docs/architecture/ledger.md). The entry trigger looks only at
  the new `journal_id` of an UPDATE, so an entry can be moved out of a POSTED journal.
  `Triggers.MovedEntryUnbalances` gives such a statement and `Triggers.FrozenExactly` says exactly when
  immutability holds. The service never issues such a statement.
- Messages the consumer cannot use are documented as discarded (docs/architecture/events.md). A cancellation's
  payload is empty, and reading its `payment_id` raises outside the decoding `try`, so the consumer stops there
  and no later message is ever committed: `EventConsumer.DrainsIffNothingCancelled` says exactly when the topic
  can be drained, and `Cancellation.CancellationStopsConsumer` gives such a run.
- The publisher is documented to increment retry counts while Kafka is unavailable
  (docs/architecture/failure-recovery.md). When the producer cannot even start, `publish_once` returns 0 and touches
  no row, as `Publisher.PublishOnce` states; only failed sends are counted.
- The lifecycle diagram (docs/architecture/payment-lifecycle.md) lacks the edge from PARTIALLY_REFUNDED to itself.
- Replay is described for dead-lettered deliveries (docs/adr/ADR-009-webhook-retry-strategy.md). The route takes
  a delivery in any status.
- A 5xx answer is documented to store the last error (docs/architecture/failure-recovery.md). A retry after
  such an answer leaves `last_error` as it was: `Dispatcher.ErrorStoredIffGivenUp` and, for a first 500 answer,
  `Dispatcher.FirstServerErrorIsNotStored`.

Undocumented, and modelled as it is: a DELETE of a draft journal is silently skipped, because the trigger returns
NEW, which is null there (`Triggers.JournalsStay`); and an account can be funded only once, because its id is the unique
reference of the funding journal (`Histories.FundedOnce`).

## Model

Source paths are relative to the repository's root.

| member | source | states |
|---|---|---|
| `Serializability.Serializable` | services/payment_service/app/service.py:125-437 | for every interleaved run, with rollbacks anywhere, some serial history of exactly the answered calls gives the same database (rows, entries and outbox included) and the same replies; all calls but the persisted refusals stand in commit order, and each refusal stands at its own balance read: after all calls answered by then, and besides them only after other refusals, which change no balance |
| `Serializability.RefusalMovesBack` | services/payment_service/app/service.py:264-275 | a committed authorization refusal can be moved before any number of calls on other payments: same replies, same final database |
| `Serializability.InsertExplains` | services/payment_service/app/service.py:263-275 | a refusal takes its serial place where its balance was read, among calls that committed since |
| `Serializability.CreditsPlaced` | services/payment_service/app/service.py:179-191 | the two sums of the balance read are those of one moment, because the credits have not moved between them |
| `Serializability.InsertPlaces` | services/payment_service/app/service.py:256-275 | inserting a refusal where it read leaves every other authorization that is still deciding at the place where it read |
| `Refusals.EveryAbortIsSerial` | services/payment_service/app/service.py:256-333 | in every run, a transaction that a statement aborts is told what its operation alone would be told on some state between its begin and that statement |
| `Refusals.SummedSomewhere` | services/payment_service/app/service.py:170-191 | the debit sum of a capture that is about to sum its credits is that of an earlier state in which it was open and whose credits are still the same |
| `Refusals.CommitPassesTriggers` | alembic/versions/0002_harden_ledger_and_webhook_secrets.py:63-107 | in every reachable state the deferred checks queued by a posting that is ready to commit pass on the committed tables with its own rows |
| `Isolation.RunsAreIsolated` | services/payment_service/app/service.py:256-263 | in every reachable state no two transactions hold conflicting locks and what each has read is still true, or moved only in the safe direction |
| `Isolation.CreditsFrozen` | services/payment_service/app/service.py:170-191 | while a customer row is locked, no commit changes the credits of its cash, and debits only grow |
| `Isolation.OthersKeep` | services/payment_service/app/service.py:304-319 | a commit under locks apart from a transaction's own keeps all that the transaction relies on |
| `Isolation.StatementKeeps` | services/payment_service/app/service.py:304-333 | each statement, once its lock is held, keeps its transaction's own facts |
| `Isolation.CommitIsSerial` | services/payment_service/app/service.py:314-357 | at its commit the reply and write set of a transaction, unless it commits a refusal it decided earlier, are those of the operation run alone on that moment's database |
| `Deadlock.NoWaitCycle` | services/payment_service/app/infra/repositories.py:106-142 | no chain of lock waits, through rows, unique-key inserts or the foreign-key share lock, returns to its start in any reachable state |
| `Deadlock.WaitsForRunnable` | services/payment_service/app/service.py:304-319 | whoever waits, waits in the end for a transaction that can take its next statement |
| `Deadlock.EveryoneFinishes` | services/payment_service/app/service.py:132-152 | from every ordered state the open transactions' own statements bring all of them to an end, within a number of steps fixed by where they stand |
| `Deadlock.RunsAreOrdered` | services/payment_service/app/service.py:132-147 | every reachable state holds its locks below the rank of the next one wanted |
| `Safety.ReachableIsLawful` | services/payment_service/app/service.py:125-437 | all the laws below hold of the committed database in every state of every interleaved run |
| `Safety.SerialIsLawful` | services/payment_service/app/service.py:125-437 | each operation, accepted or refused, keeps every law |
| `Safety.NoOverspending` | services/payment_service/app/service.py:308-313 | in every state of every run each customer's cash in each currency is at least zero |
| `Safety.DeadBranches` | services/payment_service/app/service.py:330-333 | no run takes the already-captured, failed-upsert or raced-record branch, and a conflicting idempotency record is always complete |
| `Invariants.PaymentsKept` | services/payment_service/app/domain/payment.py:22-45 | captured is zero or the amount, refunded at most captured, and the status says which, after every operation |
| `Invariants.RowLeftOk` | services/payment_service/app/domain/payment.py:42-45 | each change of a payment is one of the nine that the service makes (no capture but from AUTHORIZED, no refund but after a capture), stays within the transition table and touches only status, captured and refunded |
| `Invariants.JournalsKept` | services/payment_service/app/infra/models.py:109-122 | a capture journal exists exactly for the payments with captured money, a refund journal exactly for each refund row, all POSTED |
| `Invariants.CashKept` | services/payment_service/app/service.py:263-313 | no operation takes a customer's cash below zero |
| `Invariants.CashAfter` | services/payment_service/app/domain/ledger.py:4-30 | captures lower and funding and refunds raise the customer's cash, by the amount moved and for that customer and currency only |
| `Invariants.ProjectionKept` | services/payment_service/app/service.py:142-158 | projected cash equals funding less captured plus refunded over the customer's payments |
| `Invariants.ConservationKept` | services/payment_service/app/domain/ledger.py:4-30 | debits equal credits in each currency, and what a merchant's customers hold plus its receivable is what the provider funded |
| `Books.BooksKept` | services/payment_service/app/service.py:142-158 | the merchant's receivable account stands at the captured less the refunded amounts of its payments, the provider's account at minus what its customers were funded with, per merchant and currency |
| `Books.CustomersHold` | services/payment_service/app/service.py:142-158 | the cash of a merchant's customers is what stands on the two accounts of the merchant, with the sign turned |
| `Invariants.CapturesKept` | services/payment_service/app/service.py:320-335 | the CREDIT sum of a payment's capture journal is its captured amount |
| `Invariants.RefundsKept` | services/payment_service/app/service.py:402-424 | a payment's refund rows add up to its refunded amount |
| `EventLog.EventsKept` | services/payment_service/app/service.py:226-289 | folding a payment's outbox rows rebuilds its status, captured and refunded amounts, with one failure event exactly when it is FAILED, after every operation |
| `EventLog.ChangeFits` | services/payment_service/app/service.py:334-348 | each operation's event turns the projection of the old row into that of the new one and uses up potential |
| `EventLog.EventsAreBounded` | services/payment_service/app/service.py:419-436 | a payment has at most amount + 3 events |
| `Stories.ShapeGoesOn` | services/payment_service/app/domain/payment.py:22-39 | along every change of status the event kinds stay in the order of the lifecycle: created, authorized, captured, refunds; or an end by failure or cancellation at the places where the diagram has one |
| `Stories.StoriesKept` | services/payment_service/app/service.py:226-289 | after every operation the event kinds of each payment are exactly those its status calls for, in that order |
| `Histories.FirstWins` | services/payment_service/app/infra/repositories.py:23-46 | all answered creations under one key asked for the same thing and got the same stored body |
| `Histories.CapturedOnce` | services/payment_service/app/service.py:307-335 | in no run are two captures of one payment answered |
| `Histories.CaptureFollowsAuthorization` | services/payment_service/app/domain/payment.py:24-33 | in every run the outbox rows of a payment with an answered capture begin with its creation, its authorization and its capture |
| `Histories.FundedOnce` | services/payment_service/app/service.py:146-158 | in no run are two fundings of one account answered, because the account is the reference of its journal |
| `Histories.BooksMatchReplies` | services/payment_service/app/service.py:142-158 | in every state of every run the ledger agrees with what callers were told: provider account, receivable and customers' cash of a merchant are the answered fundings, the answered captures less refunds, and the difference |
| `Histories.ChangesAreBounded` | services/payment_service/app/domain/payment.py:22-39 | a payment's committed changes are exactly its outbox rows after the first, and at most amount + 2 |
| `Histories.EveryChangeIsAnEdge` | services/payment_service/app/domain/payment.py:42-45 | in every run each step leaves a payment as it was or makes one of those nine changes, using up potential and within the table, although refunds and refusals do not call `transition` |
| `Lifecycle.TableIsDiagram` | services/payment_service/app/domain/payment.py:22-45 | the table is the documented lifecycle diagram plus the edge from PARTIALLY_REFUNDED to itself |
| `Histories.ChangesAreEvents` | services/payment_service/app/infra/repositories.py:61-84 | a serial history leaves one outbox row for each call that changed the payment and one for its creation |
| `Idempotency.RecordsKept` | services/payment_service/app/infra/repositories.py:49-58 | committed records are complete and correspond one to one with payments through `resource_id` |
| `Idempotency.CreationAnswers` | services/payment_service/app/service.py:201-250 | a claimed key refuses exactly the other requests, answers with its stored body, and writes nothing |
| `Idempotency.ClaimStays` | services/payment_service/app/infra/repositories.py:33-46 | no later operation changes a claimed key's request or stored body |
| `Idempotency.RepliesShowRows` | services/payment_service/app/service.py:67-75 | a reply shows its payment as it stands after the call, or, from the stored body, as it was created |
| `Answers.FundReply` | services/payment_service/app/service.py:132-158 | a funding is accepted exactly for the merchant's own account, in its currency, once, and debits the customer's cash and credits the provider's account of the merchant |
| `Answers.CreateAnswer` | services/payment_service/app/service.py:201-250 | an unused key: a payment PENDING or FAILED as the risk verdict says, or the first failing check; a used one: the payment created for the same request as it was created, or the conflict |
| `Answers.CreateEffect` | services/payment_service/app/service.py:213-246 | one payment, its answer under its key, one event and one audit row |
| `Answers.AuthorizeAnswer` | services/payment_service/app/service.py:256-298 | only a PENDING payment of the merchant gets past the checks, and it becomes AUTHORIZED exactly when the customer's ledger cash covers it; otherwise the refusal is persisted |
| `Answers.AuthorizeEffect` | services/payment_service/app/service.py:264-298 | no money moves; the row is AUTHORIZED with its event and audit row, or FAILED with the event that says why |
| `Answers.CaptureAnswer` | services/payment_service/app/service.py:304-357 | a capture is accepted if and only if the payment is AUTHORIZED and the customer's ledger cash covers it; the customer is always found and the journal never there yet |
| `Answers.CaptureEffect` | services/payment_service/app/service.py:314-357 | the whole amount is debited to the merchant's receivable and credited to the customer's cash, with event and audit row |
| `Answers.CancelAnswer` | services/payment_service/app/domain/payment.py:22-45 | a cancellation is accepted if and only if the payment is CREATED, PENDING or AUTHORIZED |
| `Answers.CancelEffect` | services/payment_service/app/service.py:366-372 | the status and an event with an empty payload, and nothing else |
| `Answers.RefundAnswer` | services/payment_service/app/service.py:382-437 | a refund is accepted if and only if something is captured and it stays within what is left; the refund that uses it up makes the payment REFUNDED |
| `Answers.RefundEffect` | services/payment_service/app/service.py:396-437 | the amount is debited to the customer's cash and credited to the merchant's receivable, with one refund row and one event |
| `Answers.NoEffect` | services/payment_service/app/main.py:186-225 | a refused operation and a creation under a used key leave the database as it was |
| `Answers.BalanceIsCash` | services/payment_service/app/service.py:170-191 | the balance read is debits less credits of the customer's cash account, whether or not that account exists yet |
| `Triggers.PostedForever` | alembic/versions/0002_harden_ledger_and_webhook_secrets.py:63-165 | over all sequences of transactions that move no entry out of a POSTED journal, POSTED journals stay non-empty, balanced and of one currency, keep row and entries, and a new one was DRAFT when a statement posted it |
| `Triggers.FrozenExactly` | alembic/versions/0002_harden_ledger_and_webhook_secrets.py:133-141 | a committing transaction leaves every POSTED journal unchanged if and only if it never moves an entry out of one |
| `Triggers.TransactionKeepsSound` | alembic/versions/0002_harden_ledger_and_webhook_secrets.py:102-107 | a transaction that moves no entry out of a POSTED journal keeps all POSTED journals sound and unchanged |
| `Triggers.NoPostedInsert` | alembic/versions/0002_harden_ledger_and_webhook_secrets.py:72-86 | no transaction that inserts a journal as POSTED commits |
| `Triggers.PostedOnlyFromDraft` | alembic/versions/0002_harden_ledger_and_webhook_secrets.py:63-107 | over any transactions at all, a journal becomes POSTED only by an UPDATE that finds it DRAFT, in a transaction that commits |
| `Triggers.RowsUnderTransaction` | alembic/versions/0002_harden_ledger_and_webhook_secrets.py:118-145 | a POSTED journal's rows never grow, and stay the same exactly when none is taken |
| `Triggers.PostingsAreQueued` | alembic/versions/0002_harden_ledger_and_webhook_secrets.py:102-107 | every journal that became POSTED has a deferred check queued for the very row it ends with |
| `Triggers.RaisesExactly` | alembic/versions/0002_harden_ledger_and_webhook_secrets.py:109-165 | which statements raise, for all six kinds and any tables |
| `Triggers.PassesExactly` | alembic/versions/0002_harden_ledger_and_webhook_secrets.py:63-107 | the deferred calls let a transaction commit exactly when every queued POSTED row has equal sides above zero and entries of its own currency only |
| `Triggers.JournalsStay` | alembic/versions/0002_harden_ledger_and_webhook_secrets.py:123-145 | no journal ever disappears: a DELETE commits exactly for a draft, and then skips it |
| `Triggers.MovedEntryUnbalances` | alembic/versions/0002_harden_ledger_and_webhook_secrets.py:133-137 | an UPDATE that gives one entry of a POSTED journal to a draft is accepted and leaves the POSTED journal unsound; all journals were sound before |
| `Posting.CheckersAgree` | libs/common/forgepay_common/money.py:44-53 | the deferred trigger accepts the rows written for some lines exactly when `assert_balanced` takes the lines in the journal's currency |
| `Posting.RowSums` | services/payment_service/app/infra/repositories.py:162-172 | the sums over the rows written are the sums over the lines |
| `Posting.RowCurrencies` | alembic/versions/0002_harden_ledger_and_webhook_secrets.py:79-93 | the trigger's mismatch count is zero exactly when all lines have the journal's currency |
| `Money.MovementBalances` | services/payment_service/app/domain/ledger.py:4-30 | the lines built for funding, capture and refund always balance |
| `Money.BalancedExactly` | libs/common/forgepay_common/money.py:44-53 | `assert_balanced` takes exactly two or more lines of one currency with equal sides, and complains about too few lines before mixed currencies before sides |
| `Ledger.SumOfRows` | alembic/versions/0002_harden_ledger_and_webhook_secrets.py:76-82 | a sum about one journal depends on that journal's rows only |
| `Session.Session.CreateJournal` | services/payment_service/app/infra/repositories.py:145-176 | through the triggers, statement by statement, it leaves one POSTED journal with a row for each line, or, exactly when the reference is used, nothing |
| `Session.Session.ReadBalance` | services/payment_service/app/service.py:170-191 | the three queries return debits less credits of the customer's cash account, or zero without an account |
| `Session.Session.ClaimIdempotency` | services/payment_service/app/infra/repositories.py:23-46 | claims a new key, or reports the existing record or the conflict and changes nothing |
| `Session.Session.CompleteIdempotency` | services/payment_service/app/infra/repositories.py:49-58 | stores body and payment under the claimed request |
| `Session.Session.EnsureLedgerAccount` | services/payment_service/app/infra/repositories.py:106-142 | the account exists afterwards and no other is added |
| `Session.Session.FundRoute` | services/payment_service/app/main.py:113-124 | the whole transaction replies and leaves what the operation alone would, keeps every law, and is accepted exactly for a fundable account |
| `Session.Session.CreateRoute` | services/payment_service/app/main.py:128-140 | as above; under an unused key accepted exactly for a customer of the merchant, leaving exactly the named rows |
| `Session.Session.AuthorizeRoute` | services/payment_service/app/main.py:160-182 | as above; past the checks exactly when PENDING, granted exactly when covered, the refusal for want of funds committed and every other error rolled back |
| `Session.Session.CaptureRoute` | services/payment_service/app/main.py:186-196 | as above; accepted exactly when AUTHORIZED and covered, posting to the merchant's receivable |
| `Session.Session.CancelRoute` | services/payment_service/app/main.py:200-210 | as above; accepted exactly when CREATED, PENDING or AUTHORIZED |
| `Session.Session.RefundRoute` | services/payment_service/app/main.py:214-225 | as above; accepted exactly when captured money is left for it, crediting the merchant's receivable |
| `Session.Session.CapturePayment` | services/payment_service/app/service.py:301-357 | performs exactly the capture's decision and queues the deferred checks of its journal |
| `Session.Session.RefundPayment` | services/payment_service/app/service.py:375-437 | performs exactly the refund's decision and queues the deferred checks of its journal |
| `Session.Session.AuthorizePayment` | services/payment_service/app/service.py:253-298 | performs exactly the authorization's decision, refusal written or not |
| `Session.Session.CreatePayment` | services/payment_service/app/service.py:194-250 | performs exactly the creation's decision, answering again from the stored body |
| `Session.Session.FundAccount` | services/payment_service/app/service.py:125-167 | performs exactly the funding's decision |
| `Session.Session.CancelPayment` | services/payment_service/app/service.py:360-372 | performs exactly the cancellation's decision |
| `Session.Session.Commit` | alembic/versions/0002_harden_ledger_and_webhook_secrets.py:100-107 | commits exactly when every queued trigger call passes, and otherwise restores the tables |
| `Session.PostingPasses` | alembic/versions/0002_harden_ledger_and_webhook_secrets.py:63-97 | the deferred checks queued by a posting always pass at commit |
| `Reconciliation.ReconcileOnce` | services/payment_service/app/workers/reconciliation.py:10-33 | its findings are exactly the captured payments whose ledger sum differs from the row first read |
| `Reconciliation.NoFalseAlarm` | services/payment_service/app/workers/reconciliation.py:14-33 | whatever commits between its queries in whatever run, the ledger sum of each payment first read as CAPTURED equals its captured amount |
| `Reconciliation.CapturedForever` | services/payment_service/app/service.py:334-335 | once committed, a captured amount never changes again in any run |
| `Publisher.SendsAreConserved` | services/payment_service/app/workers/outbox_publisher.py:25-44 | for every row and run: copies in the log and copies still to come equal publication plus retries plus rolled-back sends plus the open send |
| `Publisher.NeverLostBoundedlyDuplicated` | services/payment_service/app/workers/outbox_publisher.py:23-47 | a published row has a copy, only committed rows have copies, and copies are bounded by publication, retries, rolled-back and open sends |
| `Publisher.CleanRowIsSentOnce` | services/payment_service/app/workers/outbox_publisher.py:29-36 | a published row without failures is in the log exactly once, with no copy on its way |
| `Publisher.NoRowIsLost` | services/payment_service/app/infra/repositories.py:198-210 | from every reachable state a committed unpublished row can still be published, even if its holder crashes |
| `Publisher.SelectedExactly` | services/payment_service/app/infra/repositories.py:198-206 | a publisher can take exactly the batches of at most 100 distinct, committed, unpublished rows that nobody has locked |
| `Publisher.ReachablePipe` | services/payment_service/app/infra/repositories.py:198-206 | publishers hold disjoint batches of unpublished committed rows in every reachable state |
| `Publisher.ServiceGrowsOutbox` | services/payment_service/app/infra/repositories.py:61-84 | no step of the payment service changes or removes an outbox row |
| `Publisher.PublishOnce` | services/payment_service/app/workers/outbox_publisher.py:15-47 | adds the written records in order, marks acknowledged rows published and all others for retry, and counts the acknowledged; for the rows a publisher of the system has selected, marks and log are those of its run |
| `Publisher.OutboxRow.Mark` | services/payment_service/app/infra/repositories.py:209-215 | an acknowledged row becomes and stays published, any other gains one retry |
| `Publisher.BatchIsRun` | services/payment_service/app/workers/outbox_publisher.py:28-44 | working through a batch is a run of the concurrent system |
| `Publisher.BatchWritesRecords` | services/payment_service/app/workers/outbox_publisher.py:30-34 | that run writes the records `PublishOnce` writes and leaves other publishers alone |
| `Publisher.BatchMarksRows` | services/payment_service/app/infra/repositories.py:209-215 | that run marks the rows `PublishOnce` marks |
| `Inbox.EffectivelyOnce` | services/payment_service/app/service.py:537-558 | under crashes, duplicates and concurrent consumers: an unprocessed event has no delivery; a processed one has a delivery exactly for the endpoints that belonged to the payment's merchant, were enabled and subscribed to the type in one state, from which on the consumer that committed it held the claim |
| `Inbox.PrefixSafety` | services/payment_service/app/workers/event_consumer.py:35-47 | every message below the committed offset is undecodable or its event is processed |
| `Inbox.NoDuplicateDelivery` | services/payment_service/app/infra/models.py:213-215 | a chosen delivery is new, so the unique constraint never raises |
| `Inbox.ReachableBox` | services/payment_service/app/infra/repositories.py:179-187 | no two consumers work on one event, and deliveries and processed rows appear together |
| `Inbox.WorkShrinksBacklog` | services/payment_service/app/workers/event_consumer.py:35-47 | each uncrashed statement on an undecodable message, a processed event or one with a payment id strictly shrinks the backlog |
| `Inbox.WorkStopsAtMissingPayment` | services/payment_service/app/service.py:540-543 | on any other message the consumer stops and the database and the offset stay as they were |
| `Inbox.HeldForever` | services/payment_service/app/service.py:543 | as long as no message of the event up to it carries a payment id, no run ever processes it or commits an offset past it |
| `Inbox.DrainsIffClear` | services/payment_service/app/workers/event_consumer.py:35-47 | from any state, whatever its consumers are at, the end of the log can be reached if and only if every unprocessed event's first message carries a payment id |
| `EventConsumer.DrainsIffNothingCancelled` | services/payment_service/app/service.py:369-371 | fed by the outbox, they can reach it if and only if no payment was cancelled |
| `EventConsumer.CancellationIsNeverProcessed` | services/payment_service/app/service.py:369-371 | the event of a cancellation is never processed in any run |
| `EventConsumer.OnlyCancellationsAreEmpty` | services/payment_service/app/service.py:226-236 | of all committed events exactly the cancellations lack a payment id; the others name their payment |
| `EventConsumer.Worker.ProcessPaymentEvent` | services/payment_service/app/service.py:537-558 | succeeds exactly on processed events and those with a payment id; a new event gets a delivery exactly for the endpoints of the payment's merchant that are enabled and subscribed to the type |
| `EventConsumer.Worker.MarkEventProcessed` | services/payment_service/app/infra/repositories.py:179-187 | claims the event exactly when it is new |
| `EventConsumer.Worker.Consume` | services/payment_service/app/workers/event_consumer.py:25-49 | handles the messages in order up to the first that raises, which it rolls back |
| `EventConsumer.ConsumedIsRun` | services/payment_service/app/workers/event_consumer.py:35-47 | what the loop does is a run of the concurrent system |
| `Cancellation.CancellationStopsConsumer` | services/payment_service/app/service.py:360-372 | a reachable run creates and cancels a payment, and a reachable run of the consumers on its event stops the consumer in a state from which the log can never be drained |
| `Pipeline.RunHasParts` | services/payment_service/app/service.py:125-437 | every run of service, publishers and consumers together is made of one run of each, which share outbox, topic and payments |
| `Pipeline.EventsReachTheirMerchant` | services/payment_service/app/service.py:537-558 | once the event of a committed outbox row is processed, exactly those endpoints have a delivery that belonged to the merchant of its own payment, were enabled and subscribed to the type in one state of the run, under the claim it was processed with |
| `Pipeline.PaymentIsFound` | services/payment_service/app/service.py:544-546 | in no state of such a run does a consumer look for a payment that is not there, so the branch for a missing one is never taken |
| `Pipeline.TopicDrainsIffNothingCancelled` | services/payment_service/app/service.py:360-372 | in every state of such a run the end of the topic can be reached if and only if no event in it is a cancellation |
| `Dispatcher.AttemptsAreBounded` | services/payment_service/app/workers/webhook_dispatcher.py:64-94 | in every reachable state the attempts of a delivery are at most the maximum plus the replays of that delivery in the run, a RETRY is below the maximum, and batches are disjoint |
| `Dispatcher.DispatchingComesToRest` | services/payment_service/app/workers/webhook_dispatcher.py:21-94 | committed attempts plus the fuel left never exceed the fuel at the start plus what new deliveries and replays brought |
| `Dispatcher.BatchBurnsFuel` | services/payment_service/app/workers/webhook_dispatcher.py:65-94 | a committed batch uses up at least one unit of fuel for each of its deliveries |
| `Dispatcher.FinalUntilReplayed` | services/payment_service/app/main.py:281-283 | a SUCCEEDED or DEAD_LETTER delivery stays exactly as it is until it is replayed |
| `Dispatcher.EveryReturnIsAudited` | services/payment_service/app/main.py:281-291 | the steps at which a delivery leaves SUCCEEDED or DEAD_LETTER are at most the audit rows it gains |
| `Dispatcher.AuditsTellAttempts` | services/payment_service/app/main.py:284-291 | every audit row was written by a replay and carries the attempts its delivery had at that moment |
| `Dispatcher.DispatchIsRun` | services/payment_service/app/workers/webhook_dispatcher.py:24-94 | a pass over a batch is a run of the concurrent system that commits what `DispatchOnce` records or, exactly when a secret is missing, crashes and changes nothing |
| `Dispatcher.ResultsAreMet` | services/payment_service/app/workers/webhook_dispatcher.py:36-94 | the rows which that run commits are, delivery by delivery, those `DispatchOnce` leaves, and no other row changes |
| `Dispatcher.ErrorStoredIffGivenUp` | services/payment_service/app/workers/webhook_dispatcher.py:69-78 | an answer other than 2xx is stored as the last error if and only if the delivery is given up for it |
| `Dispatcher.FirstServerErrorIsNotStored` | services/payment_service/app/workers/webhook_dispatcher.py:76-81 | a first 500 answer under the default maximum leaves a RETRY without a last error |
| `Dispatcher.DispatchOnce` | services/payment_service/app/workers/webhook_dispatcher.py:21-95 | records each delivery's result and counts the successes, gives up those without an endpoint unposted, or, exactly when an endpoint has no signing secret, records nothing |
| `Dispatcher.DeliveryRow.Record` | services/payment_service/app/workers/webhook_dispatcher.py:65-94 | the assignments around one post, for every status code and error |
| `Dispatcher.Attempted` | services/payment_service/app/workers/webhook_dispatcher.py:66-94 | a delivery succeeds exactly on 2xx and is retried exactly below the maximum after a server error or no answer; everything else is given up; the due time and the stored error are given exactly |
| `Dispatcher.ReplayDelivery` | services/payment_service/app/main.py:257-292 | only the owner's delivery, whatever its status, is put back to PENDING, due at once and with its attempts kept, with one audit row that tells them |
| `Dispatcher.DelayGrows` | services/payment_service/app/workers/webhook_dispatcher.py:17-18 | the delay lies between one second and five minutes and never shrinks from one attempt to the next, whatever the jitter |
| `Dispatcher.DelayDoubles` | services/payment_service/app/workers/webhook_dispatcher.py:17-18 | without jitter the delay is one second at no attempts and doubles up to 256 seconds at the eighth, the jitter is added, and from the ninth on it is exactly 300 |
| `Dispatcher.RetryIsDue` | services/payment_service/app/workers/webhook_dispatcher.py:76-91 | the due time that a pass records, in seconds after the post, for every number of attempts before |
| `Dispatcher.FifthRetryWaits` | services/payment_service/app/workers/webhook_dispatcher.py:76-81 | a fifth attempt that meets a 500 answer waits 32 seconds |
| `Dispatcher.LockedExactly` | services/payment_service/app/workers/webhook_dispatcher.py:24-34 | a dispatcher can take exactly the batches of at most 25 PENDING or RETRY deliveries that nobody has locked |
| `Dispatcher.NoDeliveryIsLost` | services/payment_service/app/workers/webhook_dispatcher.py:24-94 | from every state a PENDING or RETRY delivery can still be attempted, even if its holder crashes, and it then succeeds exactly on a 2xx answer |
| `Dispatcher.ReplayIsAttempted` | services/payment_service/app/main.py:281-292 | a replayed delivery, SUCCEEDED and DEAD_LETTER ones included, is PENDING with its attempts kept and can be attempted again |
| `Dispatcher.NewDeliveryIsAttempted` | services/payment_service/app/service.py:553-557 | a new delivery is PENDING with no attempts and can be attempted |
| `Secrets.VersionsAreNumbered` | services/payment_service/app/service.py:454-521 | after any interleaving each endpoint has versions 1 to n, only the last active, and it is the secret handed out last |
| `Secrets.DispatcherFindsSecret` | services/payment_service/app/service.py:524-534 | the active-secret lookup never comes back empty and finds the secret last handed out |
| `Secrets.RotationNeverConflicts` | alembic/versions/0002_harden_ledger_and_webhook_secrets.py:50-59 | no unique constraint ever stops a rotation: it retires the last version, adds the next with the secret handed out, and leaves all others |
| `Secrets.OwnerRotates` | services/payment_service/app/service.py:483-521 | from every lawful state the owner of an endpoint that nobody rotates can get a new secret, and it is the one signed with |
| `Secrets.OthersRotateNothing` | services/payment_service/app/service.py:483-485 | for anybody else the request ends at the endpoint's row and changes nothing |
| `Secrets.RotationNumbers` | services/payment_service/app/service.py:486-510 | what a rotation reads determines the next version, and retiring and inserting keeps the numbering |
| `Secrets.EndpointSecrets.Rotate` | services/payment_service/app/service.py:476-521 | another merchant changes nothing; the owner gets a new active version and no older secret is lost |
| `Secrets.EndpointSecrets.ActiveSecret` | services/payment_service/app/service.py:524-534 | finds the one secret the endpoint signs with |
| `Secrets.EndpointSecrets.Register` | services/payment_service/app/service.py:440-474 | a new endpoint signs with version 1 |

## Left out

- Creation of merchants, customers and accounts: they are a directory fixed before a run, since the service never
  updates or deletes them.
- HTTP routing, API keys and scopes, error envelopes, metrics, logging, health checks and the demo services.
- Risk scoring: whether a new payment is approved is a free choice, so both creation statuses are covered.
- Hashing, HMAC, encryption, JSON text and UUID generation: a request stands for its own fingerprint, a stored secret
  for its plain text, and ids are fresh or collide openly.
- The clock: `posted_at` and retry times are parameters, whether a delivery is due is a free choice, and no order is
  derived from `created_at`. `order_by(created_at)` of the outbox query is therefore any order.
- Column widths: amounts are unbounded integers.
- The random primary keys of journals and ledger accounts: rows are keyed by what their unique constraints make unique.
- Statements that change a journal's primary key, and transactions of other programs that interleave on a committed
  DRAFT journal; the service never commits a draft. `Triggers` runs its transactions one after another.
- Order between the outbox rows of different payments, and order among audit rows.
- Kafka partitions and resends inside the client library: a send writes at most one record, perhaps late.
- Event ids drawn outside the outbox: in `EventConsumer` an event's id is its payment and place in the outbox.
- Deletion of webhook endpoints, which the service never does; the dispatcher's branch for a missing one is modelled.
- Per-payment order in Kafka: the code does not keep it, since a failed send lets later rows go first.
- Session.Session.EnsureLedgerAccount: the conflict branch of the upsert is modelled in `Transactions` only, because it
  needs another transaction.
- Isolation.CommitIsSerial: says nothing about a refusal that commits, because its decision is older than its commit;
  `Serializability.Serializable` places it where it was decided.
- Session.Session.PaymentForUpdate: locks are modelled in `Transactions` only.
