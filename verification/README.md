# Verification model of the community waste collection service

This project models the pickup, payment and proof lifecycle of the service as a concurrent
protocol, together with the per-IP rate limiter and the list and report queries, and proves what
they promise for all inputs, all runs and all interleavings. `dafny verify dfyconfig.toml` checks
everything.

## How it is built

| file | content |
|---|---|
| Domain, Sql | rows, statuses, amounts; the three tables and every SQL statement as an atomic function |
| Integrity | the table invariants, how rows may evolve, and why every write keeps both |
| Machine | the service as a transition system: operations with program counters and stale snapshots, the object store, the counters, ticks, household deletions, failures |
| Invariant | the invariant of the running service and its proof for every event and run |
| Requests | each request from its start to its answer when nothing else runs, in plain terms; what a failed call does |
| Rules | every change of a row over a run traced to the request that asked for it; BR-02, BR-03, BR-05 and BR-06 over runs |
| Guarantees, Lifecycle, Billing, Deletion, Answers, Records, Gate, Cycle, Deadline, Tally, Cancels, TotalRevenue | theorems about reachable states and whole runs |
| Transaction, Session | Complete's transaction split into begin, update, insert, commit and rollback with locks and reservations; its refinement of one atomic write; the code with the deferred rollback |
| Split | the whole service with split transactions, and its refinement of the transition system |
| Backend, Calls, Services | the code in its imperative form: repository methods over mutable maps, one per statement, and the service methods and worker cycle that call them while other operations run in between |
| RateLimiter, Limiter | token buckets, eviction and the promised limit; the middleware's map, gauge and sweeper |
| Filter, Paging, Reports, Settings | the query builder, LIMIT/OFFSET paging, the report folds, configuration checks |

An event of the transition system is a tick of the clock, a household added or deleted, the start
of a request or of a worker cycle, or one step of an operation: one statement, one transaction, one
object-store call, or one local computation, which may fail. A run is any sequence of events, so a
theorem about runs holds for every interleaving. Each method of `Backend.Server` is proved to be
exactly one such step, and each method of `Services` is proved to be a run, starting with the request
it stands for, in which arbitrary events of other operations come before each call.

The one place where a step is more than one statement is the transaction of Complete. `Split` takes it
apart inside the running service: its update, insert, commit and rollback are moves of their own, and
everything else may come between them or has to wait for its locks and reservations. Every split run
has the same service states as a run with one-step transactions (`Split.SplitRunsAreRuns`), and
every run with one-step transactions is the service part of a split one (`Split.RunsAreSplitRuns`), so
the theorems about runs hold of it as well. `Session` has the Go code of that transaction.

## Where the code and its documentation differ

The model follows the code.

- BR-01 is described as serialised by an advisory lock (docs/architecture.md:258-267,
  test/e2e/concurrency_test.go:197). The code has none: check and insert are separate statements.
  `Gate.GateCanBePassed` is a run that passes the gate, `Gate.GateHoldsIff` says exactly when an
  interleaved Create does, and `Gate.CreateAlone` that an uninterrupted one never does.
- docs/architecture.md:458 lists a partial unique index on pending pickups. No migration creates it,
  and the model has none.
- BR-02 says only scheduled pickups can be canceled (README.md:19 of the repository). The cancel
  statement admits pending ones too (internal/repository/pickup.go:340-343): by
  `Answers.CancelDiagnosis` a cancel takes effect exactly on a pending or scheduled row, so the rule
  is broken exactly if the row is pending at the update.
- BR-04 speaks of pickups with no scheduled date (README.md:21 of the repository). Bulk
  cancel admits scheduled rows; `Cycle.CancelsOnlyPendingIff` gives the exact condition for a whole
  cycle, `Cycle.ScheduledCanBeCanceled` a run.
- `Config.Validate` promises to refuse settings that silently break BR-04 or the limiter
  (internal/config/config.go:107-109). It has no upper bound on the cutoff days and does not relate
  burst and rate; `Settings.CutoffHonoredIff` and `Settings.AcceptedLimiter` give the exact conditions.

## Assumptions

- A failed statement, commit or upload has no effect; errors of `RowsAffected` are ignored as in the
  code. A statement that waits for a lock is not yet taken, or is given up and fails.
- A generated uuid never equals one generated or named in a request before.
- One clock that never runs backwards serves the database and the process. The transaction of
  Complete carries the time of its begin, and its payment the uuid drawn there; the database draws
  that uuid at the insert, which nobody can tell apart.
- `Tables.spent`, the ids of all payments that ever were in the table, is a history variable.
- Rows are written only through the services. `UpdateStatus` towards `pending`, `scheduled` or
  `canceled` has no caller.
- `rate.Limiter` is the usual token bucket, with exact arithmetic, a refused request leaving it
  unchanged; the limiter reads the same instant as the middleware.
- The proof URL is a fixed prefix and the object key, so keys stand for URLs.
- The found-rows counter of the worker is incremented in the same step as its find statement.

## Model

| member | source | states |
|---|---|---|
| Sql.SingleRow | internal/repository/pickup.go:192-200 | an UPDATE addressed to one id affects one row if that row is in a status the WHERE clause admits, and none otherwise |
| Integrity.CompleteTxCases | internal/service/pickup.go:225-241 | for all tables: Complete's transaction goes through exactly if the pickup is still scheduled, unpaid, its household known and free of pending payments; which failure wins otherwise; and a failing transaction changes nothing |
| Integrity.ApplyEvolves | internal/repository/pickup.go:191-200 | every write the services issue only lets rows evolve: identity fields fixed, status rank never falls, final states absorb, no row revived, ids never reused |
| Integrity.ApplyKeyed | migrations/000002_create_pickups.up.sql:5 | every row keeps its id as key, and all ids in the tables, or ever in them, stay below the next uuid |
| Integrity.ApplyLinked | migrations/000003_create_payments.up.sql:5-6 | foreign keys stay closed and a payment keeps the household of its pickup, under every write including cascades |
| Integrity.ApplyUnique | migrations/000004_unique_open_payment.up.sql:7-9 | at most one payment per pickup and at most one pending payment per household, under every write |
| Integrity.ApplyCoherent | internal/repository/payment.go:241-245 | dates, proofs and safety checks stay coherent with the status under every write |
| Integrity.ApplyPriced | internal/service/payment.go:58-68 | amounts stay canonical although the amount written was read off an earlier snapshot |
| Integrity.ApplySettled | internal/service/pickup.go:225-234 | a completed pickup always has its payment |
| Integrity.ApplySound | internal/domain/pickup.go:77-85 | all table invariants at once are kept by every justified write |
| Invariant.CallJustified | internal/service/pickup.go:186-234 | whatever ran since the snapshot, what the snapshot says about household, type and safety check is still right when the write executes |
| Invariant.OpStable | internal/service/pickup.go:119-157 | what an operation relies on at any program point survives every evolution of the tables |
| Invariant.ProofsOfWrite | internal/repository/payment.go:241-245 | only a confirmation that goes through adds a proof, only a cascade removes some |
| Invariant.StepDrawn | internal/service/pickup.go:211-234 | the uuid drawn by an open Complete is never used by anybody else, at any step |
| Invariant.StepAccounted | internal/service/payment.go:147-166 | one step of any operation keeps the account of the object store exact |
| Invariant.StepInv | internal/service/pickup.go:178-257 | one step of any operation, failing or not, keeps the whole invariant |
| Invariant.NextInv | internal/repository/household.go:149-165 | every event - request, step, tick, household added or deleted with its cascades - keeps the invariant and lets rows only evolve |
| Invariant.RunInv | internal/service/pickup.go:178-257 | every run from a good state keeps the invariant and lets rows only evolve |
| Invariant.Reachable | internal/domain/pickup.go:100-108 | every reachable state satisfies the invariant, for every interleaving and every pattern of failures |
| Guarantees.CompletedHasOnePayment | internal/service/pickup.go:203-234 | in every reachable state each completed pickup has exactly one payment, and every payment has its pickup's household and the amount 100000.00 for electronic waste and 50000.00 for all other |
| Guarantees.PaymentsAreUnique | internal/domain/payment.go:69-73 | two payments never share a pickup, and of two payments of a household at most one is pending |
| Guarantees.OnePaymentEver | migrations/000003_create_payments.up.sql:6 | a payment that is there now and one of the same pickup that is there later in a run are the same |
| Guarantees.FieldsCohere | internal/service/pickup.go:126-157 | safety check, pickup date, payment date and proof are present exactly as the status demands; no payment is ever failed |
| Guarantees.StoreAgrees | internal/service/payment.go:147-166 | a key is stored if and only if it is the proof of a paid payment, held by an in-flight Confirm, in the ledger of failed cleanups, or orphaned by a cascade; the four exclude each other |
| Guarantees.ProofsAreDistinct | internal/service/payment.go:147 | different payments never name the same object |
| Requests.CreateAlone | internal/service/pickup.go:34-83 | uninterrupted Create from the request on: Conflict exactly if a payment of the household is pending, then NotFound exactly for an unknown household; otherwise a pending row with exactly the fields asked for |
| Requests.ScheduleAlone | internal/service/pickup.go:111-175 | uninterrupted Schedule: NotFound, Conflict, BusinessRule and Validation exactly for an unknown id, a row not pending, electronic waste without safety check and a date in the past, in this order; otherwise the row is scheduled at the date and nothing else changes |
| Requests.CompleteAlone | internal/service/pickup.go:178-257 | uninterrupted Complete: NotFound exactly for an unknown id, then Conflict exactly if the row is not scheduled, has a payment or its household a pending one; otherwise the row is completed and a pending payment of 100000.00 or 50000.00 inserted |
| Requests.CancelAlone | internal/service/pickup.go:260-308 | uninterrupted Cancel: NotFound exactly for an unknown id, then a conflict that names the status exactly for a completed or canceled row; otherwise the row is canceled |
| Requests.PayAlone | internal/service/payment.go:29-82 | uninterrupted direct payment: NotFound, BusinessRule and Conflict exactly for an unknown pickup, one of another household, and one with a payment or whose household has a pending one; otherwise a pending payment of the amount for the pickup's type |
| Requests.PayInserts | internal/repository/payment.go:24-37 | the insert of a payment in general: Validation, Conflict and NotFound for the amount, the unique indexes and the foreign keys, in this order |
| Requests.ConfirmAlone | internal/service/payment.go:110-179 | uninterrupted Confirm: Validation exactly without a file, then NotFound exactly for an unknown id, then Conflict exactly if the payment is not pending; otherwise it is paid now, with a new object in the store as its proof |
| Requests.CycleAlone | internal/worker/organic_canceler.go:79-139 | an uninterrupted cycle cancels exactly the pending organic pickups created more than the cutoff ago, and reports their number |
| Requests.FailureIsReported | internal/service/payment.go:147-166 | a failed call, wherever it is, changes neither tables nor store; the caller is told Internal, at once or after the cleanup of a failed confirmation, and a cycle has failed |
| Rules.PickupChangesAreAsked | internal/repository/pickup.go:39-359 | over every run: a pickup appears only as the request of the operation that inserts it says; it is scheduled only by a Schedule of it at that date, completed only by a Complete of it, canceled only by a Cancel of it or by a cycle for which it is organic and too old; such a change writes status, date and updated_at and nothing else; and it vanishes only with its household |
| Rules.PaymentChangesAreAsked | internal/service/payment.go:58-178 | over every run: a payment appears only by the completion of its pickup or by a request for this household and pickup, with the amount 100000.00 or 50000.00 by type; it becomes paid only by a Confirm of it that came with a file, with a stored proof; and it vanishes only with its household |
| Rules.PickupsAreAskedFor | internal/service/pickup.go:65-70 | every pickup in a reachable state was asked for with the household, type and safety check it has |
| Rules.ElectronicWasChecked | internal/service/pickup.go:136-145 | BR-03 over every run: a scheduled or completed electronic pickup was created by a request that confirmed the safety check |
| Rules.DatesFollowCreation | internal/service/pickup.go:147-155 | in every reachable state no pickup has a date before its creation, and none was created in the future |
| Rules.NoFileNoEffect | internal/service/payment.go:122-128 | BR-06 over every run: a Confirm without a file is refused with Validation from its start on and never changes tables, store or counters |
| Billing.CompleteSucceedsIff | internal/service/pickup.go:225-241 | past its status read a failure-free Complete succeeds if and only if the pickup is still scheduled, has no payment and its household none pending, and then writes the row and a payment of the amount for its type; otherwise Conflict and unchanged tables |
| Billing.CompletesUnpaid | internal/service/pickup.go:225-234 | a pickup becomes completed only in its own Complete transaction and only if it had no payment |
| Billing.NeverCompleted | internal/repository/payment.go:30-31 | a pickup that has a payment before completion is never completed in any continuation |
| Billing.AtMostOneMoves | internal/repository/payment.go:241-257 | one event opens at most one payment of a household or settles at most one, not both |
| Billing.OneMove | internal/repository/payment.go:241-257 | a payment of a household is opened only if none is pending, settled only if one is, and otherwise pending stays as it was |
| Billing.BillingAlternates | internal/domain/payment.go:69-73 | over every run the payment creations and confirmations of each household strictly alternate, starting with a creation; an odd count is the same as a pending payment |
| Lifecycle.EnteredOnce | internal/repository/pickup.go:242-258 | over any run a pickup enters each status rank at most once |
| Lifecycle.AtMostTwoChanges | internal/repository/pickup.go:191-200 | however many callers race: at most one Schedule takes effect, at most one of Complete, Cancel and worker cancel, none back to pending |
| Lifecycle.TotalChangesBounded | internal/domain/pickup.go:74-75 | all status changes of a run together are at most twice the pickups created |
| Deletion.GoneForGood | internal/repository/household.go:149-165 | no operation, however long in flight, re-creates a pickup or payment of a deleted household |
| Deletion.DeleteRemovesExactly | internal/repository/household.go:149 | the delete removes the household with exactly what refers to it, and changes no other row |
| Deletion.OrphanWritesMiss | internal/repository/payment.go:24-37 | each remaining insert, schedule, completion and confirmation for a deleted household affects no row or is rejected by the foreign key |
| Deletion.OrphanCancelsMiss | internal/repository/pickup.go:298-359 | so do the remaining cancels: a cancel of a pickup whose household was deleted meanwhile affects no row, and a worker cycle that has listed it skips it |
| Deletion.OrphanOutcome | internal/service/payment.go:157-166 | what the caller of such an operation is told |
| Answers.ScheduleReturnsTheRow | internal/service/pickup.go:157-174 | Schedule succeeds exactly if the row is pending, and its patched snapshot is the row just after the update, up to updated_at |
| Answers.CompleteReturnsTheRow | internal/service/pickup.go:250-256 | the record Complete returns is the row just after the commit, up to updated_at |
| Answers.ConfirmReturnsTheRow | internal/service/payment.go:157-178 | Confirm pays exactly a pending payment, and returns the row just after the update, up to updated_at |
| Answers.CancelDiagnosis | internal/service/pickup.go:268-297 | from the request on, whatever runs before the update and between update and read: the update cancels exactly a pending or scheduled row, "completed" and "already canceled" are what the row was at the failed update, and a successful cancel returns a canceled row |
| Records.RecordsStayTrue | internal/service/pickup.go:168-174 | every record ever returned stays true in every continuation: the row is gone, or is the record up to updated_at, or a later state of it |
| Gate.CreateAlone | internal/service/pickup.go:48-82 | uninterrupted, Create enforces BR-01 with the documented answers |
| Gate.BlockersAreNew | internal/service/pickup.go:48-70 | interleaved: a payment that is pending at the insert was not in the table at the check |
| Gate.GateHoldsIff | internal/service/pickup.go:48-70 | whatever runs between check and insert: the row is inserted while a payment of its household is pending if and only if the household still exists and an odd number of payment creations and confirmations of it came in between, that is, the last creation was not confirmed |
| Gate.GateCanBePassed | internal/service/pickup.go:48-70 | a concrete run in which a pickup is created while a payment of its household is pending |
| Cycle.BulkDecides | internal/repository/pickup.go:317-321 | bulk cancel writes exactly the listed rows still pending or scheduled, and only their status |
| Cycle.CycleIsSound | internal/worker/organic_canceler.go:98-131 | whatever runs between find and cancel: all that is canceled was organic, past the cutoff and pending when found; completed rows are never touched; no cancelable listed row is missed |
| Cycle.QuietCycleIsExact | internal/worker/organic_canceler.go:98-136 | with nothing in between a cycle cancels exactly the expired pickups and counts them exactly |
| Cycle.CancelsOnlyPendingIff | internal/repository/pickup.go:317-321 | whatever runs between find and cancel: a cycle cancels only pickups without a scheduled date if and only if no pickup it found, and that still exists, was scheduled in between and not completed or canceled after that |
| Cycle.StatusByEntries | internal/repository/pickup.go:242-258 | from a pending start, over any run: the row is pending or scheduled exactly if it was scheduled no times or once, and never completed or canceled |
| Cycle.ScheduledCanBeCanceled | internal/worker/organic_canceler.go:98-125 | a concrete run in which the worker cancels a pickup that has just been scheduled |
| Cycle.CycleReportsExactlyIff | internal/worker/organic_canceler.go:98-136 | whatever runs in between: the number a cycle reports is exactly the rows it canceled if and only if every pickup it found still exists and was not completed or canceled in between |
| Cancels.CounterCovers | internal/worker/organic_canceler.go:135-136 | over every run the rows really canceled by cycles that reported success are at most the auto-cancel counter |
| Cancels.ListedIsCounted | internal/worker/organic_canceler.go:135-136 | over every run both automatic counters are equal, and with what is still to be reported they are the ids given to successful bulk cancels |
| Cancels.ManualCancelsAreCounted | internal/service/pickup.go:268-305 | over every run and type, the manual counter plus the cancels still to be counted plus those whose second read failed or found nothing is the number of pickups that Cancel canceled |
| Cancels.WorkerCountersAreExact | internal/worker/organic_canceler.go:84-108 | over every run the cycle counter is the number of cycles begun, whatever became of them, and the found counter the number of rows their reads found |
| Deadline.CycleClearsLate | internal/worker/organic_canceler.go:98-131 | whatever runs between find and cancel: after the cancel no pending organic pickup is older than the cycle's cutoff time |
| Deadline.CycleMeetsDeadline | internal/worker/organic_canceler.go:79-131 | one successful cycle, with any delay before its find and before its cancel, bounds the age of pending organic pickups, counted from its start, whatever runs before and after |
| Deadline.NoneLeftBehind | internal/worker/organic_canceler.go:93-125 | however many cycles run, overlap, are late or fail: no pending organic pickup is older than the cutoff time of the latest cycle that has done its work |
| Deadline.YoungAtLastStart | internal/worker/organic_canceler.go:93-125 | when the latest cycle that has done its work began, no pickup that is still pending had passed the cutoff |
| Deadline.CatchingReachable | internal/worker/organic_canceler.go:93-125 | in every reachable state every cycle between find and cancel has listed all pending organic pickups past its cutoff time |
| Deadline.DeadlineOnSchedule | internal/worker/organic_canceler.go:50-60 | BR-04: if cycles start at most an interval apart and each has done its work within the latency bound, no organic pickup is pending at created_at + cutoff + interval + latency or later |
| Deadline.DeadlineWithLatency | internal/worker/organic_canceler.go:50-60 | the same while less than interval + latency has passed since the start of the latest cycle that has done its work |
| Deadline.DeadlineHolds | internal/worker/organic_canceler.go:50-60 | the case without latency: created_at + cutoff + interval |
| Deadline.DeadlineHoldsAtTick | internal/worker/organic_canceler.go:50-60 | without latency, up to and including the moment the next tick is due: an organic pickup is pending no later than created_at + cutoff + interval |
| Tally.CountersAreExact | internal/service/pickup.go:248-249 | over every run each business counter plus the increments still owed in flight is the number of rows really created, completed or confirmed |
| Tally.WriteEarns | internal/service/payment.go:69-76 | a write has exactly one effect for each counter its reply entitles to |
| TotalRevenue.RevenueMoves | internal/repository/payment.go:346-357 | revenue rises at each confirmed payment by 100000.00 for electronic waste and 50000.00 for all other, falls only when a household is deleted, and is otherwise unchanged |
| TotalRevenue.RevenueIsCanonical | internal/repository/payment.go:354-356 | in every reachable state revenue is 50000.00 for each paid payment and as much again for each that is for electronic waste |
| Transaction.ActOk | internal/service/pickup.go:211-241 | row locks stay exclusive and a transaction that has inserted stays committable, whatever else acts |
| Transaction.ActRefines | internal/service/pickup.go:211-241 | each action is no change or one atomic write, and the transaction learns that write's reply |
| Transaction.DecidedBy | internal/service/pickup.go:225-241 | without internal failures a transaction goes through at its commit exactly if at that moment the pickup is still scheduled and the payment violates no constraint |
| Transaction.TransactionsAreAtomic | internal/service/pickup.go:211-241 | any interleaving of split transactions and statements leaves the tables a sequence of atomic writes leaves |
| Transaction.OneReply | internal/service/pickup.go:219-241 | a transaction amounts to at most one atomic write, and what it is told is that write's reply |
| Session.Database.Others | internal/service/pickup.go:192-241 | anything other transactions may do between two statements keeps this one as it is |
| Session.Database.Perform | internal/service/pickup.go:211-241 | one action of the store |
| Session.Database.UpdateStatus | internal/service/pickup.go:225-229 | Conflict exactly if the pickup is not scheduled in the committed tables, or an internal failure if the call is given up; the transaction stays the one for the same pickup, and committed tables stay as they are |
| Session.Database.CreateWithTx | internal/service/pickup.go:230-234 | the domain error of exactly the constraint the payment violates in the committed tables, if any; commits nothing |
| Session.Database.Commit | internal/service/pickup.go:235-241 | the completed row and the payment become visible together, or nothing changes and the transaction is left to be rolled back |
| Session.Database.Statements | internal/service/pickup.go:225-241 | success exactly if the transaction has committed; otherwise it is broken with the error returned |
| Session.Database.Complete | internal/service/pickup.go:211-241 | on every return the transaction for this pickup, household and amount is closed, and the error is the one that its single atomic write was answered with |
| Transaction.SplitRunsStaySound | internal/service/pickup.go:211-241 | however statements of transactions and other statements interleave, every table invariant holds: foreign keys, uniqueness, coherence, prices, a payment for each completed pickup |
| Split.DoRefines | internal/service/pickup.go:211-241 | in the whole service with the transaction taken apart, each move is no event, or one event, of the service with one-step transactions |
| Split.DoOk | internal/service/pickup.go:211-241 | every move keeps locks, reservations and the open transactions in step with the operations that run them |
| Split.SplitRunsAreRuns | internal/service/pickup.go:192-257 | the service state of every split run is the state of a run in which each transaction is one step, taken when it ends |
| Split.SplitStatesAreReachable | internal/service/pickup.go:192-257 | from the empty service every state of a split run is a reachable state and satisfies the invariant |
| Split.AloneIsOneStep | internal/service/pickup.go:219-241 | a transaction that runs without interruption, while others have only begun, is that one step |
| Split.RunsAreSplitRuns | internal/service/pickup.go:192-257 | every run of the service is the service part of a split run, so taking the transaction apart loses no behaviour |
| Backend.Server.Interfere | internal/service/pickup.go:119-157 | between two calls any events of other operations may run; the operation itself does not move |
| Backend.Server.Enter | internal/worker/organic_canceler.go:84 | a request arrives or a cycle begins, and the cycle is counted |
| Backend.Server.HasPendingPaymentForHousehold | internal/repository/pickup.go:372-375 | the read of BR-01 as one step |
| Backend.Server.FindPickupById | internal/repository/pickup.go:75-101 | the row, NotFound, or an internal failure, as one step |
| Backend.Server.FindPaymentById | internal/repository/payment.go:121-147 | the same for payments |
| Backend.Server.SchedulePickup | internal/repository/pickup.go:231-262 | Conflict exactly if the row is not pending; otherwise only status, date and updated_at of that row change |
| Backend.Server.CancelIfCancellable | internal/repository/pickup.go:333-359 | true exactly if the row was pending or scheduled; then only its status and updated_at change |
| Backend.Server.CreatePickup | internal/repository/pickup.go:39-73 | inserts a pending row with a new id, the household, type and safety check given and the time of the insert, or NotFound for an unknown household |
| Backend.Server.CreatePayment | internal/repository/payment.go:48-82 | inserts a pending payment with the time of the insert, or the error of the first violated constraint: amount, unique indexes, foreign keys |
| Backend.Server.ExecComplete | internal/service/pickup.go:225-241 | status update and payment insert together or neither, with the error of the statement that fails |
| Backend.Server.CompleteTransaction | internal/service/pickup.go:211-241 | the same as one step of the transition system |
| Backend.Server.ConfirmPayment | internal/repository/payment.go:230-261 | Conflict exactly if the payment is not pending; otherwise status, proof, date and updated_at are set |
| Backend.Server.CreateHousehold | internal/repository/household.go:28-62 | inserts a household with non-empty owner and address |
| Backend.Server.ExecDelete | internal/repository/household.go:149 | the delete with both levels of cascade |
| Backend.Server.DeleteHousehold | internal/repository/household.go:138-169 | NotFound exactly if there is no such household; otherwise it disappears with all its rows |
| Backend.Server.FindExpiredOrganic | internal/repository/pickup.go:264-296 | exactly the pending organic rows created before the cutoff time, as they are in the table, each once, and the count of rows found |
| Backend.Server.SelectExpired | internal/repository/pickup.go:264-296 | a query that succeeds returns exactly the pending organic rows created before the cutoff time, as they are in the table, each once, and counts them; a failed one changes nothing |
| Backend.Server.BulkCancel | internal/repository/pickup.go:298-331 | cancels exactly the listed rows still pending or scheduled and keeps every other row |
| Backend.Server.Upload | internal/storage/s3.go:91-126 | stores the object, or nothing when it fails |
| Backend.Server.Delete | internal/storage/s3.go:128-151 | removes the object; a failed removal is entered in the ledger |
| Backend.Server.LocalStep | internal/service/payment.go:147-156 | a clock reading and a new uuid between two calls |
| Backend.Server.Increment | internal/service/pickup.go:77 | counter increments as one step |
| Services.CreatePickup | internal/service/pickup.go:34-83 | Create for this household, type and flag, statement by statement with interference before each call, is a run from just after its start and returns its outcome; a record returned has the fields asked for and was created meanwhile; Conflict and NotFound only for a pending payment and a missing household |
| Services.Schedule | internal/service/pickup.go:111-175 | the same for Schedule of this pickup at this date; it succeeds only for a row that was there and pending at the call, with its safety check, and a date not before the call, and then the row on return is the record; each error only for its reason, Validation only for a date in the past |
| Services.Complete | internal/service/pickup.go:178-257 | the same for Complete of this pickup, past BeginTxx with the transaction as one step; a record returned is the row of the call, completed; Conflict only if the row is not scheduled, has a payment, or its household has a pending one |
| Services.CannotCancel | internal/service/pickup.go:274-295 | the diagnosis after a failed update, from the state on entry: not found, or a conflict blamed on exactly the status the row had at the update and has on return |
| Services.Cancel | internal/service/pickup.go:260-308 | the same for Cancel of this pickup; a record returned is the row of the call, which was pending or scheduled, canceled; a conflict only for a completed or canceled row, which it names |
| Services.CreatePayment | internal/service/payment.go:29-82 | the same for the direct creation of a payment of this household and pickup; the amount returned is the one for the pickup's type, whatever was claimed; BusinessRule only across households, Conflict only for a payment that is there |
| Services.Confirm | internal/service/payment.go:110-179 | the same for Confirm of this payment: Validation exactly without a file; upload, conditional update, compensating delete; a record returned is the pending payment of the call, paid meanwhile, with a proof of its own; Conflict only for a payment that is not pending |
| Services.IdsInOrder | internal/worker/organic_canceler.go:117-120 | the id slice has the id of each row found, in order |
| Services.RunCycle | internal/worker/organic_canceler.go:79-139 | the same for one worker cycle with this cutoff, and the number it reports |
| RateLimiter.AgreeingMapsDecideAlike | internal/middleware/ratelimit.go:46-59 | if a bucket refills within the eviction threshold, evicting and unforgetting limiters decide every request of every trace alike |
| RateLimiter.EvictionInvisibleIff | internal/middleware/ratelimit.go:98-113 | eviction is invisible on all traces if and only if a bucket refills within the threshold plus one nanosecond |
| RateLimiter.WindowBound | internal/middleware/ratelimit.go:50-59 | under that condition each client is admitted at most burst + rate * T times in any window of length T of any trace |
| RateLimiter.LimitKeptIff | internal/middleware/ratelimit.go:50-59 | the limit is kept on all traces, clients and windows if and only if the same condition holds |
| RateLimiter.EvictionBound | internal/middleware/ratelimit.go:46-113 | for any accepted settings, on every trace, client and window: at most a burst, plus rate * T, plus one further burst for each time the eviction threshold fits into the window |
| RateLimiter.EvictionBoundIsReached | internal/middleware/ratelimit.go:98-113 | the further bursts can all be had: for every n a trace on which one client gets n + 1 bursts in a window with room for n evictions |
| RateLimiter.RemembersIff | internal/middleware/ratelimit.go:46-113 | on every trace a client is tracked if and only if no sweep has come more than half an hour after its last request, admitted or not |
| RateLimiter.Drain | internal/middleware/ratelimit.go:59 | k simultaneous requests all pass exactly if k tokens are there |
| Limiter.IpLimiters.constructor | internal/middleware/ratelimit.go:31-36 | an empty map and a gauge of zero |
| Limiter.IpLimiters.Handle | internal/middleware/ratelimit.go:46-59 | load or store, touch and ask: the map and the decision of the specification; the gauge stays the number of tracked clients |
| Limiter.IpLimiters.SweepOnce | internal/middleware/ratelimit.go:98-113 | removes exactly the idle clients, returns how many, and keeps the gauge exact |
| Settings.AcceptedLimiter | internal/config/config.go:117-123 | accepted settings satisfy the limiter, and keep eviction invisible exactly if the burst is at most the tokens of 1800 seconds and a nanosecond |
| Settings.AcceptedIff | internal/config/config.go:110-139 | which settings are accepted, with all bounds, and that a refusal names a setting at fault |
| Settings.CutoffHonoredIff | internal/worker/organic_canceler.go:34 | in every reachable state the worker lists exactly the pending organic pickups older than the configured days of 86400 seconds if and only if there are at most 106751 of them: beyond, the cutoff wraps on 64 bits, and validation has no upper bound |
| Settings.TooManyDaysListFreshPickups | internal/worker/organic_canceler.go:34 | the concrete failing setting: with 106752 days a pickup created just now is listed |
| Filter.BuildFilter | internal/repository/payment.go:168-191 | for any subset of the four filters the clause selects exactly the rows that meet every given filter, under SQL null rules, with placeholders bound in order |
| Filter.MoreArguments | internal/repository/payment.go:200-215 | arguments appended for LIMIT and OFFSET do not disturb the filter: count and page query select the same rows |
| Filter.DateFilterFindsPaid | internal/repository/payment.go:182-191 | where dates are coherent a date filter returns only paid payments |
| Paging.Wrap | internal/repository/payment.go:207 | 64-bit arithmetic: in range, congruent modulo 2^64, and exact for values that fit |
| Paging.PaginationParams | internal/handler/handler.go:194-218 | refused exactly if a given page is not positive or a given size is not from 1 to 100; defaults 1 and 20 |
| Paging.BuildList | internal/repository/payment.go:149-213 | count query and page query select the same rows, those that meet the filter, and LIMIT and OFFSET as bound cut out the page asked for, with 64-bit offset arithmetic and the defaults 1 and 20 |
| Paging.PagesAreAllRows | internal/handler/handler.go:259-263 | pages 1 to total_pages concatenated are exactly the rows in order |
| Paging.PageSizes | internal/handler/handler.go:259-263 | no page longer than asked for, all but the last full, later ones empty while the offset fits 64 bits |
| Paging.LatePageEmptyIff | internal/repository/payment.go:207 | in general a page is empty if and only if its wrapped offset lies behind the rows, and an error if and only if that is negative |
| Paging.FarPageRepeats | internal/repository/payment.go:207 | a concrete far page that shows the first rows again |
| Paging.AnswerIsUnique | internal/repository/payment.go:208-213 | with distinct creation times the ordered answer is unique |
| Paging.PagedListIsComplete | internal/repository/payment.go:208-213 | pages fetched by separate queries over the same rows put together are the filtered rows, newest first, each once |
| Reports.WasteSummary | internal/repository/payment.go:293-310 | the fold and the slice hold one entry per type that occurs, with its total and by_status map, in any order of groups |
| Reports.TotalIsKindCount | internal/repository/payment.go:279-306 | the total of a type is the number of its pickups |
| Reports.StatusesCount | internal/repository/payment.go:304 | by_status holds exactly the occurring statuses with their row counts |
| Reports.TotalIsStatusSum | internal/repository/payment.go:303-304 | the total of a type is the sum of its by_status counts |
| Reports.TotalsCoverAll | internal/repository/payment.go:303-310 | all totals add up to all pickups |
| Reports.PaymentSummary | internal/repository/payment.go:346-357 | one entry per group, and total revenue is the sum of the amounts of the paid payments, zero if there are none |

## Left out

- Deadline.DeadlineOnSchedule: takes the latency bound as given. In the code find and cancel run under one query timeout each (internal/worker/organic_canceler.go:95 and :122), and a cycle that exceeds it fails; the time between the two calls is not bounded by the code.
- Cycle.CycleIsSound: says nothing about a find that fails or finds nothing, because then the cycle writes nothing.
- Paging.PagesAreAllRows: requires the row count plus the page size to fit 64 bits, because the sum is computed in a 64-bit int.
- RateLimiter.EvictionInvisibleIff: one sweep is atomic, and no request that read its clock before a sweep fired is handled after it; the race of a request's touch with the delete inside a sweep is not modelled. Sweeps may fire at any time and late, not only every five minutes.
- Settings.AcceptedLimiter: rates are real numbers; NaN and infinity, which the parser admits, are not.
- Panics and their recovery, process crashes, and commits whose outcome is unknown.
- Deadlocks of the database as such: a statement that is given up fails internally.
- `HouseholdHistory`: three independent reads without a common snapshot.
- The list queries of pickups and households: the same builder and paging with fewer filters.
- Reads of a household, `UpdateStatus` branches without a caller, the worker's endless ticker loop (its ticks are events of a run).
- HTTP binding, request validation, error envelopes, multipart parsing and MIME sniffing.
- Tracing, logging, latency histograms and database error counters.
- The S3 client, sqlx, the wire protocol and uuid generation, beyond the assumptions above.
- Environment parsing, shutdown order, DSN rewriting, migrations as programs, dashboards and load tests.
