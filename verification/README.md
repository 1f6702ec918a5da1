# Ticket inventory and money

This project models the core of a ticketing backend and proves what it keeps true: ticket types with
the counters `sold` and `held`, reservations that hold tickets for some minutes, orders with a unique
idempotency key, tickets, refunds, and an append-only audit log. The two counters are a cache of
quantities derived from other tables (ACTIVE tickets; quantities of ACTIVE reservations). Five
transactional services write them: `create_reservation`, `cancel_reservation`, `process_purchase`,
`issue_refund` and `sweep_expired_reservations`. The daily sales report and inventory
reconciliation read them, and `--fix` overwrites them.

`dafny verify dfyconfig.toml` checks everything.

## How it is built

1. **Atomic services** (`Schema`, `Services`). A `Db` value holds all tables and the unique index on the
   idempotency key; `Constraints` is what PostgreSQL itself enforces (foreign keys, CHECK constraints,
   32-bit column ranges, the 255 characters of the idempotency key). Each service is a function from a database and a request to the committed database and
   the reply. A raised exception is a reply. The clock, new UUIDs, the payment provider's answers and
   the order in which a query returns its rows are inputs. A new UUID may be any value: one that is taken violates the
   primary key.
2. **The store** (`Storage`). Class `Store` keeps the tables as fields and updates them in place, statement by
   statement, with loops where the code loops (ticket creation, sweep, retries, reconciliation) and
   rollback as restoring a snapshot. Every method is proved equal to its atomic service.
3. **The statement machine** (`Machine`, `Footprints`, `SerialPlans`, `Interleaving`, `Refinement`,
   `Serializability`, `Completeness`, `Overlap`, `EitherOrder`, `Contention`,
   `Rush`). Transactions are split at their SQL statements and run
   interleaved under READ COMMITTED: private uncommitted writes, a row-lock table, waiting on locked rows, `F()` updates on
   the latest committed value, a waiting unique-key insert, inserts that meet a taken primary key, skip-locked
   selection, and crashes at any point. Only the row a query names is locked for update, plus what UPDATE and INSERT
   lock. Django also locks the `select_related` rows. For a query that waits, more locks only remove
   interleavings; for the sweep's skip-locked query they change which rows it passes over, so the machine lets a
   sweep take any stale rows whose reservations nobody holds, each once. `Sweeps` says what one sweep does
   for any set of rows passed over. The event row that
   `create_reservation` and `process_purchase` read is share-locked, which matters only to the pause toggle.
   Every interleaving is shown to commit what the atomic services commit one after another in commit
   order. The machine has the runs the code has: transactions begin whatever else is open, take each step as soon as
   nobody else holds the locks it names, finish in either order after they have all decided, and every serial run of
   the services is a run of the machine.
4. **Consequences** (`Invariants`, `Preservation`, `Runs`, `Guarantees`, `Answers`, `Purchases`, `RoundTrips`,
   `RefundBatches`, `Sweeps`, `Delivery`, `Jobs`, `AuditTrail`, `Pausing`, `SalesReport`, `SalesTotals`, `Turnover`,
   `Reconciliation`, `Scenarios`). `Invariants.Inv` is the inductive invariant; `Answers` gives every
   answer of every service its exact guard in terms a caller could check; `Guarantees` states what follows for
   every database that some interleaved run can commit. `Scenarios` has small
   concrete runs behind the findings below. `Sums` has finite sums over sets of ids.

## Findings

- **Some orders can never be refunded.** A refund row must hold a positive 32-bit amount, so an order with ACTIVE
  tickets can be refunded, at all and then completely, exactly when its charge for one ticket is positive and at
  most 2147483647 (`RefundBatches.RefundableIff`). A free order fails it (`Scenarios.FreeOrderIsNotRefundable`). So
  does one whose price, fee and tax each fit their columns while their sum does not (`Scenarios.HugeOrderNeverRefunded`).
- **Some orders can be refunded only in pieces**: those that pass this test while the sum over their ACTIVE tickets
  exceeds the column (`RefundBatches.RefundableAtOnceIff`, `Scenarios.LargeOrderOnlyInPieces`). One request succeeds
  exactly under the condition of `RefundBatches.RefundSucceedsIff`.
- **A purchase with an idempotency key over 255 characters never sells.** No code checks the length before the
  INSERT, whose error is then retried as if it were transient, so the job ends in the dead letter queue
  (`Scenarios.OverlongKey`, `Purchases.SellsExactlyWhen`).
- **A used key buys nothing for another reservation.** Keys are not scoped: such a request is answered with the
  order that first used the key, and its own hold stays unsold (`Delivery.WhoseOrder`, `Scenarios.UsedKeyBuysNothing`).
- A duplicate that looked its key up before the winner committed is given the winner's order exactly if it gets
  as far as the INSERT; a pause, an ended or expired hold or an amount out of range stop it before
  (`Delivery.DuplicateGetsTheOrder`, `Scenarios.EarlyDuplicateRaises`).
- A retry with the key of a declined order gets that FAILED order, on every later run
  (`Purchases.SpentKeyKeepsItsOrder`); a fresh key works as if the decline had not happened
  (`Purchases.FreshKeyAfterDecline`).
- The EXPIRED mark that `process_purchase` writes is always rolled back by the exception raised next; only
  the sweep or a cancel releases the hold (`Purchases.ExpiredHoldAwaitsSweep`, `Scenarios.TooLate`,
  `AuditTrail.ReleasedAtMostOnce`).
- `run_reconciliation --fix` stops with a database error at the first oversold type, leaving later
  types uncorrected, although the alert text recommends running it in that very case
  (`Storage.Store.RunReconciliation`, `Scenarios.FixStopsShort`).
- The sales report's documentation promises a row for every event and day with at least one order placed; the
  code counts only orders that were not declined, and the model follows the code (`SalesReport.GenerateSales`,
  `Scenarios.DeclinedDayHasNoRow`).

## Model

| member | source | states |
|---|---|---|
| Storage.Store.CreateReservation | orders/services/reservation_service.py:11-57 | the in-place method leaves exactly the tables, and gives exactly the reply, of the atomic service, on every path; a failing INSERT takes the raised `held` back |
| Storage.Store.CancelReservation | orders/services/reservation_service.py:60-97 | refines the atomic cancel: ownership check, no-op on a reservation that is not ACTIVE, release otherwise |
| Storage.Store.InsertOrder | orders/services/purchase_service.py:78-103 | the savepoint INSERT: key or amounts that do not fit their columns, a unique violation and success are told apart exactly, and only success writes |
| Storage.Store.CreateTickets | orders/services/purchase_service.py:124-128 | the loop adds one ACTIVE ticket per id and succeeds exactly when all ids are new and distinct |
| Storage.Store.SettlePayment | orders/services/purchase_service.py:113-152 | a decline only fails the order; a payment moves held to sold, creates the tickets, confirms order and reservation and logs; aborts exactly when a constraint refuses |
| Storage.Store.ProcessPurchase | orders/services/purchase_service.py:42-157 | refines the atomic purchase on every path: both idempotency paths, pause, expiry with its rolled-back write, savepoint, decline that survives, commit |
| Storage.Store.ProcessPurchaseTask | orders/tasks.py:59-86 | the retry loop, with any traffic before every attempt, ends in the state and outcome of the first attempt that is not transient, or dead-letters after three retries |
| Storage.Store.Serve | orders/tasks.py:72-77 | any other client's request, dispatched to its method, does what the atomic service does |
| Storage.Store.Interlude | orders/tasks.py:59 | the traffic between two attempts leaves the state its serial run leaves |
| Storage.Store.ApplyRefund | orders/services/refund_service.py:60-101 | refund row, ticket marks, optional ticket link, `sold`, status and log row, with status decided by the tickets still ACTIVE |
| Storage.Store.IssueRefund | orders/services/refund_service.py:26-103 | refines the atomic refund on every path, errors included, and rolls back when the counter's constraint fails |
| Storage.Store.ExpireReservation | orders/tasks.py:31-51 | one pass of the sweep's loop body |
| Storage.Store.SweepExpired | orders/tasks.py:21-56 | the loop over the selected rows refines the atomic sweep, or restores the state it began with |
| Storage.Store.RunReconciliation | core/management/commands/run_reconciliation.py:18-75 | completes iff `--fix` is off or no visited type is oversold; reports exactly the drifted and oversold types; corrects exactly the types before the first oversold one, all when it completes; nothing else changes |
| Preservation.ApplyKeepsInv | core/reconciliation.py:5-19 | every service keeps the whole invariant: counters exact, money balanced, statuses consistent, constraints met |
| Preservation.CreateKeepsInv | orders/services/reservation_service.py:26-43 | a hold raises `held` by exactly what the new ACTIVE reservation adds to the derived count, within capacity |
| Preservation.CancelKeepsInv | orders/services/reservation_service.py:75-82 | a cancel keeps the invariant and never trips a constraint |
| Preservation.ExpireRowsKeepsInv | orders/tasks.py:31-37 | the sweep's loop never aborts, keeps the invariant and sets exactly the selected reservations to EXPIRED |
| Preservation.PurchaseKeepsInv | orders/services/purchase_service.py:113-138 | declined and paid purchases keep counters, books and statuses consistent |
| Preservation.RefundOrderKeepsInv | orders/services/refund_service.py:60-87 | a refund keeps counters, books and statuses consistent |
| Preservation.ActiveIsReleasable | events/models.py:73-85 | lowering `held` by an ACTIVE reservation's quantity cannot violate a CHECK constraint |
| Preservation.MoveFits | orders/services/purchase_service.py:118-122 | moving an ACTIVE hold from held to sold cannot violate a CHECK constraint |
| Preservation.RefundMoveFits | orders/services/refund_service.py:79-82 | lowering `sold` by the refunded tickets cannot violate a CHECK constraint |
| Preservation.NewOrderPriced | orders/services/refund_service.py:45-51 | fee and tax totals divide back exactly, so unit charge times quantity is the amount captured |
| Runs.RunEvolves | core/models.py:27-36 | over every run the audit log is only appended to, ended reservations stay ended, orders only move forward, refunded tickets stay refunded, keys and refunds are permanent |
| Runs.AnyOfferIsPristine | events/models.py:57-90 | any events with any valid ticket types whose counters are zero are a place for a run to begin |
| Answers.HoldAnswers | orders/services/reservation_service.py:16-30 | NotFound, SalesPaused, InsufficientCapacity, DatabaseError and success of a hold each have their exact guard |
| Answers.CancelAnswers | orders/services/reservation_service.py:65-97 | a cancel raises NotFound iff the reservation is unknown, AccessDenied iff it is a stranger's, and succeeds otherwise |
| Answers.PurchaseAnswers | orders/services/purchase_service.py:43-157 | each of the six errors of a purchase, the order of a used key and the new order have their exact guards, with the column limits as numbers |
| Answers.DeclineIsRecorded | orders/services/purchase_service.py:113-116 | PaymentFailed iff all other guards hold and the provider declines; then exactly the FAILED order with its buyer, type, quantity and prices is added under the key |
| Answers.SaleGuards | orders/services/purchase_service.py:62-103 | the guards of a sale written out, with 255 characters and 2147483647 as numbers |
| Answers.RefundAnswers | orders/services/refund_service.py:27-69 | no requester, staff and the owner are heard, to anybody else the order does not exist; every answer has its exact guard |
| Answers.RefundDoes | orders/services/refund_service.py:71-87 | a successful refund marks exactly the named ACTIVE tickets, lowers `sold` by their number, and sets REFUNDED iff none is left |
| Answers.ToggleIsExact | events/admin.py:20-26 | a toggle sets the pause flag of one event and nothing else |
| Answers.ResumeUndoesPause | events/admin.py:20-26 | pausing and resuming gives back the database, hence every answer |
| RoundTrips.HoldExactlyWhen | orders/services/reservation_service.py:15-57 | a hold succeeds iff type ACTIVE, event on sale, enough available, id new; takes exactly `quantity` out of the available tickets until the deadline `holdMinutes` later; else nothing happens |
| RoundTrips.CancelReleases | orders/services/reservation_service.py:72-95 | an owner's or staff cancel of an ACTIVE hold always succeeds and frees exactly its quantity; any other cancel changes nothing |
| RoundTrips.CancelIsIdempotent | orders/services/reservation_service.py:60-97 | cancelling twice is cancelling once; only owner and staff get an answer |
| RoundTrips.HoldThenCancel | orders/services/reservation_service.py:32-82 | cancel undoes create: all counters return to their values |
| RoundTrips.SaleInFull | orders/services/purchase_service.py:117-152 | a sale touches one row per table, keeps availability, mints exactly `quantity` ACTIVE tickets of one new order and logs it |
| RoundTrips.SaleOrder | orders/services/purchase_service.py:73-111 | the order snapshots buyer, type, price and quantity; captured amount is (price + fee + tax) times quantity |
| RoundTrips.SaleThenFullRefund | orders/services/refund_service.py:45-87 | buying a hold and refunding it in full leaves the counters a cancel would have left and returns exactly the captured amount |
| Purchases.SellsExactlyWhen | orders/services/purchase_service.py:62-138 | a purchase sells iff hold ACTIVE and not past its deadline, event on sale, key unused, key and amounts fit their columns, ids new, payment captured; otherwise counters, holds and tickets are untouched |
| Purchases.FreshKeyAfterDecline | orders/services/purchase_service.py:113-116 | after a decline any other key can buy the hold exactly as if the decline had not happened |
| Purchases.SpentKeyKeepsItsOrder | orders/services/purchase_service.py:50-60 | over every later run a used key answers with its order, and a FAILED one stays FAILED |
| Purchases.ExpiredHoldAwaitsSweep | orders/services/purchase_service.py:62-71 | a purchase raises the expiry error iff its key is not found used, sales are on, the hold is ACTIVE and its deadline strictly past; the database stays as it was and the hold is stale for every sweep from then on |
| Delivery.AbortRestores | orders/services/purchase_service.py:113-116 | every raised error of every service leaves the exact previous database, except that a decline adds exactly one FAILED order and its key |
| Delivery.DuplicateGetsTheOrder | orders/services/purchase_service.py:50-103 | a request whose key is taken gets that order, and leaves only a log row, iff it found the key at its first look or passes pause, status, expiry and column ranges up to the INSERT; otherwise it raises and leaves nothing |
| Delivery.AtMostOneOrder | orders/models.py:91 | one order per used key, none for an unused one |
| Delivery.KeyMovesOnce | orders/services/purchase_service.py:50-103 | over any run a key has at most one order, moves inventory at most once and not at all once it is used, and every caller given an order is given the same one |
| Jobs.TaskRunsOnce | orders/tasks.py:72-86 | whatever other transactions run before and between the attempts, a job has the effect of exactly its first attempt conclusive on the database it meets, or none of its own and the dead letter queue, iff there is no such attempt |
| Jobs.RetriesExhausted | orders/tasks.py:83-86 | attempts that all fail unexpectedly end in the dead letter queue with the database unchanged |
| Jobs.ByAnswer | orders/tasks.py:78-86 | an order, SalesPaused, ReservationNotActive, ReservationExpired and PaymentFailed end the job; NotFound and DatabaseError are retried |
| Jobs.AttemptEndsJob | orders/tasks.py:72-86 | by the state the first attempt that is not lost meets: used key, pause, ended hold, past deadline, decline and sale end the job with their outcome at once; an unknown reservation and every database objection lead to the next attempt |
| Delivery.WhoseOrder | orders/services/purchase_service.py:50-103 | an answered purchase gets an order of its own reservation iff its key was unused or already stood for that reservation; with a used key exactly one collision row is logged |
| SerialPlans.CreateSerial | orders/services/reservation_service.py:26-55 | the statements of a create, run on one database, commit what the atomic create commits |
| SerialPlans.CancelSerial | orders/services/reservation_service.py:75-95 | the statements of a cancel commit what the atomic cancel commits |
| SerialPlans.PurchaseSerial | orders/services/purchase_service.py:62-152 | the statements of a purchase commit what the atomic purchase commits, declines included |
| SerialPlans.RefundSerial | orders/services/refund_service.py:35-101 | the statements of a refund commit what the atomic refund commits |
| SerialPlans.SweepSerial | orders/tasks.py:31-51 | the unrolled sweep loop, with repeated `F()` updates of one row, commits what the atomic sweep commits |
| Refinement.TxnStable | orders/services/purchase_service.py:43-48 | another transaction's commit leaves every locked decision, plan and private write of an open one valid |
| Refinement.TxnCommits | orders/services/purchase_service.py:42-138 | a finished transaction's writes laid over the committed database are the atomic service's result, with the same reply |
| Refinement.StepKeeps | orders/services/reservation_service.py:16-43 | every machine step (begin, select for update, skip-locked select of any free stale rows, look, execute, key collision, taken row id, commit, crash, pause toggle) keeps the machine invariant |
| Refinement.ClashIsAnswered | orders/services/purchase_service.py:93-94 | a transaction whose INSERT meets a taken primary key is answered as its service answers, and leaves nothing |
| Serializability.Serializable | orders/services/purchase_service.py:26-29 | every interleaved run commits, and answers, exactly what the atomic services do serially in commit order: no update is lost |
| Serializability.NoConstraintTrips | orders/services/purchase_service.py:118-122 | at no point of an interleaved run can the next counter UPDATE of any transaction violate a CHECK constraint, so none rolls back a captured payment |
| Completeness.Finishable | orders/services/purchase_service.py:42-138 | a transaction that is alone and has decided its writes always runs to an answer |
| Completeness.SerialRunsAreRuns | orders/services/reservation_service.py:15-57 | every serial run of the services, with the same answers, is a run of the machine, so nothing is proved of an empty set of runs |
| Overlap.BeginsWhenever | orders/services/reservation_service.py:15-21 | in every state of every run any request a client can make can begin, whatever else is open |
| Overlap.AllAtOnce | tests/test_concurrency.py:16-21 | any number of requests can be open at once |
| Overlap.HoldStarts | orders/services/reservation_service.py:16-21 | a create selects as soon as nobody else holds its ticket type, and then holds that lock only |
| Overlap.CancelStarts | orders/services/reservation_service.py:65-70 | a cancel waits for its reservation only |
| Overlap.PurchaseStarts | orders/services/purchase_service.py:43-48 | a purchase waits for its reservation only |
| Overlap.RefundStarts | orders/services/refund_service.py:27-30 | a refund waits for its order only |
| Overlap.SweepStarts | orders/tasks.py:24-29 | a sweep may take any list of distinct ACTIVE reservations past their deadline that nobody else holds |
| Overlap.Looks | orders/services/purchase_service.py:50 | the second query of a purchase or refund waits for nobody |
| Overlap.Executes | orders/services/purchase_service.py:118-138 | a writing statement runs as soon as nobody else holds the locks it names; a taken id or key is answered instead |
| Overlap.Commits | orders/services/purchase_service.py:42 | a transaction that has run its statements commits whatever else is open |
| Overlap.Crashes | orders/tasks.py:83-86 | a transaction may be lost at any time and leaves nothing |
| Overlap.Toggles | events/admin.py:20-26 | sales are paused or resumed as soon as no open transaction has read the event |
| EitherOrder.EitherFirst | orders/services/purchase_service.py:26-29 | two transactions that have decided and hold nothing the other needs can finish in either order, among any others |
| EitherOrder.TwoSalesOverlap | orders/services/purchase_service.py:118-122 | two purchases of different reservations, of one type or several, both decide before either commits, then either commits first and both sell |
| EitherOrder.SaleAndRefundOverlap | orders/services/refund_service.py:79-82 | the same of a purchase and a refund, of one type or two |
| Contention.ExactlyTheAvailable | tests/test_concurrency.py:16-21 | among any interleaved traffic that does not touch the ticket type, with any crashes, exactly min(N, available) of the N one-ticket requests that neither crash nor draw a taken row id succeed, and `held` rises by exactly that |
| Rush.EverybodyAtOnce | tests/test_concurrency.py:57-75 | for any number of buyers of one type: a run in which all their transactions are open at once goes on until all are answered, and exactly min(n, available) of them hold a ticket |
| Guarantees.CountersAreExact | core/reconciliation.py:5-19 | in every reachable database both counters equal the derived counts, are non-negative and sum to at most the capacity |
| Guarantees.MoneyBalances | orders/services/refund_service.py:45-51 | captured minus refunded is the unit charge of the ACTIVE tickets; refunds never exceed the capture, and equal it, for an order that was paid and is not free, iff REFUNDED |
| Guarantees.StatusIsTickets | orders/services/refund_service.py:84-87 | an order's status is equivalent to a condition on its tickets, PROCESSING is never committed, and refunds plus ACTIVE tickets are at most `quantity` |
| Guarantees.ConfirmedMeansSold | orders/services/purchase_service.py:136-138 | a reservation has at most one order that was not declined and is CONFIRMED iff it has one; quantity and type agree |
| Guarantees.NothingGoesBack | orders/services/reservation_service.py:75-82 | between any two points of an interleaved run terminal statuses, keys, refunds and log rows persist |
| Guarantees.WhatIsPermanent | orders/services/purchase_service.py:113-138 | the same row by row: which reservations, orders, tickets, refunds, keys and log rows can no longer change |
| Guarantees.PausedInventoryShrinks | orders/services/purchase_service.py:62-63 | while an event stays paused no interleaving raises `sold` or `held` of its types |
| Guarantees.OneKeyOneOrder | orders/services/purchase_service.py:20-24 | over any interleaved run a key yields one order at most and moves inventory at most once |
| Guarantees.LogTellsCounters | core/models.py:27-36 | the committed log of any interleaved run reconstructs both counters of every type |
| Guarantees.HoldsReleasedOnce | orders/tasks.py:39-50 | over any interleaved run a hold's release is logged once iff the reservation ended CANCELLED or EXPIRED |
| Guarantees.RevenueIsActiveCharge | orders/exporters.py:35-77 | in every reachable database net revenue of the unfiltered report is the unit charge of the ACTIVE tickets and no row is negative |
| AuditTrail.ApplyTraced | orders/services/purchase_service.py:140-152 | every service moves the counters by exactly what it logs, resolving reservations and orders to their type |
| AuditTrail.LogReconstructsCounters | orders/services/reservation_service.py:45-55 | replaying the log of any run from before the first sale gives `held` and `sold` of every type |
| AuditTrail.ReleasedAtMostOnce | orders/tasks.py:39-50 | a reservation's release is logged once if it ended CANCELLED or EXPIRED and never otherwise |
| RefundBatches.RefundSucceedsIff | orders/services/refund_service.py:27-69 | a refund succeeds iff caller may see the order, some named ticket is ACTIVE, provider accepts, id is new and amount is positive and 32-bit; otherwise nothing changes |
| RefundBatches.RefundRecorded | orders/services/refund_service.py:60-101 | the refund row carries the unit charge of exactly the refunded tickets and links a ticket iff ids were given and one was refunded |
| RefundBatches.RefundedSetsJoin | orders/services/refund_service.py:71-87 | two refunds in a row are one refund of the union |
| RefundBatches.BatchesRefundWhatTheyName | orders/services/refund_service.py:35-38 | for any batches the outcome depends only on the set of ACTIVE tickets they name; duplicate, foreign, unknown and refunded ids add nothing |
| RefundBatches.CoveringBatchesRefundAll | orders/services/refund_service.py:71-87 | batches that together name every ACTIVE ticket refund all tickets and the whole remaining charge |
| RefundBatches.BatchesEqualFullRefund | orders/services/refund_service.py:35-51 | such batches end in the same tickets, order, `sold` and total as one full refund, whenever that is accepted |
| RefundBatches.NothingOutsideSucceeds | orders/models.py:161-179 | no refund request for an order whose charge for one ticket is zero or over 32 bits succeeds or changes anything |
| RefundBatches.TicketByTicket | orders/services/refund_service.py:35-87 | otherwise one request per ticket, with any fresh ids, refunds the whole order |
| RefundBatches.RefundableIff | orders/services/refund_service.py:49-69 | an order with ACTIVE tickets can be refunded, some of it and all of it, iff 0 < unit charge <= 2147483647 |
| RefundBatches.RefundableAtOnceIff | orders/services/refund_service.py:37-69 | some single request refunds every ACTIVE ticket iff 0 < unit charge times their number <= 2147483647 |
| Scenarios.FreeOrderIsNotRefundable | orders/models.py:176-179 | a concrete sold free order of which no refund succeeds |
| Scenarios.HugeOrderNeverRefunded | orders/models.py:161 | a concrete sold order, within all its columns, of which no refund succeeds |
| Scenarios.LargeOrderOnlyInPieces | orders/models.py:161 | a concrete order whose full refund overflows the column while each ticket can be refunded |
| Scenarios.TooLate | orders/services/purchase_service.py:68-71 | a concrete ten-minute hold bought in the eleventh minute: the purchase raises, the ticket stays held, the sweep can take it |
| Scenarios.EarlyDuplicateRaises | orders/services/purchase_service.py:50-71 | a concrete duplicate that raises because it looked too early, where one look later gets the order |
| Scenarios.UsedKeyBuysNothing | orders/services/purchase_service.py:50-60 | a concrete purchase answered with the order of another reservation while its own hold stays ACTIVE |
| Scenarios.OverlongKey | orders/models.py:91 | a concrete live hold bought with any key over 255 characters: the purchase raises, nothing changes, the job is dead-lettered |
| Scenarios.FourAttempts | orders/tasks.py:59 | a job whose purchase always fails is executed four times before it is given up |
| Scenarios.DeclinedDayHasNoRow | orders/exporters.py:35-37 | a reachable day with an order placed that no report shows |
| Scenarios.FixStopsShort | core/management/commands/run_reconciliation.py:60-64 | a concrete store on which `--fix` stops at its first type and leaves the correctable drift of the next |
| Sweeps.LoopReachesClosedForm | orders/tasks.py:31-51 | the loop reaches the closed form: selected reservations EXPIRED, each type's `held` lowered by their total, one log row each |
| Sweeps.SweepIsExact | orders/tasks.py:23-37 | for any set of locked rows exactly the stale unlocked ones expire, `held` drops by exactly their quantity and stays non-negative, their number is returned |
| Sweeps.SweepMeans | orders/tasks.py:23-37 | the same with nothing abbreviated, reservation by reservation and type by type |
| Sweeps.SweepOrderIrrelevant | orders/tasks.py:31-51 | two processing orders differ only in the order of log rows |
| Sweeps.SecondSweepDoesNothing | orders/tasks.py:24-29 | a second sweep at the same instant with the same rows locked selects and changes nothing |
| Pausing.PausedRunShrinks | orders/services/reservation_service.py:23-24 | along every run without a resume neither counter of the paused event's types rises |
| Pausing.PauseChangesNothing | orders/services/purchase_service.py:50-63 | cancel, refund, sweep and replays of a used key act and answer as if nothing were paused |
| SalesReport.FillBuckets | orders/exporters.py:43-66 | the bucket loop computes, for every (event, day) and any order of the query, the group-by of the orders |
| SalesReport.GenerateSales | orders/exporters.py:35-77 | the report has exactly one row per (event, day) with an in-range order that was not declined, with the group's count and sums, by day then title |
| SalesReport.SortSorts | orders/exporters.py:68 | the sort yields the same items, ordered by day then title |
| SalesReport.SortStable | orders/exporters.py:68 | the sort is stable: rows equal in day and title keep the order of the bucket dictionary |
| SalesTotals.EachOrderInOneRow | orders/exporters.py:52-66 | each reported order is counted in exactly one row |
| SalesTotals.ColumnTotal | orders/exporters.py:61-77 | every column adds up to its total over the reported orders |
| SalesTotals.AdjacentReportsConcatenate | orders/exporters.py:38-41 | the reports of two adjacent periods one after the other are the report of their union |
| SalesTotals.AdjacentReportsAdd | orders/exporters.py:38-41 | whatever reports are drawn, rows and column totals of adjacent periods add up to those of the union |
| SalesTotals.NetRevenueIsActiveCharge | orders/exporters.py:69-77 | net revenue of the unfiltered report is the sum over all orders of unit charge times ACTIVE tickets, and no row is negative |
| Turnover.EverySaleHasARow | orders/exporters.py:35-41 | every order that was not declined has a row with its event, title and day, if that day of 86,400 seconds lies in the period, its ends included |
| Turnover.RowMeans | orders/exporters.py:52-77 | every row counts exactly the orders of its event and day that were not declined; gross is their price times quantity, fees, tax and refunds are theirs |
| Turnover.UnfilteredTotals | orders/exporters.py:61-73 | over the unfiltered report the orders column is the number of orders not declined, gross, fees and tax are everything captured, refunds everything paid back |
| Turnover.ReportedTurnover | orders/exporters.py:35-77 | the same of every reachable database |
| Turnover.TitleOrderMeans | orders/exporters.py:68 | titles are ordered by their first difference, a beginning first |
| Reconciliation.CorrectionFits | core/management/commands/run_reconciliation.py:60-64 | the correction is accepted by the CHECK constraints iff the type is not oversold, and an oversold type has drifted |
| Reconciliation.FoundExactly | core/management/commands/run_reconciliation.py:34-58 | the reported types are exactly those whose counters differ from the derived counts, and those whose derived counts exceed the capacity |
| Reconciliation.FoundOnce | core/management/commands/run_reconciliation.py:26-55 | each type is reported once, so the printed counts are the numbers of drifted and oversold types |
| Reconciliation.FixIsComplete | core/management/commands/run_reconciliation.py:22-67 | after a completed fix in-scope counters are exact, out-of-scope types untouched, and an immediate second run reports none and changes nothing |
| Reconciliation.FullFixRestoresCounters | core/management/commands/run_reconciliation.py:60-64 | an unfiltered fix re-establishes exact counters from arbitrary ones |
| Reconciliation.ReachableIsClean | core/management/commands/run_reconciliation.py:51-75 | in every consistent database the command finds neither drift nor oversell and a fix changes nothing |
| Reconciliation.ReconciliationReport | orders/exporters.py:158-174 | one line per type in scope; stored plus drift is actual, stored plus available is capacity, OK iff no drift |
| Reconciliation.ReachableReportIsOk | orders/exporters.py:162-174 | in every consistent database each line is OK and available is what tickets and holds leave |

## Left out

- Web layer: views, serializers, routing, JWT, throttling, registration and permissions; only the minimum quantity of one ticket (orders/serializers.py:20) is kept, as a precondition.
- Payment provider internals: capture and refund are oracles that succeed or decline. `Order.captured` is bookkeeping of the model and counts committed transactions only; money captured in a transaction that is lost before commit is not tracked.
- Deadlocks: no claim that a blocked transaction ever proceeds; a deadlock victim is a crash.
- Admin edits, cascade deletes and direct ORM writes, except the pause and resume toggle: they bypass the services.
- `--fix` under live traffic: it counts rows without locks, so it is modelled on a store nobody else writes.
- Columns no modelled decision reads: names, timestamps other than `Order.created_at` and `Reservation.expires_at`, payment provider name, refund reason and status, ticket check-in.
- Statements of the machine that change nothing are dropped: the EXPIRED write that the next exception rolls back (it is in `Storage.Store.ProcessPurchase`) and the `refresh_from_db` after a cancel. A refund without a ticket link runs the link statement with an empty value.
- The sales report reads orders and refunds in two queries; the model takes both from one snapshot.
- CSV text, attendee export, audit export, metrics, email alerts, logging, seed data and the load script: input and output, or easy members.
- Storage.Store.ProcessPurchaseTask: a failure after the commit is not an attempt of the loop; it is a further delivery of the same key, covered by `Guarantees.OneKeyOneOrder`.
- Audit rows: their own primary keys and timestamps (core/models.py:6-13) are not drawn, so no log row can clash.
- Lengths of other text columns: payment ids, actor addresses and reasons are taken to fit; only the idempotency key, which a client chooses freely, has its limit.
- Serializability.Serializable: the pause toggle waits for open transactions that read the event row, as the code's locks make it; nothing is claimed for a toggle that does not wait.
- Completeness.SerialRunsAreRuns: leaves out purchases marked as having looked their key up too early; the machine reaches those answers through a race, not through a serial event.
