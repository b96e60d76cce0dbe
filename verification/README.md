# Verified model of the earn backend

The backend lets a user deposit into and withdraw from lending vaults. A request handler writes a
`CREATED` transaction row, broadcasts through the wallet provider, stores the hash (`SUBMITTED`), waits
for the receipt and then, in one database transaction, marks the row `CONFIRMED` and moves the position's
balances. A reconciliation pass, started every 30 seconds, finishes what handlers left behind. Handlers
and passes write the same rows, interleave freely and can die at any point; only database transactions
and one compare-and-set (`SUBMITTED` to `CONFIRMED`) protect the rows. This project models that protocol,
the idempotency layer in front of it, and the pure code around it, and proves what they guarantee.

## How it is built

* **Protocol** (`Rows`, `Blocks`, `Protocol`): a machine whose step is one atomic block of a handler or of
  a pass. A pass keeps copies of the rows it listed and writes from them. A log records every applied
  credit and debit. `Invariants`, `Balances`, `Exclusion`, `Conservation` and `Lifecycle` show what every
  step keeps; `Runs` states the results for all runs; `Recovery` shows crash recovery and confluence of a
  submitted request, `Reservation` what comes before the submission, `Stranding` when a failed deposit
  blocks its position for ever and `Freeing` when a half-reverted withdraw does; `Shortfalls` holds the runs
  on which the code falls short. Each shortfall has its exact condition:
  `Shortfalls.ConfirmationAppliesIff`, `Lifecycle.ConfirmationIsForgottenIff`,
  `Lifecycle.MoveIsDocumentedIff`, `Runs.FailedIsAppliedIff`, `Runs.TurnConservesIff`,
  `Runs.WorkConservesIff`, `Recovery.SettlesByReceipt`, `Freeing.FreedIffSomebodyIsLeft`,
  `Reservation.FailedWithdrawIsFreedIff` and `Stranding.ReleasedIffSomebodyIsLeft`.
* **The same code as it is written** (`Repositories`, `Services`, `Reconciliation`, `Backlog`): the
  repositories as tables updated in place, `depositVault` and `withdrawPosition` as ordered writes with
  their catch arms, and `runReconciliation` with its loops and counters. Each method carries a run of the machine along and
  is proved to leave exactly the rows of that run, while other actors may continue the run between any two
  blocks. So every result that needs no assumption on the environment holds of the rows these methods
  leave, and a result under A3 to A5 holds whenever the steps taken meet those assumptions
  (`Services.HistoryObeys`). With nobody else at work (`alone`) a method's whole effect on the rows is
  stated. `Backlog` shows which waiting rows the passes come to settle when receipts are missing.
* **Idempotency** (`Idempotency`, `IdempotencyService`, `ExactlyOnce`): records under a unique key and
  path, many concurrent requests, refinement of an atomic map, and the composition with the protocol.
* **Kernels**: `JsonText` and `CanonicalJson` (request hash), `Digits` and `Amounts` (amount printer and
  parser), `PositionValue` (27-digit fixed point), `RateLimit` (fixed-window counter).

## Assumptions about the environment

Every result names the ones it needs; the machine itself has only the first two.

* A1: a `$transaction` block is one step; single updates outside a block are separate steps. This is the
  shape of `Protocol.Step`.
* A2: the receipt of a hash never changes. This is the constant `Protocol.Chain`.
* A3 (`sweepsOnlyDead`): the stale sweep lists only rows whose handler is dead or has returned.
* A4 (`noLateThrow`): after `markSubmitted` has returned, a handler does not enter its catch arm.
* A5 (`reservesCovered`): when a withdraw reserves, its position still covers it. This is weaker than asking
  that the reservation sees the row read first, which implies it (`Runs.FreshReadIsCovered`).

`Shortfalls` has one run for each of A3, A4 and A5 on which the result that needs it fails without it.

Code and documentation disagree in these modelled places; the model follows the code.

* README.md:105 says that a full withdraw uses the lesser of the database balance and the on-chain balance,
  but src/earn/services/earn-withdraw.service.ts:112 refuses the withdraw when the on-chain balance is
  smaller (`Services.WhichWithdrawsAreAccepted`).
* docs/architecture.md:100 promises that a confirmation updates the position once. It is at most once in
  every run (`Runs.AtMostOnce`), and exactly when it is not at all is `Shortfalls.ConfirmationAppliesIff`.
* docs/architecture.md:101 promises that reconciliation catches any `SUBMITTED` row. A row without a receipt
  is not updated, so it stays among the 100 oldest and is listed again: 100 of them keep every newer row
  waiting, with its receipt at hand (`Backlog.WaitsForever`). Exactly which rows the passes settle is
  `Backlog.ServedIff`.
* The error of the rate limit (src/earn/services/earn-mutation-rate-limit.service.ts:39) promises a limit per
  minute. An increment that reaches the store after its counter has expired starts it over; the limit can be
  exceeded exactly so (`RateLimit.ExceedsIffRestarts`).

## Model

| member | source | states |
|---|---|---|
| Runs.AtMostOnce | src/earn/persistence/transactions/transactions.repository.ts:83-109 | with any handlers, overlapping passes and crashes and no assumption beyond A1 and A2, no transaction changes a balance twice; what was applied is the row's own amount on its own position, its hash was mined with success, and the row is no longer SUBMITTED |
| Runs.BalancesFollowTheLog | src/earn/persistence/positions/positions.repository.ts:105-215 | no step changes a balance other than by the one entry it logs for that position, and the entry records the balance it found |
| Runs.Lockstep | src/earn/persistence/positions/positions.repository.ts:157-215 | in every run, even with stale reads, shares = currentAmount = depositedAmount >= 0, and all are zero while PENDING or CLOSED |
| Runs.ReceiptsDecide | src/reconciliation/transaction-reconciliation.service.ts:135-158 | in every run a CONFIRMED row has a hash mined with success, a REVERTED row one mined as reverted, a SUBMITTED row has a hash and a CREATED row has none; the two terminal rows carry the block number of that receipt, the other two none |
| Runs.RunGrows | src/earn/persistence/transactions/transactions.repository.ts:62-109 | over any run no row disappears, a hash once written never changes, a row never returns to SUBMITTED, and PENDING is never entered again |
| Runs.MutualExclusion | src/earn/services/earn-deposit.service.ts:100-158 | under A3 there is at most one CREATED or SUBMITTED deposit per user and vault, and at most one such withdraw per position |
| Runs.FirstDepositIsCredited | src/earn/services/earn-deposit.service.ts:235-258 | under A3 a confirmed first deposit has been credited, whether its handler or a pass confirmed it |
| Runs.BalancesAreConserved | src/earn/persistence/positions/positions.repository.ts:105-215 | under A3 and A5 a balance is the sum of its applied deposits minus the sum of its applied withdraws, and no debit exceeds the balance it finds |
| Runs.ActivationsOverwriteZero | src/earn/persistence/positions/positions.repository.ts:105-119 | under A3 alone, in every run `activate` only ever overwrites zero balances, whether a handler or a pass calls it |
| Runs.TurnConservesIff | src/earn/persistence/positions/positions.repository.ts:105-119 | with no assumption, and by what stands before the step: a handler's step keeps balance = deposits - withdraws exactly unless it is a confirmation that will apply and that overwrites a balance that is not zero or debits more than there is |
| Runs.WorkConservesIff | src/reconciliation/transaction-reconciliation.service.ts:257-333 | with no assumption, and by what stands before the step: a pass keeps it exactly unless it settles a listed withdraw with a successful receipt, still SUBMITTED on a WITHDRAWING position that holds less than the amount |
| Runs.FailedIsAppliedIff | src/earn/services/earn-deposit.service.ts:281-296 | with no assumption: a request that enters its catch arm has changed a balance in the end exactly if it had before the first write of that arm |
| Lifecycle.StepAppliesNothing | src/earn/services/earn-deposit.service.ts:281-296 | with no assumption: no step of anybody applies anything for a request past the first write of its catch arm |
| Runs.FreshReadIsCovered | src/earn/services/earn-withdraw.service.ts:119-152 | reserving against the row that was first read satisfies A5 |
| Runs.StatusMoves | src/earn/persistence/transactions/transactions.service.ts:36-127 | under A3 and A4 every step takes every row along CREATED to SUBMITTED or FAILED, SUBMITTED to CONFIRMED or REVERTED, or nowhere, although updateStatus is unconditional and passes write from old copies |
| Recovery.SettlesByReceipt | src/reconciliation/transaction-reconciliation.service.ts:135-333 | under A4 alone, for a submitted first deposit or withdraw with its position to itself: whoever settles it, in any interleaving with crashes, row and position end as the receipt calls for, exactly unless a withdraw stands half reverted |
| Recovery.Confluence | src/earn/services/earn-deposit.service.ts:197-258 | under A4, any two ways of settling such a request end in the same transaction status and the same position row |
| Recovery.PassRecovers | src/reconciliation/transaction-reconciliation.service.ts:73-96 | whatever happened to the handler, one pass, under any assumptions, settles the submitted request as its receipt calls for |
| Reservation.FirstDepositBeginsSolo | src/earn/services/earn-deposit.service.ts:122-150 | a first deposit on a position with no other request is alone on it from its reservation on (A3, A4) |
| Reservation.WithdrawBeginsSolo | src/earn/services/earn-withdraw.service.ts:125-152 | so is a withdraw from an active position with no other request |
| Reservation.SubmittedRecovers | src/earn/persistence/transactions/transactions.service.ts:36-53 | once such a request has its hash it meets the hypothesis of the recovery results, which need A3 no more |
| Reservation.FailedWithdrawIsFreedIff | src/earn/services/earn-withdraw.service.ts:267-280 | under A3 and A4, a failed withdraw alone on its position has freed it exactly if its handler came to the end of its catch arm; its balances are untouched either way |
| Reservation.FailedWithdrawStaysHeld | src/reconciliation/transaction-reconciliation.service.ts:117-132 | a failed withdraw whose handler died first keeps its position WITHDRAWING in every run without a new request on it |
| Stranding.StrandedForever | src/earn/services/earn-deposit.service.ts:108-120 | a failed first deposit with a PENDING position, a dead handler and no pass at work on it: in every run, with any new requests and no assumption, the position stays PENDING and deposits are refused |
| Stranding.ReleasedIffSomebodyIsLeft | src/reconciliation/transaction-reconciliation.service.ts:113-133 | a failed first deposit alone on its PENDING position: some run takes the position out of PENDING exactly if its handler lives or a pass still holds work on it |
| Recovery.StuckForever | src/earn/services/earn-withdraw.service.ts:198-205 | under A4, a handler that died between marking a withdraw REVERTED and freeing its position leaves it WITHDRAWING in every run in which no new request comes to the position |
| Freeing.FreedIffSomebodyIsLeft | src/earn/services/earn-withdraw.service.ts:198-205 | a withdraw marked REVERTED whose position is still WITHDRAWING: some run under A4, without a new request on the position, frees it exactly if its handler lives or a pass still holds work on it |
| Shortfalls.TopUpLost | src/reconciliation/transaction-reconciliation.service.ts:285-291 | a run obeying every assumption in which a pass confirms a top-up and credits nothing |
| Shortfalls.WithdrawLost | src/reconciliation/transaction-reconciliation.service.ts:318-332 | a run obeying every assumption in which a pass confirms a withdraw and debits nothing |
| Shortfalls.ConfirmationAppliesIff | src/reconciliation/transaction-reconciliation.service.ts:281-332 | a confirmation moves the balance exactly if a handler makes it, or a pass does and the position is PENDING (deposit) or WITHDRAWING (withdraw) at that moment |
| Shortfalls.StaleWithdrawKeepsItsPosition | src/reconciliation/transaction-reconciliation.service.ts:117-132 | a run obeying every assumption after which a stale withdraw is FAILED and its position still WITHDRAWING; the exact condition is Reservation.FailedWithdrawIsFreedIff |
| Shortfalls.HalfRevertedIsReached | src/earn/services/earn-withdraw.service.ts:198-205 | a run obeying every assumption that reaches the half-reverted state of Recovery.StuckForever; its exact condition is Freeing.FreedIffSomebodyIsLeft |
| Shortfalls.SweepStrands | src/reconciliation/transaction-reconciliation.service.ts:121-129 | a run obeying every assumption in which a sweep dies between its two updates and strands a first deposit's position |
| Shortfalls.CatchArmStrands | src/earn/services/earn-deposit.service.ts:281-288 | a run obeying every assumption in which a handler dies inside its catch arm and strands it |
| Shortfalls.LateThrowForgetsCredit | src/earn/services/earn-deposit.service.ts:281-296 | without A4: a credited deposit ends FAILED and its request fails; the exact conditions are Lifecycle.ConfirmationIsForgottenIff and Runs.FailedIsAppliedIff |
| Lifecycle.ConfirmationIsForgottenIff | src/earn/persistence/transactions/transactions.repository.ts:62-81 | with no assumption: a CONFIRMED row stops being CONFIRMED exactly at the first write of its own request's catch arm or at a sweep of that row |
| Lifecycle.MoveIsDocumentedIff | src/earn/persistence/transactions/transactions.service.ts:36-127 | with no assumption: a step takes a row along an undocumented move exactly if it fails a row that is not CREATED or FAILED, reverts one that is not SUBMITTED or REVERTED, or submits one that is not CREATED |
| Shortfalls.SweptHandlerOverwrites | src/reconciliation/transaction-reconciliation.service.ts:113-132 | without A3: a live handler whose row was swept overwrites the balance of the deposit that followed |
| Shortfalls.StaleReadOverdraws | src/earn/services/earn-withdraw.service.ts:89-152 | without A5: two withdraws that read the same balance are both applied and the second debit finds nothing |
| Invariants.StepKeepsBase | src/reconciliation/transaction-reconciliation.service.ts:335-347 | every step keeps the basic invariant; in particular the metadata a SUBMITTED row carries to a pass is the row's own amount, and no logged row can be confirmed again |
| Exclusion.StepKeepsGuarded | src/earn/services/earn-deposit.service.ts:299-316 | under A3 every step keeps exclusion, and a first deposit owns its PENDING, empty position until it is settled |
| Conservation.StepKeepsMoney | src/earn/services/earn-withdraw.service.ts:94-152 | under A3 and A5 every step keeps conservation and keeps open withdraws covered |
| Lifecycle.StepTracks | src/earn/persistence/transactions/transactions.service.ts:93-127 | under A3 and A4 a handler that ended with an error has left no row or a FAILED row without a hash |
| Lifecycle.StepKeepsUnsent | src/earn/services/earn-deposit.service.ts:281-296 | under A4 alone a handler that ended or is ending with an error never got a hash |
| Repositories.TransactionsRepository.Create | src/earn/persistence/transactions/transactions.repository.ts:12-26 | adds a CREATED row without hash and block, stamped twice with the present time, and changes no other row |
| Repositories.TransactionsRepository.FindOpen | src/earn/persistence/transactions/transactions.repository.ts:28-60 | finds a row exactly if a CREATED or SUBMITTED row of the kind exists on the position |
| Repositories.TransactionsRepository.UpdateStatus | src/earn/persistence/transactions/transactions.repository.ts:62-81 | overwrites the status whatever it was; absent fields keep their value; only this row's update time moves; no other row changes |
| Repositories.TransactionsRepository.MarkSubmitted | src/earn/persistence/transactions/transactions.service.ts:36-53 | is the machine's submit block: status, hash and metadata replaced |
| Repositories.TransactionsRepository.MarkFailed | src/earn/persistence/transactions/transactions.service.ts:93-108 | is the machine's failing block: status and metadata replaced, hash and block kept |
| Repositories.TransactionsRepository.MarkReverted | src/earn/persistence/transactions/transactions.service.ts:110-127 | is the machine's reverting block: status, block and metadata replaced, hash kept |
| Repositories.TransactionsRepository.ConfirmSubmitted | src/earn/persistence/transactions/transactions.repository.ts:83-109 | applies exactly if the row was SUBMITTED and leaves every other row, and a row in another status, alone |
| Repositories.TransactionsRepository.FindPendingReconciliation | src/earn/persistence/transactions/transactions.repository.ts:117-129 | the 100 SUBMITTED rows with a hash that were updated longest ago, or all of them, oldest first |
| Repositories.TransactionsRepository.FindStaleCreated | src/earn/persistence/transactions/transactions.repository.ts:131-145 | the 50 oldest CREATED rows without a hash created before the cutoff, or all of them, oldest first; nothing else is listed |
| Repositories.PositionsRepository.CreatePending | src/earn/persistence/positions/positions.repository.ts:92-103 | adds a PENDING row with zero balances |
| Repositories.PositionsRepository.Activate | src/earn/persistence/positions/positions.repository.ts:105-119 | overwrites the three balances and makes the row ACTIVE |
| Repositories.PositionsRepository.AddDeposit | src/earn/persistence/positions/positions.repository.ts:157-173 | increments the three balances and makes the row ACTIVE |
| Repositories.PositionsRepository.SubtractWithdraw | src/earn/persistence/positions/positions.repository.ts:175-215 | fails exactly on a missing row; zeroes and closes when no shares remain, otherwise decrements and makes ACTIVE |
| Repositories.PositionsRepository.MarkWithdrawing | src/earn/persistence/positions/positions.repository.ts:130-137 | changes the status only |
| Repositories.PositionsRepository.MarkActive | src/earn/persistence/positions/positions.repository.ts:139-146 | changes the status only |
| Repositories.PositionsRepository.MarkFailed | src/earn/persistence/positions/positions.repository.ts:148-155 | changes the status only |
| Services.Backend.DepositVault | src/earn/services/earn-deposit.service.ts:72-297 | its writes, with any interference between them, are a run of the protocol in which its handler ends as it returns; alone, it succeeds exactly if funded, not blocked and mined in time, and leaves exactly the rows of `Deposited` |
| Services.Backend.ReserveDeposit | src/earn/services/earn-deposit.service.ts:100-158 | the reservation block is the machine's, and refuses exactly if the position is PENDING or a deposit is open |
| Services.Backend.ConfirmDeposit | src/earn/services/earn-deposit.service.ts:229-258 | the confirming block is the machine's |
| Services.Backend.RevertDeposit | src/earn/services/earn-deposit.service.ts:202-211 | position first, then the row, as two steps of a run |
| Services.Backend.FailDeposit | src/earn/services/earn-deposit.service.ts:281-296 | the catch arm as steps of a run: row FAILED, then a new position FAILED |
| Services.DepositedMeans | src/earn/services/earn-deposit.service.ts:173-296 | what `Deposited` is: only the request's row and position change; the amount is added to all three balances if the receipt is a success, the row gets hash, status, the block number of the receipt and the metadata of its last write; otherwise an old position is untouched and a new one is FAILED and empty |
| Services.Backend.WithdrawPosition | src/earn/services/earn-withdraw.service.ts:58-281 | its writes, with any interference between them, are a run of the protocol in which its handler ends as it returns; alone, it succeeds exactly if accepted and mined in time, and leaves exactly the rows of `Withdrew` |
| Services.Backend.CheckWithdraw | src/earn/services/earn-withdraw.service.ts:58-117 | the checks pass exactly with the terms computed from the row read, and write nothing |
| Services.Backend.ReserveWithdraw | src/earn/services/earn-withdraw.service.ts:125-152 | the reservation block is the machine's, and refuses exactly if a withdraw is open |
| Services.Backend.ConfirmWithdraw | src/earn/services/earn-withdraw.service.ts:216-245 | the confirming block is the machine's |
| Services.Backend.RevertWithdraw | src/earn/services/earn-withdraw.service.ts:198-205 | row first, then the position, as two steps of a run |
| Services.Backend.FailWithdraw | src/earn/services/earn-withdraw.service.ts:267-280 | the catch arm as steps of a run: row FAILED, then position ACTIVE |
| Services.WithdrewMeans | src/earn/services/earn-withdraw.service.ts:167-280 | what `Withdrew` is: only the request's row and position change; a success takes the terms from the balances and closes an emptied position; otherwise no position changes at all; the row as for a deposit |
| Services.WhichWithdrawsAreAccepted | src/earn/services/earn-withdraw.service.ts:84-123 | accepted exactly if ACTIVE, no withdraw open and covered by position and chain; a full withdraw takes everything or is refused |
| Services.RowsAreInLockstep | src/earn/persistence/positions/positions.repository.ts:105-215 | the rows any methods leave behind in any interleaving are in lockstep and not negative |
| Services.RowsFollowTheChain | src/earn/persistence/transactions/transactions.repository.ts:83-109 | and their CONFIRMED rows were mined with success, each applied at most once |
| Services.HistoryObeys | src/earn/services/earn-withdraw.service.ts:119-152 | when every step taken met some of the assumptions, the history is a run under them and all results under them apply |
| Services.RowsAreConserved | src/earn/persistence/positions/positions.repository.ts:105-215 | under A3 and A5 the balances the methods leave are the applied deposits minus the applied withdraws |
| Reconciliation.GetTransactionReceiptWithRetry | src/earn/services/earn-blockchain.service.ts:151-174 | throws exactly if every attempt throws, and otherwise returns what the first attempt that does not throw returns |
| Reconciliation.RetryMeans | src/earn/services/earn-blockchain.service.ts:151-174 | with the three attempts of a pass: the answer of the first attempt that does not throw, up to and including the third |
| Reconciliation.ConfirmDepositTransaction | src/reconciliation/transaction-reconciliation.service.ts:257-293 | is the machine's block: credits exactly if the compare-and-set applied and the position is PENDING |
| Reconciliation.ConfirmWithdrawTransaction | src/reconciliation/transaction-reconciliation.service.ts:295-333 | is the machine's block: debits exactly if the compare-and-set applied and the position is WITHDRAWING |
| Reconciliation.HandleRevertedTransaction | src/reconciliation/transaction-reconciliation.service.ts:218-255 | is the machine's block: marks the row, and frees a PENDING or WITHDRAWING position |
| Reconciliation.ReconciledMeans | src/reconciliation/transaction-reconciliation.service.ts:218-333 | what settling from a listed copy does to row and position, in plain values: block number, status, balances, for every receipt and every status of the position |
| Reconciliation.ReconcileTransaction | src/reconciliation/transaction-reconciliation.service.ts:135-158 | the outcome follows what three attempts come to, writes nothing when there is none, and settles when one attempt finds it |
| Reconciliation.FailStaleTransaction | src/reconciliation/transaction-reconciliation.service.ts:117-132 | up to three separate updates as steps of a run, whatever happens in between; alone, the row is FAILED and a deposit's PENDING position with it, and nothing else changes |
| Reconciliation.FailStalePosition | src/reconciliation/transaction-reconciliation.service.ts:125-131 | the second half of it: alone, exactly a PENDING position fails |
| Reconciliation.ReconcileStaleCreatedTransactions | src/reconciliation/transaction-reconciliation.service.ts:113-133 | fails the 50 oldest stale rows or all of them; alone, exactly those rows change, and become FAILED; no row created at or after the cutoff changes; they leave the stale list, pending rows stay, a PENDING position fails exactly if one of those rows deposits into it, and no other position changes |
| Reconciliation.ReconcilePendingTransactions | src/reconciliation/transaction-reconciliation.service.ts:73-96 | every listed row is counted once, by the answer for its hash, under its own counter; alone, exactly the listed rows whose receipt is found in time leave the queue, and the rows left keep their place in it |
| Reconciliation.RunReconciliation | src/reconciliation/transaction-reconciliation.service.ts:61-111 | a run of the protocol; scanned = failed + confirmed + reverted + pending + thrown; alone, confirmed and reverted are the numbers of the rows that left and whose hash was mined with success and without, pending and thrown those of the scanned rows whose attempts found nothing and all threw; as many rows leave the lists as are counted failed, confirmed or reverted, none enters, and the queue makes one pass |
| Reconciliation.DrainBacklog | src/reconciliation/transaction-reconciliation.service.ts:61-133 | k passes one at a time with all receipts at hand leave no pending row exactly if there were at most 100k, and no stale row exactly if there were at most 50k |
| Reconciliation.RunPasses | src/reconciliation/transaction-reconciliation.service.ts:61-96 | k passes one at a time with some receipts missing: all of them are decided by the rows, times and receipts before the first, and with more passes than rows those settled are exactly the rows of Backlog.ServedIff |
| Backlog.WaitsForever | src/earn/persistence/transactions/transactions.repository.ts:117-129 | starvation: a row with 100 older rows without receipt before it is never settled, whatever the number of passes, although its receipt is at hand |
| Backlog.ServedWithin | src/earn/persistence/transactions/transactions.repository.ts:117-129 | with u < 100 rows without receipt and a with one no newer than it, a row whose receipt is at hand is settled within any k passes with k * (100 - u) > a |
| Backlog.ServedIff | src/reconciliation/transaction-reconciliation.service.ts:73-96 | with update times distinct and more passes than rows, a row is settled exactly if its receipt is at hand and fewer than 100 older rows without receipt stand before it |
| Idempotency.StepRefines | src/idempotency/idempotency.service.ts:43-98 | every deciding step is one atomic call on the map from slots to running or done, every completion one atomic finish, every other step nothing |
| Idempotency.RelookAnswers | src/idempotency/idempotency.service.ts:67-80 | after a lost insert the second lookup is the last step: it answers from the record, and the insert error is rethrown exactly if the slot is free again |
| Idempotency.OneRunner | prisma/schema.prisma:179 | at most one request per key and path holds the right to run |
| Idempotency.ExactlyOneRuns | src/idempotency/idempotency.service.ts:51-80 | of any number of requests for one slot exactly one gets to run |
| Idempotency.StoredResponseIsReplayed | src/idempotency/idempotency.service.ts:43-132 | a stored response stays, and every request of its slot not answered before, wherever it stands (also between its lost insert and its second lookup), or arriving later, is refused for another payload and otherwise answered exactly it, if and only if it has a body; without a body the slot looks in progress for ever |
| IdempotencyService.IdempotencyRepository.FindByKeyAndPath | src/idempotency/idempotency.repository.ts:10-19 | the record of the slot, or none exactly if there is none |
| IdempotencyService.IdempotencyRepository.Create | src/idempotency/idempotency.repository.ts:21-31 | inserts exactly if the slot is free; a failed insert changes nothing |
| IdempotencyService.IdempotencyRepository.SaveResponse | src/idempotency/idempotency.repository.ts:33-45 | stores the response in that record only |
| IdempotencyService.IdempotencyRepository.DeleteById | src/idempotency/idempotency.repository.ts:47-51 | removes that record only |
| IdempotencyService.Acquire | src/idempotency/idempotency.service.ts:43-81 | with other requests at work between its calls, the answer is that of one atomic call; the insert error is rethrown only when the slot is free again |
| IdempotencyService.Complete | src/idempotency/idempotency.service.ts:83-98 | one atomic finish: a 2xx response is stored, anything else frees the slot, for any status |
| IdempotencyService.Intercept | src/idempotency/idempotency.interceptor.ts:59-105 | writes nothing unless it runs the handler; a 2xx answer (code 0 counts as 200) is kept with its own code and body, any other answer frees the slot, and so does an exception, unless its own status is a 2xx; no other slot changes |
| ExactlyOnce.OncePerKey | src/idempotency/idempotency.interceptor.ts:67-88 | under A4, over both layers, all requests under one key and path change a balance at most once |
| ExactlyOnce.TwicePerKeyNeedsFreed | src/idempotency/idempotency.service.ts:88-91 | with no assumption: two balance changes under one key and path need two requests, one of which was applied and yet completed without a 2xx |
| ExactlyOnce.FreedAppliesNoMore | src/idempotency/idempotency.service.ts:88-91 | with no assumption: from the moment a request has freed its key it changes no balance |
| ExactlyOnce.FreedNeverApplies | src/idempotency/idempotency.service.ts:88-91 | under A4, a request that completed without a 2xx, and so freed its key, has changed no balance and never will |
| ExactlyOnce.AppliedOwnsItsKey | src/idempotency/idempotency.interceptor.ts:73-85 | a request whose balance change was applied still owns the record of its key or has completed without a 2xx; under A4 it still owns it |
| JsonText.ReadPrints | src/idempotency/utils/request-hash.util.ts:9-11 | the printed text of a JSON value reads back as that value, by a reader after the grammar of RFC 8259 |
| JsonText.PrintInjective | src/idempotency/utils/request-hash.util.ts:9-11 | two JSON values that print the same text are the same value (section 25.5.2 of ECMA-262) |
| JsonText.EscapeIsPaired | src/idempotency/utils/request-hash.util.ts:9-11 | whatever the string is, its printed text is well-formed UTF-16: lone surrogates are escaped |
| JsonText.PlainIsQuoted | src/idempotency/utils/request-hash.util.ts:9-11 | a well-formed string without control characters, quotes and backslashes is printed as it is |
| JsonText.ShortEscapes | src/idempotency/utils/request-hash.util.ts:9-11 | the seven two-character escapes |
| JsonText.HexIsLowerCase | src/idempotency/utils/request-hash.util.ts:9-11 | the other escapes have lower-case hexadecimal digits |
| JsonText.NumberUnitsAre | src/idempotency/utils/request-hash.util.ts:9-11 | the characters a printed number consists of |
| CanonicalJson.CanonicalIffSame | src/idempotency/utils/request-hash.util.ts:9-28 | two values have the same canonical text exactly if they differ only in the order of object members, at any depth |
| CanonicalJson.SortIsIdempotent | src/idempotency/utils/request-hash.util.ts:13-28 | sorting a sorted value changes nothing |
| CanonicalJson.SortedIsInOrder | src/idempotency/utils/request-hash.util.ts:18-25 | at any depth, members with array-index keys come first, by number, and the others after them in the order of their keys |
| CanonicalJson.LessMeans | src/idempotency/utils/request-hash.util.ts:20-21 | one key is before another exactly if its first differing UTF-16 unit is smaller or it is a proper beginning |
| CanonicalJson.IndexMeans | src/idempotency/utils/request-hash.util.ts:25 | the keys that come first are exactly the numerals of 0 to 2^32 - 2 |
| CanonicalJson.ArrayOrderCounts | src/idempotency/utils/request-hash.util.ts:14-16 | swapping any two entries of any array changes the text exactly if they differ in more than member order |
| CanonicalJson.SameRequestIffSameText | src/idempotency/utils/request-hash.util.ts:4-7 | the hashed texts of two requests agree exactly if method and path agree and parameters, query and body agree up to member order |
| CanonicalJson.FingerprintText | src/idempotency/utils/request-hash.util.ts:4-11 | the hashed text itself: body, method, params, path and query in this order, with their names, quotes, colons and commas |
| Amounts.ParseIsExact | frontend/src/utils/format.ts:18-28 | parseAmount accepts exactly digits, or digits, a dot and digits, between white space, and returns floor(value * 10^d): truncation, never rounding |
| Amounts.ParseIsFloor | frontend/src/utils/format.ts:18-28 | the same, by the whole part and the fraction of the trimmed string |
| Amounts.SpacesAre | frontend/src/utils/format.ts:19 | what is trimmed: the 25 characters of sections 12.2 and 12.3 of ECMA-262 |
| Amounts.ParseIsMonotone | frontend/src/utils/format.ts:18-28 | a larger numeral never parses to a smaller amount |
| Amounts.FormatMeans | frontend/src/utils/format.ts:1-16 | formatAmount prints the whole part and, after a dot if there are any, at most m fraction digits with no zero at the end, worth the fraction with its other digits cut off |
| Amounts.FormatThenParse | frontend/src/utils/format.ts:1-28 | printing with m fraction digits and parsing back gives exactly x cut down to a multiple of 10^(d - min(m, d)) |
| Amounts.RoundTrip | frontend/src/utils/format.ts:1-28 | with m >= d the round trip gives x back |
| PositionValue.FormatParseUnits | src/protocols/aave/aave-viem.service.ts:57-58 | printing an integer with d decimals and parsing it at the same scale gives it back |
| PositionValue.FormatsAgree | src/protocols/aave/aave-viem.service.ts:57-58 | formatUnits prints what formatAmount prints with all its fraction digits |
| PositionValue.ParseUnitsMeans | src/earn/utils/position-value.util.ts:18-22 | a numeral with fraction f is worth its digits times 10^d over 10^(digits of f), and is accepted exactly if it has no more than d significant fraction digits |
| PositionValue.ParseUnitsAccepts | src/earn/utils/position-value.util.ts:18-22 | nothing but such numerals is accepted |
| PositionValue.ValueMeans | src/earn/utils/position-value.util.ts:6-24 | all cases: zero shares are worth 0 at any price; otherwise the floor of shares times price, at scale 27 over 10^27 for equal decimals and at the asset's scale over 10^(share decimals) for others |
| PositionValue.DetourIsExact | src/earn/utils/position-value.util.ts:15-20 | the value through the price string is exactly floor(shares * liquidityIndex / 10^27), the formula of README.md:102 |
| PositionValue.Worth | src/earn/utils/position-value.util.ts:17-23 | the quotient is the floor: v * 10^k <= shares * price < (v + 1) * 10^k |
| PositionValue.WorthIsMonotone | src/earn/utils/position-value.util.ts:17-23 | monotone in shares and in price |
| PositionValue.WorthIsNearlyAdditive | src/earn/utils/position-value.util.ts:17-23 | splitting shares over two positions loses at most one unit |
| PositionValue.BranchesAgree | src/earn/utils/position-value.util.ts:17-23 | at equal decimals (at most 27) and prices with no more fraction digits than that, both branch formulas give the same value |
| RateLimit.EarnMutationRateLimit.AssertAllowed | src/earn/services/earn-mutation-rate-limit.service.ts:21-45 | with time passing and other requests acting between its commands: allows exactly if its increment finds fewer than the limit, and sets the expiry exactly if it found none |
| RateLimit.ExpiryIsAfterTheWindow | src/earn/services/earn-mutation-rate-limit.service.ts:26-33 | the 60-second expiry never removes a counter inside its own minute |
| RateLimit.LivesForAMinute | src/earn/services/earn-mutation-rate-limit.service.ts:29-33 | a counter is found expired exactly from 60 seconds after its expiry was set, however often it is incremented before |
| RateLimit.ExpiryRevivesNothing | src/earn/services/earn-mutation-rate-limit.service.ts:32 | an expiry set when the counter is gone leaves it gone |
| RateLimit.AllByLives | src/earn/services/earn-mutation-rate-limit.service.ts:26-45 | in every history, what passes of a minute is the limit or what was counted, whichever is less, for each life of its counter |
| RateLimit.AtMostLimitPerMinute | src/earn/services/earn-mutation-rate-limit.service.ts:26-45 | with any interleaving of increments and expiries, of the requests of a minute, however late their increments, exactly the smaller of the limit and the stored count passes, unless one of them finds the counter expired; those on time never exceed the limit at all |
| RateLimit.ExceedsIffRestarts | src/earn/services/earn-mutation-rate-limit.service.ts:26-45 | one more request of a minute whose limit is used up exceeds it exactly if its increment finds the counter expired |
| RateLimit.AtMostTwicePerSpan | src/earn/services/earn-mutation-rate-limit.service.ts:26-45 | of the requests that read the clock in any 60 seconds at most twice the limit pass, however late their increments, unless one of the two minutes restarts its counter; of those on time never more |
| RateLimit.LateIncrementStartsOver | src/earn/services/earn-mutation-rate-limit.service.ts:26-33 | with a limit of one, a history in which two requests of one minute pass: the second lands when the counter has expired |
| RateLimit.LateIncrementStillCounts | src/earn/services/earn-mutation-rate-limit.service.ts:26-33 | a history in which an increment lands after its minute but before the expiry, and is counted and refused |

## Left out

* The approval flow: it touches no position. Approval rows that wait for a receipt share the limit of 100 with deposits and withdraws in the code; the lists here hold deposits and withdraws only.
* The validation guards before the first read (ownership, chain, vault, wallet): they end a request before any write, which is the step `Refuse`; only the balance and allowance checks of a deposit appear in `DepositVault`.
* Storage failures: a database error inside a handler is the step `Throw` of the machine, inside a pass the step `Skip`; the methods of `Services` and `Reconciliation` and the idempotency layer assume that storage writes succeed. An error in the stale sweep, which ends the pass, is the step `EndPass`.
- Services.Backend.DepositVault: a crash of the process is a step of the machine, not of the method, which always returns; the results about runs cover crashes.
- Services.Backend.WithdrawPosition: likewise for crashes.
* The Redis reconciliation lock: it gives no guarantee here, so passes may overlap.
* Time in the lists: the repository's clock moves forward by any amount at each write; the cutoff of a sweep is a parameter, and `DrainBacklog` and `RunPasses` keep it fixed, which is what "no new work" means for stale rows.
* Row identifiers: a transaction row is named by the request that creates it, a position by its user and vault, which are unique together (prisma/schema.prisma:131). Deletion by cascade and positions detached from a transaction are not part of this model.
* Metadata other than the two share fields that are read back, gas, audit writes, explorer links and response texts.
* Column limits of Decimal(36,18): amounts are unbounded integers, which assumes amounts below 10^18.
* SHA-256: results are about the text before hashing. The number -0, which prints as 0, and values without a JSON text are not represented; a number is its own printed text.
* `formatUnits` and `parseUnits` of viem for negative numbers, and `parseUnits` where it rounds away digits; `formatAmount` of a negative amount, and `parseAmount` of more than the trimmed pattern.
* `expiresAt` of idempotency records, which is written and never read; the header and path handling of the interceptor.
* Wallet creation, authentication, health checks, configuration and the React frontend other than the amount functions.
