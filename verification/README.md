# Verified model of the judge AI subsystem

Counterpoint pays for the AI calls of a "judge" meeting itself. Several small protocols over
durable storage guard that money and the provider calls it buys: claims on structured AI
operations, the lifecycle of realtime calls, the start of a managed call, and one usage ledger
under all of them. This project models those protocols, and three smaller state machines around
them, in Dafny 4.11, and proves what every run of them keeps. `dafny verify dfyconfig.toml` checks
all of it.

## How the model is built

- A statement or storage transaction is one atomic function on the tables. A class with the
  source's fields implements it step by step, and each of its methods is proved equal to that
  function, so both say the same thing in two ways.
- Asynchronous code is split at its awaits. `ManagedRuns` gives every request and every
  reconciler row a program counter; `RealtimeCall` does the same for starts, terminations, provider
  events and sideband disconnects; `RealtimeTurns` holds the synchronous code between two awaits. Any
  number of processes interleave in any order, and any of them may stop for ever at any point.
  `RealtimeCall` also lets every storage and provider call fail before or after it takes effect.
- `ManagedOperation` is the same operation as straight-line code, proved to be one of the interleavings,
  and `RealtimeCall.JudgeRealtimeCallLifecycle` the same for a termination.
- `StartSaga` is the start handler as straight-line code in which every remote call may fail before or
  after it takes effect, and any sequence of repository and ledger calls by other requests runs before
  each of its steps.
- What a protocol must never do is stated over every interleaving; what it must achieve is stated for the
  runs that nobody disturbs, from every state, by conditions on the tables and inputs alone.
- Theorems speak about every schedule from an initial state (`Run`, `Reachable`), never about a bounded one.
- Hashes, UUIDs and provider ids are numbers that are only compared; fresh ids are new ones. Epochs
  and lengths are unbounded, and where the source checks for safe integers the check is written out.
  Text is a sequence of UTF-16 code units. Durations are real numbers.

| file | what it models |
|---|---|
| `UsageLedger`, `UsageLimiter` | the usage reservation table with its triggers, and the limiter |
| `ManagedClaimTables`, `ManagedReconcile`, `ManagedClaimRepository` | claim and lifecycle tables, the reconciliation pass, the repository class |
| `ManagedRuns`, `ManagedHistory`, `ManagedTheorems`, `ManagedStaleClock` | interleaved runs of the claim protocol |
| `ManagedCharges` | what reservations are charged in those runs |
| `ManagedOperation` | one operation, and one row of a pass, as straight-line code |
| `RealtimeUsage`, `RealtimeCall`, `RealtimeCallTheorems`, `RealtimeProgress` | usage recorder and durable lifecycle of a realtime call |
| `RealtimeTurns`, `RealtimeTurnsTheorems`, `RealtimeTurnsProgress` | turns and responses kept in memory during a call |
| `Json`, `CanonicalJson` | JSON text and the canonical form of inputs |
| `Pricing` | exact prices and the check of a bill |
| `ManagedRealtimeCalls`, `StartSaga` | start claims, ownership rows and the start handler |
| `ReconnectController` | the browser's reconnect controller |
| `MeetingCoordinator`, `MeetingTheorems` | tickets, publications and the key lease of a meeting |
| `Projections` | projections of the event log |

## Assumptions

- A claim key determines operation, model and pricing version: the key hashes the operation, and one
  deployment has one model and one pricing version for each operation.
- A clock reading is never later than the true time at which it is used; it may be arbitrarily old.
- Timers do not fire early.
- The limiter's limits on requests, concurrency, seconds, tokens and generations are one boolean of the
  environment; only the cost limit is modelled, because only it is set for the judge.
- A database batch is atomic.
- Reservation and managed call ids are new when they are made. In `ManagedRuns` the other users of the
  ledger act on no reservation of a claim (no id in `born`); in `StartSaga` the other requests act on
  neither the managed call nor the reservation of this one. They may use the same start key.

## What the proofs found in the code

The code is modelled as it is. Where a natural statement about it is false, the project has a
concrete run or input, and the condition under which the statement holds.

- **Trusted usage that cannot be charged.** The recorder lets a realtime call spend up to USD 25, the
  reservation covers USD 12, and the limiter takes whole seconds only. A trusted call outside these
  bounds can never be finalized, however often the alarm retries. A termination settles if and only
  if nothing is owed, or the usage is untrusted, or its seconds are whole and its cost is at most USD 12
  (`FreshChargeSucceedsIff`, `TerminationSettlesIff`); `TrustedCallCanBeUnchargeable` is a run from
  the new call into such a state. A start handler that cleans up after such a call even takes its
  reservation away (`CleanupSettlesIff`).
- **A release under a live call.** When the start handler cannot reach the call controller, or the
  controller the provider, it still releases the reservation; a call that is live then can never be
  settled. `ReservationLostIff` has the exact condition over every run, `RunsFromNothing` one such run,
  and `ReleasedCallNeverSettles` the consequence.
- **A row that stays active.** The catch block terminates the ownership row at the clock it reads there,
  or at epoch 0, and the row refuses an epoch before its creation. Then row and claim stay
  (`RowSurvivesIff`, `ClaimSurvivesIff`, and a run in `RunsFromNothing`).
- **Answers that are lost.** A start claim or a reservation whose commit is not acknowledged is never
  undone; everything else is (`SagaCompensates` has the exact conditions).
- **One second.** The handler and the limiter read the clock separately, and the ownership row is only
  accepted if both readings are equal (`CreatedIff`).
- **Late accept.** A start overwrites a state it has not seen in two places: after a failed hang-up of a
  call accepted too late, and in the catch block after a failed read. The lifecycle theorems exclude the
  runs in which such a write hits a stored state (`blind`), and `BlindWriteRevivesSettledCall` shows for
  the first place that they must.
- **Creation epochs.** Two provider starts under one claim key are always separated by a settlement of
  the first that lies more than the retention before the second start, and before the moment the second
  claim was written. Its creation epoch can be earlier, because it is the reading with which the request
  began: a request with an old reading can insert a claim after the key was reused and given up
  (`CreationEpochMayPrecedeSettlement`). The epochs are in order if and only if the later claim was not
  inserted, over a deleted row, on such an old reading (`CreationEpochsInOrderIff`); a reading at most D
  seconds old is too early by at most D, and a current one never (`FreshReadingKeepsOrder`).
- **Stale finalization.** A finalization that carries an old epoch can be refused by the cost trigger
  although it asks for no more than was reserved; an up-to-date one never is.
- **Revoked sessions and the key lease.** A coordinator accepts a key from a session it has revoked; in
  any run this is the only way a revoked session comes to hold the lease (`RevokedNeverHoldsIff`).

The branches that settle a claim from `reserved` because its reservation is already finalized are
unreachable: `AccountingIsSafe` says that a reserved claim's reservation is at most held.

## Model

| member | source | states |
|---|---|---|
| `UsageLedger.RollingCostSplit` | packages/adapters-cloudflare/src/d1-usage-limiter.ts:177-182 | the rolling cost is a sum over rows in which the order of rows plays no part |
| `UsageLedger.BudgetHoldsInEveryRun` | apps/worker/migrations/0006_judge_usage_reservations.sql:168-238 | over every sequence of ledger operations, each with an epoch read at any earlier time, the cost of the 24 hours ending now is at most USD 25 and no row is charged more than it reserved |
| `UsageLedger.ReserveKeepsBudget` | packages/adapters-cloudflare/src/d1-usage-limiter.ts:144-205 | admission with a stale epoch keeps the budget; no other row changes |
| `UsageLedger.FinalizeKeepsBudget` | packages/adapters-cloudflare/src/d1-usage-limiter.ts:795-857 | finalizing keeps the budget and every other row |
| `UsageLedger.ReleaseKeepsBudget` | packages/adapters-cloudflare/src/d1-usage-limiter.ts:859-888 | releasing keeps the budget and every other row |
| `UsageLedger.FreshFinalizeIsNeverRefused` | apps/worker/migrations/0006_judge_usage_reservations.sql:200-238 | with an up-to-date epoch a held row can be finalized if and only if the actual usage is within its estimate: the cost trigger adds no further condition |
| `UsageLedger.StaleFinalizeCanBeRefused` | apps/worker/migrations/0006_judge_usage_reservations.sql:200-238 | a concrete run after which a finalization with a stale epoch is refused by the cost trigger although it asks for no more than was reserved |
| `UsageLimiter.SumCharges` | packages/adapters-cloudflare/src/d1-usage-limiter.ts:162-182 | the loop adds up exactly the rolling cost |
| `UsageLimiter.D1UsageLimiter.ReserveNamed` | packages/adapters-cloudflare/src/d1-usage-limiter.ts:647-785 | idempotent named reservation: recovered, denied, failed or inserted, with the whole new table stated |
| `UsageLimiter.D1UsageLimiter.TryFinalize` | packages/adapters-cloudflare/src/d1-usage-limiter.ts:799-833 | the guarded UPDATE changes the row exactly when guard, row constraint and cost trigger allow it |
| `UsageLimiter.D1UsageLimiter.FinalizeActual` | packages/adapters-cloudflare/src/d1-usage-limiter.ts:795-857 | finalize, accepting a repetition with the same actual usage and nothing else |
| `UsageLimiter.D1UsageLimiter.FinalizeFullReservation` | packages/adapters-cloudflare/src/judge-structured-ai-reconciliation.ts:233-255 | the reconciler's finalizing statement, as the ledger function that a pass is proved to charge the whole estimate with |
| `UsageLimiter.D1UsageLimiter.ReleaseReservation` | packages/adapters-cloudflare/src/d1-usage-limiter.ts:859-888 | release, idempotent once released and refused once finalized |
| `ManagedClaimRepository.D1ManagedAiOperationClaimRepository.ReserveOrReplay` | packages/adapters-cloudflare/src/d1-managed-ai-operation-claims.ts:430-604 | insert, conflict, replay or two-statement reuse of a settled row, branch by branch, with both tables stated |
| `ManagedClaimRepository.D1ManagedAiOperationClaimRepository.TakeOver` | packages/adapters-cloudflare/src/d1-managed-ai-operation-claims.ts:606-645 | an expired reserved lease is extended only by who still matches its identity |
| `ManagedClaimRepository.D1ManagedAiOperationClaimRepository.StartProvider` | packages/adapters-cloudflare/src/d1-managed-ai-operation-claims.ts:647-689 | reserved becomes provider_started only within the lease |
| `ManagedClaimRepository.D1ManagedAiOperationClaimRepository.Settle` | packages/adapters-cloudflare/src/d1-managed-ai-operation-claims.ts:691-720 | settling is conditional on status, reservation and identity |
| `ManagedClaimRepository.D1ManagedAiOperationClaimRepository.Abandon` | packages/adapters-cloudflare/src/d1-managed-ai-operation-claims.ts:722-735 | abandoning deletes both rows or neither |
| `ManagedClaimRepository.D1ManagedAiOperationClaimRepository.AbandonExpired` | packages/adapters-cloudflare/src/d1-managed-ai-operation-claims.ts:805-820 | the same, only after the lease has expired |
| `ManagedClaimRepository.D1ManagedAiOperationClaimRepository.ReleaseExpired` | packages/adapters-cloudflare/src/d1-managed-ai-operation-claims.ts:777-803 | the release-and-abandon batch, statement by statement |
| `ManagedClaimRepository.D1ManagedAiOperationClaimRepository.ReleaseOrphan` | packages/adapters-cloudflare/src/d1-managed-ai-operation-claims.ts:737-754 | a reservation is released only if no lifecycle row refers to it |
| `ManagedClaimTables.OrphanIsReleased` | packages/adapters-cloudflare/src/d1-managed-ai-operation-claims.ts:737-754 | exactly the held reservations of this fingerprint that no claim row refers to are given back |
| `ManagedClaimRepository.D1ManagedAiOperationClaimRepository.SelectKeys` | packages/adapters-cloudflare/src/judge-structured-ai-reconciliation.ts:54-99 | the stale query: the first `limit` stale keys ordered by lease and key, none left out before one that is in |
| `ManagedClaimRepository.OldestAreSelected` | packages/adapters-cloudflare/src/judge-structured-ai-reconciliation.ts:54-99 | whatever a pass leaves has a lease that ended no earlier than any it takes |
| `ManagedClaimRepository.D1ManagedAiOperationClaimRepository.ListStale` | packages/adapters-cloudflare/src/d1-managed-ai-operation-claims.ts:756-775 | the joined rows of that selection |
| `ManagedClaimRepository.ReconcileOne` | apps/worker/src/judge-managed-structured-ai.ts:151-229 | one row of the pass, every branch and every caught failure |
| `ManagedClaimRepository.ReconcileListed` | apps/worker/src/judge-managed-structured-ai.ts:145-232 | the loop: attempted = failed + released + settled, and the tables are those of the row-by-row specification |
| `ManagedClaimRepository.Reconcile` | apps/worker/src/judge-managed-structured-ai.ts:114-233 | a pass: other arguments change nothing; on a recoverable table no row fails, each started provider is charged its whole reservation unless it was charged before, each other claim is deleted with its reservation given back, and with at most `limit` stale rows every row that is left is settled or within its lease |
| `ManagedClaimRepository.PassLeavesNothingStale` | apps/worker/src/judge-managed-structured-ai.ts:114-233 | the same for the specification of a pass, over every selection the query may return |
| `ManagedReconcile.RowComesToRest` | apps/worker/src/judge-managed-structured-ai.ts:153-226 | one stale row of a recoverable table is deleted with its reservation absent or released, or settled with its whole reservation charged unless it was charged before, and nothing else is touched |
| `ManagedReconcile.RowFailsIff` | apps/worker/src/judge-managed-structured-ai.ts:153-226 | over any table, exactly when a listed row cannot be brought to rest; a row that fails keeps its claim |
| `ManagedReconcile.OthersStayRecoverable` | apps/worker/src/judge-managed-structured-ai.ts:153-226 | bringing one row to rest leaves every other row recoverable |
| `ManagedReconcile.RowsComeToRest` | apps/worker/src/judge-managed-structured-ai.ts:145-232 | the same for any list of distinct stale rows, with the exact numbers of settled and released ones |
| `ManagedRuns.ActKeeps` | apps/worker/src/judge-managed-structured-ai.ts:268-551 | every atomic step of every runner or reconciler keeps the shared invariant and its own |
| `ManagedRuns.ReuseIsAllOrNothing` | packages/adapters-cloudflare/src/d1-managed-ai-operation-claims.ts:482-541 | the two UPDATE statements of the reuse batch change both rows or neither |
| `ManagedRuns.RowReleaseIsAllOrNothing` | packages/adapters-cloudflare/src/d1-managed-ai-operation-claims.ts:777-803 | the release-and-abandon batch changes both tables or neither |
| `ManagedHistory.LogKeeps` | apps/worker/src/judge-managed-structured-ai.ts:399-488 | every step keeps the order of starts, provider calls and settlements |
| `ManagedTheorems.EveryRunIsSound` | apps/worker/src/judge-managed-structured-ai.ts:268-551 | the invariant holds in every state of every interleaving, with actors stopped anywhere and other users of the ledger |
| `ManagedTheorems.AccountingIsSafe` | apps/worker/src/judge-managed-structured-ai.ts:468-527 | a reservation under which a provider was started is never released; a settled claim's reservation is finalized within its estimate; a reserved claim was never charged; the budget holds |
| `ManagedTheorems.ProviderIsCalledAtMostOnce` | apps/worker/src/judge-managed-structured-ai.ts:314-488 | at most one provider call for each reservation, always after its durable start; two starts under one key are separated by a settlement more than the retention earlier |
| `ManagedTheorems.BatchesAreAllOrNothing` | packages/adapters-cloudflare/src/d1-managed-ai-operation-claims.ts:482-541 | the unexpected-row-count error is unreachable in every interleaving |
| `ManagedTheorems.BindingNeverChanges` | packages/adapters-cloudflare/src/d1-managed-ai-operation-claims.ts:443-481 | while a lifecycle row exists, its fingerprint, operation, model and pricing version never change |
| `ManagedTheorems.EveryStateIsRecoverable` | apps/worker/src/judge-managed-structured-ai.ts:114-233 | every reachable state, whatever was interrupted, is one a pass can finish |
| `ManagedTheorems.CrashesConverge` | apps/worker/src/judge-managed-structured-ai.ts:114-233 | crash convergence: stop everything anywhere, let the leases expire, and one pass fails on no row, charges every started provider in full or keeps its charge, gives back everything else, and leaves only rows that are settled or within their lease |
| `ManagedCharges.ChargesAreBilledOrWhole` | apps/worker/src/judge-managed-structured-ai.ts:468-551 | over every run, whoever finalizes it, a claim's reservation is charged exactly what its provider billed, or the whole of it |
| `ManagedStaleClock.CreationEpochMayPrecedeSettlement` | apps/worker/src/judge-managed-structured-ai.ts:268-312 | a concrete run in which the second provider call for a key happens under a claim whose creation epoch is not later than the first settlement |
| `ManagedStaleClock.ClaimsAreCreatedInOrder` | packages/adapters-cloudflare/src/d1-managed-ai-operation-claims.ts:443-541 | in every run a claim is created by reuse exactly when its key has a row, which is then settled more than the retention before the claim's creation epoch |
| `ManagedStaleClock.BirthsFollowSettlements` | apps/worker/src/judge-managed-structured-ai.ts:268-488 | in every run, between two provider starts of one key lies a settlement of the first, and the claim of the second was written more than the retention after it |
| `ManagedStaleClock.CreationEpochsInOrderIff` | apps/worker/src/judge-managed-structured-ai.ts:268-312 | in every run the creation epoch of the second claim is more than the retention after a settlement of the first if and only if the second claim was not inserted over a deleted row on a reading no later than that |
| `ManagedStaleClock.FreshReadingKeepsOrder` | apps/worker/src/judge-managed-structured-ai.ts:268-312 | a claim written at most D seconds after its clock reading misses that order by at most D; a current reading never misses it |
| `ManagedStaleClock.OrderCanFail` | apps/worker/src/judge-managed-structured-ai.ts:268-312 | a reachable state in which the order fails, by such an insertion |
| `ManagedOperation.RunOperation` | apps/worker/src/judge-managed-structured-ai.ts:268-289 | the whole operation as straight-line code. Uninterrupted it is a sequence of steps of one runner. From every reachable table it returns the provider's result if and only if it gets or takes over a claim, its usage is admitted, the durable start is in time, the provider answers and its bill fits; it reports a conflict if and only if the key holds another request, and the usage limit if and only if usage is denied, with the claim abandoned. After every provider call, also a failed one, the claim is settled and charged what was billed or everything, unless the bill exceeds the reservation; an expired started claim is recovered and charged in full |
| `ManagedOperation.ReserveDecides` | packages/adapters-cloudflare/src/d1-managed-ai-operation-claims.ts:430-604 | reserveClaim over every reachable table: a new claim exactly where the key has no row or a settled one of this request out of retention, a conflict exactly where it holds another request, the row itself otherwise |
| `ManagedOperation.RecoverReplayed` | apps/worker/src/judge-managed-structured-ai.ts:314-337 | recovery of a replayed claim, status by status |
| `ManagedOperation.RecoverReserved` | apps/worker/src/judge-managed-structured-ai.ts:339-397 | recovery of an expired reserved claim: abandoned and reserved again exactly without a reservation, taken over exactly over its own active one, given up otherwise |
| `ManagedOperation.RecoverStarted` | apps/worker/src/judge-managed-structured-ai.ts:490-515 | recovery of a started provider: the claim is settled, and the whole reservation charged unless it was charged before |
| `ManagedOperation.ExecuteReserved` | apps/worker/src/judge-managed-structured-ai.ts:399-438 | reserving usage for a new claim: denied and abandoned, refused, or executed, by the cost of 24 hours, the other limits and held fingerprints |
| `ManagedOperation.StartAndCall` | apps/worker/src/judge-managed-structured-ai.ts:440-488 | durable start, provider call and settlement: a claim that is ready and in time ends charged what was billed, or the whole for a failed or unbilled call, and answers the result exactly if the provider answered and the bill fits; otherwise nothing changes |
| `ManagedOperation.FinalizeAndSettle` | apps/worker/src/judge-managed-structured-ai.ts:517-551 | finalizing the reservation and settling the claim |
| `ManagedOperation.ReserveIsSteps` | packages/adapters-cloudflare/src/d1-managed-ai-operation-claims.ts:430-604 | reserveClaim, uninterrupted, is a look and at most two more steps, with the same result and tables |
| `ManagedOperation.RowIsSteps` | apps/worker/src/judge-managed-structured-ai.ts:145-232 | the pass over one row, uninterrupted, is what the atomic steps of its row do |
| `ManagedOperation.MovesAreSteps` | apps/worker/src/judge-managed-structured-ai.ts:268-289 | the steps of one actor are moves of the whole system, so every theorem about runs covers the straight-line code |
| `RealtimeUsage.RecordKeeps` | packages/adapters-openai/src/realtime-usage.ts:424-536 | the recorder counts each response and transcription once, keeps trusted totals equal to their sum and within the limits, detects exactly the repetitions, and never restores trust |
| `RealtimeUsage.RecordedIff` | packages/adapters-openai/src/realtime-usage.ts:424-536 | exactly the events that are recorded: a first report of its response or item with a new event id, priced, within USD 25, 3 responses, 800000 input and 400000 output tokens and 30 seconds |
| `RealtimeUsage.PriceList` | packages/adapters-openai/src/realtime-usage.ts:321-397 | the price of a million tokens of each kind and of a minute of speech |
| `RealtimeUsage.ChargeIsTheSum` | apps/worker/src/judge-realtime-call-controller.ts:661-675 | a trusted call is charged the sum of what was recorded, any other one everything |
| `RealtimeUsage.ChargeSucceedsIff` | apps/worker/src/judge-realtime-call-controller.ts:661-675 | at any epoch, a held reservation can be finalized for a call if and only if its usage is untrusted, or its seconds are whole and its cost is at most the reserved USD 12, and the epoch is not before the reservation, and the other rows of that epoch's 24 hours leave room for the cost |
| `RealtimeUsage.FreshChargeSucceedsIff` | apps/worker/src/judge-realtime-call-controller.ts:661-675 | at a current epoch the usage alone decides |
| `RealtimeUsage.TrustedUsageCanBeUnchargeable` | apps/worker/src/judge-realtime-call-controller.ts:49-55 | half a second of transcription, or 400000 audio tokens, is recorded as trusted and cannot be charged |
| `RealtimeCall.JudgeRealtimeCallStorage.SwapConnecting` | apps/worker/src/judge-realtime-call-controller.ts:969-984 | compare-and-swap from connecting, with the state stated either way |
| `RealtimeCall.JudgeRealtimeCallStorage.SwapHangup` | apps/worker/src/judge-realtime-call-controller.ts:910-929 | only the active call with this id becomes hangup_confirmed, keeping its usage |
| `RealtimeCall.JudgeRealtimeCallStorage.SwapTrust` | apps/worker/src/judge-realtime-call-controller.ts:932-950 | marks the active call untrustworthy, whatever else its usage is |
| `RealtimeCall.JudgeRealtimeCallStorage.SwapUsage` | apps/worker/src/judge-realtime-call-controller.ts:952-968 | replaces usage only if it is still the usage that was read |
| `RealtimeCallTheorems.NextKeeps` | apps/worker/src/judge-realtime-call-controller.ts:323-498 | every action of every process keeps the invariant of the call |
| `RealtimeCallTheorems.EveryRunIsSound` | apps/worker/src/judge-realtime-call-controller.ts:323-681 | so every reachable state satisfies it, unless a start overwrote a state it had not seen |
| `RealtimeProgress.UndisturbedStart` | apps/worker/src/judge-realtime-call-controller.ts:338-450 | a start from an empty store with every reply and connection working returns with its call active, trusted and without usage, and nothing else changed: no hang-up, no termination, no money |
| `RealtimeProgress.StartIsOverIff` | apps/worker/src/judge-realtime-call-controller.ts:338-498 | from each await, exactly when a start has returned without a termination, and when it ends in one |
| `RealtimeProgress.FailureIsCaught` | apps/worker/src/judge-realtime-call-controller.ts:360-498 | every await that throws leads to the catch block, which remembers the accepted call |
| `RealtimeProgress.CaughtStart` | apps/worker/src/judge-realtime-call-controller.ts:451-498 | a failed start leaves a stored state and always terminates |
| `RealtimeProgress.CancelledStart` | apps/worker/src/judge-realtime-call-controller.ts:348-354 | a start cancelled before its first write gives its reservation back |
| `RealtimeProgress.LateCallIsHungUp` | apps/worker/src/judge-realtime-call-controller.ts:389-415 | a call accepted after its claim was cancelled is hung up |
| `RealtimeProgress.EventIsRecorded` | apps/worker/src/judge-realtime-call-controller.ts:683-835 | an event heard undisturbed replaces the stored usage; one that cannot be trusted or exceeds a limit begins a termination and cancels a start |
| `RealtimeProgress.LostSidebandTerminates` | apps/worker/src/judge-realtime-call-controller.ts:857-880 | an active call that loses its sideband loses its trust and is terminated |
| `RealtimeProgress.DisconnectTerminates` | apps/worker/src/judge-realtime-call-controller.ts:857-880 | so is whatever other call there is |
| `RealtimeCallTheorems.HangUpPrecedesSettlement` | apps/worker/src/judge-realtime-call-controller.ts:620-681 | a call id made active leaves the active state only after the provider has answered its hang-up |
| `RealtimeCallTheorems.StoredMovesForward` | apps/worker/src/judge-realtime-call-controller.ts:899-984 | every step of a sound state without an unseen overwrite moves the stored call only forward: its reservation and call id stay, an active call is left only through a confirmed hang-up, a settled one never |
| `RealtimeCallTheorems.OneKindOfSettlement` | apps/worker/src/judge-realtime-call-controller.ts:661-680 | settled is written only after the reservation was released, if no call ever became active, or finalized with exactly the usage at the confirmed hang-up |
| `RealtimeCallTheorems.TrustIsNotRestored` | apps/worker/src/judge-realtime-call-controller.ts:857-871 | an active call that ever lost its trust stays untrusted and is charged the whole reservation, whatever is recorded concurrently |
| `RealtimeCallTheorems.NoCallIsForgotten` | apps/worker/src/judge-realtime-call-controller.ts:376-434 | when all is settled every accepted provider call has been hung up, unless its id was lost before it could be stored |
| `RealtimeCall.JudgeRealtimeCallLifecycle.SettleUsage` | apps/worker/src/judge-realtime-call-controller.ts:661-675 | a call that was never accepted is released, an accepted one charged |
| `RealtimeCall.JudgeRealtimeCallLifecycle.Terminate` | apps/worker/src/judge-realtime-call-controller.ts:620-681 | #terminate with its compare-and-swap loop, without interference: the final state and ledger for every starting state |
| `RealtimeCallTheorems.TerminationEnds` | apps/worker/src/judge-realtime-call-controller.ts:620-681 | the atomic steps of an undisturbed termination end in the state and ledger of the straight-line code |
| `RealtimeCallTheorems.TerminatedSettlesIff` | apps/worker/src/judge-realtime-call-controller.ts:620-681 | a termination the provider answers, over a sound ledger with the reservation held, settles if and only if nothing is owed or what is owed can be charged |
| `RealtimeCallTheorems.TerminationSettlesIff` | apps/worker/src/judge-realtime-call-controller.ts:620-681 | so it is from every sound state of a call whose reservation is held |
| `RealtimeCallTheorems.TrustedCallCanBeUnchargeable` | apps/worker/src/judge-realtime-call-controller.ts:683-700 | a run from the new call in which one well-formed event makes a trusted active call one that cannot settle |
| `RealtimeCallTheorems.ReleasedCallNeverSettles` | apps/worker/src/judge-realtime-call-controller.ts:661-680 | if another user of the limiter releases the reservation of an active call, no continuation ever settles it |
| `RealtimeCallTheorems.BlindWriteRevivesSettledCall` | apps/worker/src/judge-realtime-call-controller.ts:396-411 | a concrete run in which the late hang-up fails and a settled call becomes active again over a released reservation |
| `RealtimeTurns.JudgeRealtimeTurns.SidebandOpens` | apps/worker/src/judge-realtime-call-controller.ts:416-428 | the sideband is connected |
| `RealtimeTurns.JudgeRealtimeTurns.Terminate` | apps/worker/src/judge-realtime-call-controller.ts:601-621 | the synchronous part of a termination drops the turn and invalidates begun operations |
| `RealtimeTurns.JudgeRealtimeTurns.TerminationEnds` | apps/worker/src/judge-realtime-call-controller.ts:611-617 | the end of a termination |
| `RealtimeTurns.JudgeRealtimeTurns.Begin` | apps/worker/src/judge-realtime-call-controller.ts:548-579 | beginTurn after its await: unavailable, replayed, conflict or a new turn |
| `RealtimeTurns.JudgeRealtimeTurns.Read` | apps/worker/src/judge-realtime-call-controller.ts:581-599 | transcript: unavailable, pending or the completed text |
| `RealtimeTurns.JudgeRealtimeTurns.AskForResponse` | apps/worker/src/judge-realtime-call-controller.ts:837-855 | a response is requested only when idle, within the budget and connected |
| `RealtimeTurns.JudgeRealtimeTurns.HearEvent` | apps/worker/src/judge-realtime-call-controller.ts:683-789 | every provider event up to the usage swap |
| `RealtimeTurns.JudgeRealtimeTurns.ResumeAfterSwap` | apps/worker/src/judge-realtime-call-controller.ts:790-835 | every provider event after the usage swap |
| `RealtimeTurnsTheorems.ResponseDiscipline` | apps/worker/src/judge-realtime-call-controller.ts:699-855 | over every sequence of events: at most three creates, a finished response between any two, cancels only while a response is outstanding and once for each, a pending re-create only while cancelling, creates never above accepted stops |
| `RealtimeTurnsTheorems.FinishedBetweenCreates` | apps/worker/src/judge-realtime-call-controller.ts:822-855 | a finished response lies between two createResponse commands |
| `RealtimeTurnsTheorems.CreatedBetweenCancels` | apps/worker/src/judge-realtime-call-controller.ts:717-731 | a new createResponse lies between two cancelResponse commands |
| `RealtimeTurnsProgress.StopsAreAnswered` | apps/worker/src/judge-realtime-call-controller.ts:736-855 | in every run, until a termination begins, every accepted stop has been answered with createResponse, or a re-create is pending while a response is being cancelled |
| `RealtimeTurnsProgress.StopLeadsTo` | apps/worker/src/judge-realtime-call-controller.ts:726-753 | an accepted stop creates a response at once if idle, waits if one is being cancelled, and ends the call otherwise; exactly which, and with which commands |
| `RealtimeTurnsProgress.SpeechLeadsTo` | apps/worker/src/judge-realtime-call-controller.ts:699-725 | accepted speech binds its item and cancels the response it interrupts |
| `RealtimeTurnsProgress.FinishedLeadsTo` | apps/worker/src/judge-realtime-call-controller.ts:822-835 | a finished response answers the pending stop, and only then |
| `RealtimeTurnsProgress.TranscriptLeadsTo` | apps/worker/src/judge-realtime-call-controller.ts:804-821 | a transcription completes the stopped turn of its item and ends the call otherwise |
| `RealtimeTurnsProgress.DuplicateLeadsTo` | apps/worker/src/judge-realtime-call-controller.ts:776-789 | a repeated transcription changes nothing if it is the turn's own |
| `RealtimeTurnsProgress.FailureLeadsTo` | apps/worker/src/judge-realtime-call-controller.ts:683-698 | reported failures and untrusted usage end the call |
| `RealtimeTurnsProgress.TerminationInvalidates` | apps/worker/src/judge-realtime-call-controller.ts:601-621 | a termination drops the turn, and whatever began before it is refused afterwards |
| `RealtimeTurnsProgress.BeginLeadsTo` | apps/worker/src/judge-realtime-call-controller.ts:548-579 | exactly when a turn begins, is found again, conflicts or is refused |
| `RealtimeTurnsProgress.ReadLeadsTo` | apps/worker/src/judge-realtime-call-controller.ts:581-599 | exactly when a text is read, pending or unavailable |
| `RealtimeTurnsProgress.UndisturbedTurn` | apps/worker/src/judge-realtime-call-controller.ts:683-821 | a turn that nothing disturbs asks for a response and ends in its text |
| `RealtimeTurnsProgress.UndisturbedResponse` | apps/worker/src/judge-realtime-call-controller.ts:790-835 | a response that nothing disturbs is announced and finished |
| `RealtimeTurnsTheorems.TurnIntegrity` | apps/worker/src/judge-realtime-call-controller.ts:548-599 | completed implies stopped implies a bound item; a completed text was heard for that item; readings of one turn agree |
| `RealtimeTurnsTheorems.TurnsDoNotOverlap` | apps/worker/src/judge-realtime-call-controller.ts:548-579 | an open turn is never replaced by another, only ended by a termination |
| `Json.PrintInjective` | apps/worker/src/judge-structured-ai.ts:233-239 | JSON.stringify on UTF-16 text loses nothing: equal texts come from equal values |
| `Json.PrintDetermined` | apps/worker/src/judge-structured-ai.ts:233-239 | even with any continuation that does not extend a number |
| `CanonicalJson.SameTextIffEquivalent` | apps/worker/src/judge-structured-ai.ts:233-239 | two inputs have the same canonical text if and only if they are equal up to key order and up to the order of arrays whose order is free, at every depth: strings under the four listed properties, and entities that all have a string under one listed id property |
| `CanonicalJson.FreeOrderHasOneText` | apps/worker/src/judge-structured-ai.ts:451-467 | all orders of such an array have one text |
| `CanonicalJson.OtherOrdersDiffer` | apps/worker/src/judge-structured-ai.ts:468-468 | two orders of any other array that differ at a position have different texts |
| `CanonicalJson.SortedIffOrderIsFree` | apps/worker/src/judge-structured-ai.ts:451-468 | the arrays that are sorted are exactly those whose order is free |
| `CanonicalJson.KeysAscend` | apps/worker/src/judge-structured-ai.ts:480-485 | the keys of a canonical object ascend by UTF-16 code units |
| `CanonicalJson.StringsAscend` | apps/worker/src/judge-structured-ai.ts:451-459 | so do the strings of an unordered list |
| `CanonicalJson.EntitiesAscend` | apps/worker/src/judge-structured-ai.ts:460-467 | and entities by the first listed property that identifies them all, then by their texts |
| `CanonicalJson.PrintsStrings` | apps/worker/src/judge-structured-ai.ts:233-239 | the text is JSON text: escapes of both lengths |
| `CanonicalJson.PrintsArrays` | apps/worker/src/judge-structured-ai.ts:233-239 | arrays, literals and numbers |
| `CanonicalJson.PrintsObjects` | apps/worker/src/judge-structured-ai.ts:233-239 | objects |
| `CanonicalJson.EquivalentCanon` | apps/worker/src/judge-structured-ai.ts:429-497 | the reorderings that do not matter disappear |
| `CanonicalJson.CanonEquivalent` | apps/worker/src/judge-structured-ai.ts:429-497 | nothing else disappears |
| `CanonicalJson.CanonTwice` | apps/worker/src/judge-structured-ai.ts:429-497 | canonicalValue is idempotent |
| `CanonicalJson.SortIgnoresOrder` | apps/worker/src/judge-structured-ai.ts:451-467 | the sorted sequence depends on the members only, so any sorting method gives it |
| `CanonicalJson.ModeOfCanon` | apps/worker/src/judge-structured-ai.ts:499-511 | how an array is ordered is the same before and after canonicalizing its elements |
| `Pricing.PriceBound` | apps/worker/src/judge-structured-ai.ts:269-291 | any well-formed bill over any mix of models costs at most 10 micro-USD per input and 45 per output token |
| `Pricing.PriceList` | apps/worker/src/judge-structured-ai.ts:41-62 | the price of an attempt of each of the four models, below and above the long-context threshold |
| `Pricing.AcceptedIff` | apps/worker/src/judge-structured-ai.ts:333-402 | exactly the bills that are accepted: one or two attempts of listed models that add up to the totals, within 540000 input tokens and the output limit of the operation |
| `Pricing.BoundIsTight` | apps/worker/src/judge-structured-ai.ts:41-62 | and long-context attempts of the dearest model cost exactly that |
| `Pricing.CostChecksAreUnreachable` | apps/worker/src/judge-structured-ai.ts:304-324 | both checks on the cost itself are dead code, and actual usage is computed exactly when the token and attempt checks pass and all models are supported |
| `Pricing.ActualIsWithinReservation` | apps/worker/src/judge-structured-ai.ts:304-324 | the computed actual usage is within the reservation in every dimension and is exactly the sum of the attempts and of their prices |
| `Pricing.RoundingBound` | apps/worker/src/judge-structured-ai.ts:276-287 | rounding up never undercharges and overcharges by less than one micro-USD an attempt |
| `Pricing.PriceIsMonotone` | apps/worker/src/judge-structured-ai.ts:276-287 | more tokens are never cheaper, across the long-context threshold too |
| `ManagedRealtimeCalls.D1ManagedRealtimeCallOwnershipRepository.TryClaim` | packages/adapters-cloudflare/src/d1-managed-realtime-calls.ts:189-259 | claimStart: claimed, replayed, conflict or rejected, with the claims stated |
| `ManagedRealtimeCalls.D1ManagedRealtimeCallOwnershipRepository.Release` | packages/adapters-cloudflare/src/d1-managed-realtime-calls.ts:261-302 | releaseStart removes exactly its own claim, and not while the call is active |
| `ManagedRealtimeCalls.D1ManagedRealtimeCallOwnershipRepository.Insert` | packages/adapters-cloudflare/src/d1-managed-realtime-calls.ts:304-349 | create: an ownership row only over a held reservation of the same holder that covers it |
| `ManagedRealtimeCalls.D1ManagedRealtimeCallOwnershipRepository.FindActive` | packages/adapters-cloudflare/src/d1-managed-realtime-calls.ts:351-392 | the active row of this owner that has not expired |
| `ManagedRealtimeCalls.D1ManagedRealtimeCallOwnershipRepository.Terminate` | packages/adapters-cloudflare/src/d1-managed-realtime-calls.ts:394-455 | terminateOwned: idempotent, refused before the creation epoch |
| `ManagedRealtimeCalls.ClaimDecides` | packages/adapters-cloudflare/src/d1-managed-realtime-calls.ts:189-259 | exactly when a start is claimed, repeated, in conflict or rejected |
| `ManagedRealtimeCalls.CreatedIsFound` | packages/adapters-cloudflare/src/d1-managed-realtime-calls.ts:304-392 | exactly when a row is created; its owner, and nobody else, then finds it until it expires |
| `ManagedRealtimeCalls.TerminationDecides` | packages/adapters-cloudflare/src/d1-managed-realtime-calls.ts:394-455 | exactly when a termination is accepted; the row is then inactive and the repetition accepted |
| `ManagedRealtimeCalls.StartClaimsAreExclusive` | packages/adapters-cloudflare/src/d1-managed-realtime-calls.ts:66-89 | over every sequence of calls, two claims of one key without a release in between: the second is created after the first expired |
| `ManagedRealtimeCalls.ClaimsAreRemovedByTheirOwnRelease` | packages/adapters-cloudflare/src/d1-managed-realtime-calls.ts:261-302 | a claim disappears only by a release for its own managed call, which is then not active |
| `ManagedRealtimeCalls.TerminationIsFinal` | packages/adapters-cloudflare/src/d1-managed-realtime-calls.ts:394-455 | ownership rows are never deleted, rewritten or made active again |
| `StartSaga.JudgeManagedRealtimeStart.Start` | apps/worker/src/judge-managed-realtime-http.ts:249-453 | the handler, for every pattern of failing and lost calls and every interference of other requests |
| `StartSaga.JudgeManagedRealtimeStart.CleanUp` | apps/worker/src/judge-managed-realtime-http.ts:228-247 | cleanupStart |
| `StartSaga.OthersLeaveMine` | apps/worker/src/judge-managed-realtime-http.ts:249-453 | whatever calls of other requests run in between, this request's row and reservation stay as they are and its claim is at most overtaken |
| `StartSaga.CreatedIff` | apps/worker/src/judge-managed-realtime-http.ts:303-424 | a run answers 201 if and only if every step works, which demands that handler and limiter read the same clock second; it then holds a live call, its row and its reservation, and its claim unless that expired and was overtaken |
| `StartSaga.RefusalsIff` | apps/worker/src/judge-managed-realtime-http.ts:311-345 | exactly when a run answers that the start was claimed before, the key reused, the limit reached, or the start refused |
| `StartSaga.ReserveCommitsIff` | packages/adapters-cloudflare/src/d1-usage-limiter.ts:647-785 | what the limiter admits: other limits, USD 12 more within USD 25, no newer counted row, no held row of this fingerprint |
| `StartSaga.SagaAttemptsEveryUndo` | apps/worker/src/judge-managed-realtime-http.ts:391-453 | whatever fails, every other exit tries to undo all it may have acquired, in reverse order of acquisition: the controller exactly if a start request was sent and not refused by the limit, then the row, the reservation and last the claim |
| `StartSaga.RowSurvivesIff` | apps/worker/src/judge-managed-realtime-http.ts:228-247 | a failed run leaves its row active if and only if the row was created and its termination was lost or, outside the exit of a refused start, carried an epoch before the creation, such as 0 for an unreadable clock |
| `StartSaga.ClaimSurvivesIff` | apps/worker/src/judge-managed-realtime-http.ts:425-453 | why that order matters: a failed run leaves its claim only if the claim or its release was lost or the row is still active, and in those cases it does unless another request overtook the expired claim |
| `StartSaga.SagaCompensates` | apps/worker/src/judge-managed-realtime-http.ts:249-453 | when undo calls take effect, a run without a 201 leaves no live call and no active row; its claim and its reservation stay exactly when they were acquired with a lost answer |
| `StartSaga.ReservationLostIff` | apps/worker/src/judge-managed-realtime-http.ts:228-247 | a failed run releases the reservation from under a call that stays live if and only if the start left a call, the termination did not reach controller or provider, and the release reached the limiter; no termination settles that call afterwards |
| `StartSaga.CleanupSettlesIff` | apps/worker/src/judge-managed-realtime-http.ts:228-247 | a cleanup that reaches controller and provider settles the call it stops, charging exactly its usage, if and only if that usage can be charged; otherwise the call stays hung up and unpaid and loses its reservation |
| `StartSaga.RunsFromNothing` | apps/worker/src/judge-managed-realtime-http.ts:425-453 | two runs from empty tables: one that loses the reservation of a live call, one that leaves its row and claim |
| `ReconnectController.DefaultOpenAiRealtimeController.ConnectNow` | apps/web/src/realtime-openai.ts:1010-1026 | connect: refused while connected or trying, otherwise a new generation, key and attempt |
| `ReconnectController.DefaultOpenAiRealtimeController.DisconnectNow` | apps/web/src/realtime-openai.ts:1028-1037 | disconnect cancels timers, closes the connection and starts a new generation |
| `ReconnectController.DefaultOpenAiRealtimeController.AttemptArrives` | apps/web/src/realtime-openai.ts:1147-1175 | a settled attempt: closed if stale, live, degraded or rescheduled |
| `ReconnectController.DefaultOpenAiRealtimeController.PeerStateChanged` | apps/web/src/realtime-openai.ts:1177-1200 | a lost peer renews the key and reschedules |
| `ReconnectController.DefaultOpenAiRealtimeController.Reschedule` | apps/web/src/realtime-openai.ts:1202-1220 | the next delay, or degraded when there is none |
| `ReconnectController.DefaultOpenAiRealtimeController.RetryTimerFires` | apps/web/src/realtime-openai.ts:1213-1219 | the retry timer launches another attempt of the current generation; the situation stays unique and the key within its bound |
| `ReconnectController.DefaultOpenAiRealtimeController.IdleTimerFires` | apps/web/src/realtime-openai.ts:1228-1241 | the idle timer disconnects only after the deadline |
| `ReconnectController.DefaultOpenAiRealtimeController.RecordActivity` | apps/web/src/realtime-openai.ts:1039-1044 | activity moves the idle deadline of a connected controller |
| `ReconnectController.DefaultOpenAiRealtimeController.Dispose` | apps/web/src/realtime-openai.ts:1101-1108 | a disposed controller holds no connection and no timer, and stays off |
| `ReconnectController.SuccessConnects` | apps/web/src/realtime-openai.ts:1147-1165 | a successful attempt is live if it is current, and closed if it is stale |
| `ReconnectController.FailureDegrades` | apps/web/src/realtime-openai.ts:1166-1175 | a failure for good degrades; one that may be retried waits under the same key while a delay is left |
| `ReconnectController.LostPeerIsReplaced` | apps/web/src/realtime-openai.ts:1177-1220 | a lost connection is closed and replaced under a new key |
| `ReconnectController.IdleUntilDeadline` | apps/web/src/realtime-openai.ts:1222-1241 | the idle timer disconnects exactly at the deadline that activity sets |
| `ReconnectController.ClosedStaysClosed` | apps/web/src/realtime-openai.ts:1101-1108 | a closed controller has let go of everything and takes no request any more |
| `ReconnectController.ExactlyOneSituation` | apps/web/src/realtime-openai.ts:1010-1241 | in every run exactly one of: attempt in flight, retry timer armed, connection live, at rest; no connection but the live one is unclosed; no key serves more than 1 + retries attempts |
| `ReconnectController.DegradedAfterAllRetries` | apps/web/src/realtime-openai.ts:1202-1220 | if every attempt fails retryably, degraded is reached after exactly 1 + retries attempts with one key |
| `MeetingCoordinator.MeetingCoordinator.Issue` | apps/worker/src/meeting-coordinator.ts:467-486 | issuing a ticket: replay, conflict, revoked session, other meeting or a new ticket |
| `MeetingCoordinator.MeetingCoordinator.Consume` | apps/worker/src/meeting-coordinator.ts:316-341 | a ticket is removed and answered unless expired or revoked |
| `MeetingCoordinator.MeetingCoordinator.FindPublication` | apps/worker/src/meeting-coordinator.ts:493-495 | the search for a publication id |
| `MeetingCoordinator.MeetingCoordinator.Append` | apps/worker/src/meeting-coordinator.ts:488-524 | publishing: replay, conflict or an append at a later source position |
| `MeetingCoordinator.MeetingCoordinator.Configure` | apps/worker/src/meeting-coordinator.ts:375-390 | configuring a key: refused while another owner holds an unexpired lease |
| `MeetingCoordinator.MeetingCoordinator.FindLease` | apps/worker/src/meeting-coordinator.ts:392-405 | finding the key: an expired lease is dropped first |
| `MeetingCoordinator.MeetingCoordinator.Heartbeat` | apps/worker/src/meeting-coordinator.ts:407-440 | only the holder of an unexpired lease renews it |
| `MeetingCoordinator.MeetingCoordinator.ClearOwner` | apps/worker/src/meeting-coordinator.ts:359-373 | only the holder clears it |
| `MeetingCoordinator.MeetingCoordinator.DiscardTickets` | apps/worker/src/meeting-coordinator.ts:584-590 | the loop deletes and counts exactly the tickets of the session |
| `MeetingCoordinator.MeetingCoordinator.Revoke` | apps/worker/src/meeting-coordinator.ts:572-595 | revocation removes the session's tickets and lease |
| `MeetingTheorems.TicketSafety` | apps/worker/src/meeting-coordinator.ts:316-341 | no stored ticket of a revoked session; each consumption follows its own issue with exactly those claims, unexpired and unrevoked; one consumption for each issue |
| `MeetingTheorems.ConsumeAnswers` | apps/worker/src/meeting-coordinator.ts:316-341 | exactly which consumption is answered with the claims; the ticket is gone either way |
| `MeetingTheorems.IssuedCanBeConsumed` | apps/worker/src/meeting-coordinator.ts:467-486 | exactly when a ticket is issued; it can then be consumed once until it expires |
| `MeetingTheorems.RevokeTakesItsOwn` | apps/worker/src/meeting-coordinator.ts:572-595 | revocation takes exactly the session's tickets and lease |
| `MeetingTheorems.PublicationsAreStable` | apps/worker/src/meeting-coordinator.ts:488-524 | the log is strictly ordered with unique ids and only grows at its end |
| `MeetingTheorems.PublishKeeps` | apps/worker/src/meeting-coordinator.ts:488-524 | an answered coordination position names that publication |
| `MeetingTheorems.PublishDecides` | apps/worker/src/meeting-coordinator.ts:488-524 | exactly when a publication is appended or found again |
| `MeetingTheorems.ResumeIsExactlyOnce` | apps/worker/src/meeting-coordinator.ts:526-570 | a client resuming from its last visible position has received each publication visible to it once and in order, whatever happened in between, and needs no snapshot |
| `MeetingTheorems.ResumeSeesOnlyVisible` | apps/worker/src/meeting-coordinator.ts:526-570 | a reply is the same if only the visible publications existed |
| `MeetingTheorems.VisibleIff` | apps/worker/src/meeting-coordinator.ts:526-570 | an audience sees what is shared and what is its own |
| `MeetingTheorems.ResumeDecides` | apps/worker/src/meeting-coordinator.ts:526-570 | which publications a reply delivers, with which positions, and when it asks for a snapshot |
| `MeetingTheorems.LeaseIsHeld` | apps/worker/src/meeting-coordinator.ts:343-465 | a lease ends or changes owner only by its owner, by revocation of its session, or after heartbeat plus TTL |
| `MeetingTheorems.FoundUntilExpiry` | apps/worker/src/meeting-coordinator.ts:343-405 | the lease is found exactly while its heartbeat is younger than five minutes |
| `MeetingTheorems.ConfiguredIsFound` | apps/worker/src/meeting-coordinator.ts:375-390 | exactly when a key is accepted; it is then found for five minutes from its heartbeat |
| `MeetingTheorems.HeartbeatRenews` | apps/worker/src/meeting-coordinator.ts:407-440 | exactly whose heartbeat renews the lease, and until when |
| `MeetingTheorems.ClearedIsGone` | apps/worker/src/meeting-coordinator.ts:359-373 | exactly who can give the lease up |
| `MeetingTheorems.LeaseOutlivesNoRevocation` | apps/worker/src/meeting-coordinator.ts:572-583 | a lease of a revoked session was configured after the last revocation |
| `MeetingTheorems.RevokedNeverHoldsIff` | apps/worker/src/meeting-coordinator.ts:375-390 | over every run, no revoked session ever holds the lease if and only if no step is an accepted configuration by a revoked session |
| `MeetingTheorems.RevokedLeaseIff` | apps/worker/src/meeting-coordinator.ts:375-390 | and that is the one kind of step that breaks the rule |
| `MeetingTheorems.RevokedSessionCanConfigure` | apps/worker/src/meeting-coordinator.ts:375-390 | such a configuration is accepted |
| `Projections.PrivateDisclosureCandidates` | apps/worker/src/worker-flagship-http.ts:589-660 | the loop over the events computes exactly the fold of the candidate map |
| `Projections.ActiveIsTail` | apps/worker/src/worker-flagship-http.ts:661-675 | the active projection is the tail after the last reset, numbered from 1 |
| `Projections.ActiveTwice` | apps/worker/src/worker-flagship-http.ts:661-675 | and is idempotent |
| `Projections.ActiveAppend` | apps/worker/src/worker-flagship-http.ts:661-675 | and commutes with appending an event |
| `Projections.PositionOfVisible` | apps/worker/src/worker-flagship-http.ts:465-476 | visiblePosition does not depend on events invisible to the participant |
| `Projections.PositionCounts` | apps/worker/src/worker-flagship-http.ts:465-476 | visiblePosition is the number of shared and own events up to the position |
| `Projections.CandidatesOfVisible` | apps/worker/src/worker-flagship-http.ts:589-660 | nor do the disclosure candidates |
| `Projections.CandidatesAreIndependent` | apps/worker/src/worker-flagship-http.ts:589-660 | each candidate is the outcome of its own events alone |
| `Projections.LastEventDecides` | apps/worker/src/worker-flagship-http.ts:589-660 | what a candidate shows is decided by the last own event about it |
| `Projections.ListedOnceProposed` | apps/worker/src/worker-flagship-http.ts:589-660 | a candidate is listed exactly once it was proposed |
| `Projections.FirstProposalOrder` | apps/worker/src/worker-flagship-http.ts:589-660 | candidates are listed in the order of their first proposal |

## Left out

- ManagedRuns.ActKeeps: the row read back after a successful reservation batch is not compared with the request, as in the source; the theorems hold for whichever claim it is.
- RealtimeUsage.RecordKeeps: does not model the rounding of floating-point sums; durations and the transcription price before rounding up are exact real numbers.
- RealtimeUsage.ChargeSucceedsIff: takes the conversion of micro-USD to USD and back as exact.
- RealtimeCallTheorems.EveryRunIsSound: the alarm may fire at any time and any number of terminations may run at once, which includes the source's single termination and its alarm times; neither times nor HTTP answers are modelled.
- RealtimeCallTheorems.OneKindOfSettlement: runs in which a start overwrote a state it had not seen (a failed late hang-up, or a failed read in the catch block after the call was stored) are excluded.
- RealtimeTurnsTheorems.TurnIntegrity: the usage state a provider event is recorded against is arbitrary.
- CanonicalJson.SameTextIffEquivalent: values are JSON values with distinct keys and numbers given by their text; prototypes, symbols, accessors, negative zero, integer-like key enumeration and the TypeErrors for values that are not JSON are not modelled.
- StartSaga.SagaCompensates: the controller changes only by the start request and the termination of this run, not by an alarm in between; request parsing, authorization and the response bodies are not modelled.
- ReconnectController.ExactlyOneSituation: microphone, listeners, sendText and media are not modelled.
- MeetingTheorems.TicketSafety: requests arrive parsed; the checks on ticket lifetime and roles are not modelled.
- The legacy `claim` and `release` methods of the claims repository; rows they left behind are modelled as blocked.
- Malformed identifiers and epochs, which the source refuses with TypeErrors before any statement.
- Foreign keys to meetings, users, sessions and participants.
- Usage reservations whose runner died before creating or releasing its claim: the reconciler works from claims, so convergence speaks of claims.
- HTTP routing, schemas, error codes, views, React screens, WebRTC, SHA-256, tokens and passwords.
- `apps/server/src/role-projection.ts` and `apps/server/src/realtime.ts`, which repeat projection and ticket logic covered here.
- `replayMeeting` and the application use cases.
- The judge's provider adapters: what a provider reports is a choice of the environment.
