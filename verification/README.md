# Outbound call scheduler: a verified model

The repository is a service that dials campaigns of phone calls. A scheduler tick claims a queued call and
dials it through a telephony provider; webhook processors apply the provider's events; a reclaim sweep rescues
calls whose dial got stuck; campaigns are promoted and rolled up as their calls progress. All of them write the
same rows of one Postgres database, and each acts on values it read in an earlier transaction. The only guards
are a compare-and-set on `(status, attempt_epoch)`, a claim statement and one row lock. This project models that
protocol and proves what every interleaving keeps.

## How the model is built

| file | what it holds |
|---|---|
| Types.dfy, Tables.dfy | rows and tables; the effect of each transaction as a function |
| Columns.dfy | what those functions test, select and write, in terms of statuses and columns |
| Store.dfy | the same transactions as methods of a mutable `Database`, proved equal to those functions |
| Protocol.dfy | the transition system: N replicas, webhook processors, reclaim tasks and the provider, one transaction or read per step |
| Daemons.dfy, Ingest.dfy | one scheduler round, one inbox drain, one reclaim sweep and one ingested event as methods over the `Database`, each proved to be a run of the protocol |
| Shape.dfy, CallInvariant.dfy, CampaignInvariant.dfy, LogInvariant.dfy, DrainInvariant.dfy, ExactDials.dfy, StepBound.dfy, ConcurrencyCap.dfy, RetryTick.dfy, Reach.dfy | the inductive invariants and the proof that every step keeps them |
| Attempts.dfy, Endings.dfy, LostDials.dfy, IdleTicks.dfy, Budget.dfy, CampaignLife.dfy, InboxOnce.dfy, Fairness.dfy, WorkConservation.dfy, RetryTiming.dfy, Stats.dfy, CallsList.dfy | the theorems about reachable states and whole runs |
| Runs.dfy, Limits.dfy, CapLimits.dfy, UngatedRun.dfy, IdleRun.dfy, BypassRun.dfy | complete runs, from an empty database, in which a guarantee one might expect fails or a bound is met |
| Rollup.dfy | campaign rollup split into its statements under READ COMMITTED, with and without the row lock |
| AuditLog.dfy, Backoff.dfy, Wake.dfy, Provider.dfy, Paging.dfy, AuditReader.dfy | log replay, backoff arithmetic, wake flag and loop, the in-process provider, keyset pages, the audit query |

`Reachable(p, n, s)` says that some run of `n` replicas from the empty database ends in `s` and meets the
premises `p`. The premises are about the environment and are named where a theorem needs them:

- h1: a provider event carries only DIALING, IN_PROGRESS, COMPLETED, FAILED, NO_ANSWER or BUSY. The code does not
  enforce this; it parses all eight statuses (app/provider/mock.py:152-160).
- h2: for each handle, events are drained as DIALING*, IN_PROGRESS*, one terminal event, then nothing. It includes
  h1. `Provider.EmissionMeetsH2` proves the provider's half.
- h3: distinct idempotency keys get distinct handles (`Provider.KeysGetDistinctHandles`: true unless a random token
  repeats).
- h4: the clock that stamps round-robin cursors strictly increases.
- serial: two webhook transactions never have the same call looked up at once.
- phones: no phone number is uploaded twice.

A step is one transaction, or one of the reads on which a later transaction relies. The tick's reads of eligible
campaigns, in-flight counts and due retries are three steps, and a webhook's lookup and its write are two, because
READ COMMITTED lets other commits fall between them. Any actor may crash or abort at any point. A row that
another open transaction may have locked can be skipped by SKIP LOCKED. A random draw (backoff delay, call
outcome, handle) is a parameter restricted to its range.

## Where the code and its documentation differ

The model follows the code.

- README.md:125 says that out-of-order events do nothing. The processor uses the row's own current status as the
  expected one, so they usually apply: `Attempts.EventAppliesExactlyWhen` gives the exact condition.
- app/state/machine.py:105-107 says that a terminal row is never written with its own status. NO_ANSWER or BUSY
  arriving at a FAILED row without retries does exactly that: `Limits.FailedIsWrittenAgain`.
- app/scheduler/reclaim.py:82-84 says that a reclaim whose row has no handle follows no dial. The handle can be
  stored between the sweep's read and the reclaim (`Limits.LiveCallIsRequeued`), and a dial that the provider has
  accepted need not be recorded at all (`Limits.UnrecordedCallIsRequeued`).
  `LostDials.RequeuedWasDialledExactlyWhen` says exactly when a reclaim abandons an accepted dial.
- An event drained before phase 3 has stored its handle is marked processed and lost: `Limits.EarlyEventIsLost`, and
  exactly when in `InboxOnce.EventLostExactlyWhen`.
- README.md:108 gives the backoff as base * 2^attempt; the code's exponent is the attempt less one
  (app/state/retry_apply.py:19-21).
- README.md:88 says that a rejected dial wakes the scheduler; app/scheduler/tick.py:253-263 does not notify
  (`Daemons.LoopRound`).
- With provider statuses alone (h1) the retry budget is not conserved: `Limits.BudgetNeedsOrder` is a run in which
  a call makes two retries and pays for one. `Budget.BudgetAccount` says by how much it is overdrawn and
  `Budget.BudgetConservedExactlyWhen` exactly when it is not.
- A wakeup is lost when a tick raises between clearing the flag and reading the tables; then only the timer helps:
  `Wake.NeverLostExactlyWhen`, `Wake.WakeupCanBeLost`.
- The scheduler leaves capacity unused while a campaign with nothing to dial comes first:
  `IdleRun.IdleWhileAnotherWaits` is such a run, `WorkConservation.NothingDialledUntilDue` says for how long, and
  `WorkConservation.TickClaimsExactlyWhen` exactly when a tick claims a call.
- With N replicas the cap can be exceeded by N - 1, as README.md:135 says. `CampaignLife.CapHolds` proves that this
  is the worst case while events are drained in order (h2), and `CapLimits.CapIsExceeded` that it happens for every
  cap and every N. Without h2 one replica exceeds the cap too, because a late DIALING event puts a call back in
  flight that no gate counts: `UngatedRun.OneReplicaExceedsCap`. `UngatedRun.CapHoldsExactlyWhen`: the cap itself
  always holds exactly with one replica and h2.

## Model

| member | source | states |
|---|---|---|
| Attempts.TransitionEffect | app/state/machine.py:118-182 | an unapplied transition changes nothing; an applied one changes the named columns of one row, adds exactly one audit row from the expected to the new status, rolls up that call's campaign if all its calls have ended, and leaves every other call, history and campaign, the inbox and the cursors alone |
| Attempts.WebhookActsOnWhatItRead | app/state/machine.py:134-144 | h2: although only status and epoch are compared, the row that an applied webhook overwrites is in every column the row it read |
| Attempts.LogReplaysToState | app/state/machine.py:134-172 | in every reachable state, folding a call's audit rows gives its current status and epoch |
| Attempts.LogIsLinked | app/state/machine.py:156-172 | each audit row of a call starts in the state where the previous one ended, the first at QUEUED and epoch 0 |
| Attempts.HandleIsCurrent | app/persistence/repositories.py:480-487 | h3: a stored provider handle was issued for this call's current epoch, and for no other key |
| Attempts.HandleWrittenOncePerEpoch | app/scheduler/tick.py:238-252 | two DISPATCH rows of a call never have the same epoch |
| Attempts.HandleStoredExactlyWhen | app/scheduler/tick.py:238-252 | a call's handle is stored if and only if the log shows the dispatch of its current epoch |
| Attempts.EventFindsCallExactlyWhen | app/scheduler/webhook_processor.py:54-74 | h3: the lookup of an issued handle finds a call if and only if its call is on that attempt and phase 3 has recorded the dial |
| LostDials.RequeuedWasDialledExactlyWhen | app/scheduler/reclaim.py:79-184 | over whole runs: a reclaim that requeues a call abandons an attempt that the provider had accepted if and only if its handle is stored, or a tick holds the handle before phase 3, or one crashed holding it, or the answer to the dial was lost; so with a null handle, and no tick at or crashed at that point of the attempt, there was no dial; the provider was asked only if the sweep had seen the handle, which is then still stored |
| LostDials.DialledExactlyWhen | app/scheduler/tick.py:217-252 | the same condition for every call that is DIALING at the end of a run, reclaimed or not |
| LostDials.ReclaimedWasStuck | app/scheduler/reclaim.py:46-48 | a reclaim moves a call only if the sweep saw it DIALING and last written longer ago than the grace window, on the attempt it still is on |
| Attempts.AppliedWebhookIsCurrent | app/scheduler/webhook_processor.py:53-135 | h3: a webhook that changes a row reports on the attempt the row is on, never an earlier one |
| Attempts.ConfirmedTerminalIsCurrent | app/scheduler/reclaim.py:116-144 | h3: a provider-confirmed terminal status was asked for the attempt the row is on |
| Attempts.TerminalIsFinal | app/state/machine.py:91-110 | in any run from any state, the status, epoch, handle and budget of a COMPLETED, FAILED, NO_ANSWER or BUSY call never change again |
| Attempts.PhoneInUseOnce | schema.sql:43-45 | of the QUEUED, DIALING and IN_PROGRESS calls, no two ever have the same phone |
| Endings.EndedExactlyWhen | app/state/retry_apply.py:51-86 | over whole runs: a call is COMPLETED if and only if a provider report COMPLETED, by event or by the answer to a reclaim, was applied to it; NO_ANSWER or BUSY if and only if such an answer was; FAILED if and only if a report FAILED, a rejected dial, or an unanswered call or unavailable provider without a retry left was |
| Endings.MoveEndsExactlyWhen | app/scheduler/tick.py:227-291 | the same for one step: what is written is a final status exactly if what the transaction has heard calls for it |
| Endings.SettleWrites | app/scheduler/tick.py:253-291 | phase 3 never completes a call: an unavailable provider gives RETRY_PENDING exactly if the claim had retries, and else FAILED, as a rejection does |
| Endings.CampaignCompletedExactlyWhen | app/state/campaign_terminal.py:78-96 | a concluded campaign is COMPLETED if and only if the provider reported COMPLETED for one of its calls in the run |
| Attempts.NoAnswerOnlyByReclaim | app/scheduler/reclaim.py:123-133 | a call ends as NO_ANSWER or BUSY only through the reclaim sweep |
| Attempts.EventAppliesExactlyWhen | app/scheduler/webhook_processor.py:81-135 | the exact condition under which an event that found a call is applied, whatever happened since the lookup; arriving out of order is not part of it, and a terminal row is written again only if it is FAILED without retries and NO_ANSWER or BUSY arrives |
| Attempts.EpochIsClaimsPlusReclaims | app/persistence/repositories.py:468-490 | attempt_epoch = claims + reclaims for every call |
| Attempts.IdempotencyKeysDistinct | app/scheduler/tick.py:217-221 | two claims of a run never share an idempotency key |
| Attempts.ClaimsBounded | app/persistence/repositories.py:468-490 | h1: claims <= 1 + retries + reclaims |
| Attempts.BudgetConserved | app/state/retry_apply.py:62-76 | initial retries = retries left + moves into RETRY_PENDING and the count is never negative, given h2, or h1 and serial |
| Budget.BudgetAccount | app/state/retry_apply.py:62-76 | h1: at the end of any run, retries left + retries made = initial retries + what transactions gave away that retried on a stale count |
| Budget.BudgetConservedExactlyWhen | app/scheduler/webhook_processor.py:112-121 | h1: the budget equation holds throughout a run if and only if no NO_ANSWER or BUSY transaction of the run retried on a positive count that differed from the stored one |
| Attempts.ClaimedRetriesNotStale | app/scheduler/tick.py:265-281 | the retry count read at claim time still is the stored one when phase 3 writes, if the row is on that attempt |
| Attempts.MovesBounded | app/state/retry_apply.py:51-86 | h2: a call with R retries that is reclaimed K times is moved at most 5R + 4 + 3K times |
| Attempts.DueTestsAgree | app/persistence/repositories.py:494-503 | h1: the sweep's "null or elapsed" and the requeue's "not null and elapsed" select the same rows |
| Attempts.RetryTickRequeues | app/scheduler/tick.py:135-162 | one scheduler, h2, phones: a tick that picked a due retry requeues a call |
| Attempts.RetryTickClaims | app/scheduler/tick.py:182-197 | one scheduler, h2, phones: and then claims one, whatever ran in between |
| CampaignLife.VerdictIsRight | app/state/campaign_terminal.py:66-130 | a campaign is COMPLETED or FAILED if and only if each of its calls is COMPLETED, FAILED, NO_ANSWER or BUSY, and COMPLETED if and only if also one call completed |
| CampaignLife.CampaignLogReplays | app/state/campaign_terminal.py:97-130 | the campaign's audit rows are exactly: none while PENDING, one promotion, then one completion with its verdict |
| CampaignLife.VerdictIsFinal | app/state/campaign_terminal.py:97-112 | in any continuation of a reachable state, a verdict and the campaign's audit rows never change afterwards |
| CampaignLife.PromotionNeverMissed | app/scheduler/tick.py:208-215 | a campaign is PENDING if and only if none of its calls was ever claimed, although the tick tests a status from before the claim |
| CampaignLife.CapHolds | app/scheduler/tick.py:84-105 | h2: in-flight calls plus ticks past the gate stay within max_concurrent + N - 1; with one replica in-flight calls stay within max_concurrent |
| CampaignLife.UploadInserts | app/persistence/repositories.py:420-443 | an upload inserts QUEUED calls at epoch 0 with the campaign's retries, no handle and no due time |
| CampaignLife.CreatedTogether | app/persistence/repositories.py:468-476 | in every reachable state the calls of a campaign share their created_at, so ordering by it leaves the choice among them open |
| Limits.BudgetNeedsOrder | app/scheduler/webhook_processor.py:53-121 | a reachable state, under every other premise, in which a call has made two retries and paid for one |
| Limits.FailedIsWrittenAgain | app/state/machine.py:105-110 | a reachable state, under every premise but h2, in which a FAILED row has been written from FAILED to FAILED |
| Limits.LiveCallIsRequeued | app/scheduler/reclaim.py:82-90 | a reachable state, under every premise, in which a reclaim requeues a call that the provider is handling under a stored handle |
| Limits.UnrecordedCallIsRequeued | app/scheduler/reclaim.py:82-90 | a reachable state, under every premise, in which a reclaim requeues a call that the provider has accepted although neither its row nor its log shows the dial |
| Limits.EarlyEventIsLost | app/scheduler/webhook_processor.py:54-74 | a reachable state, under every premise, in which the COMPLETED event of a stored handle is processed and the call is still DIALING |
| CapLimits.CapIsExceeded | app/scheduler/tick.py:84-105 | for every cap M and every N replicas, a reachable state under every premise has M + N - 1 calls of a campaign in flight |
| UngatedRun.OneReplicaExceedsCap | app/scheduler/webhook_processor.py:122-135 | a reachable state, under every premise but h2, in which one replica has two calls of a campaign with cap 1 in flight |
| UngatedRun.CapHoldsExactlyWhen | app/scheduler/tick.py:84-105 | every campaign is within its cap in every reachable state if and only if there is one replica and h2 is a premise |
| IdleRun.IdleWhileAnotherWaits | app/scheduler/tick.py:107-132 | a reachable state, under every premise, in which a campaign below its cap has a call to claim and a whole tick changes nothing |
| Fairness.BypassedOnce | app/scheduler/tick.py:110-123 | N schedulers, h4, from any state: while a campaign passes the gates undispatched, every other campaign has at most N calls claimed by non-retry ticks, plus one for each such tick that crashes before it stamps the cursor |
| Fairness.DueRetryBypassedOnce | app/scheduler/tick.py:110-119 | while it also has a due retry, the same bound holds for the claims of every kind of tick |
| BypassRun.BypassBoundIsMet | app/scheduler/tick.py:110-123 | the bound is met: for every N, a reachable state and a run under every premise with N such claims and no lost stamp |
| WorkConservation.TickClaimsExactlyWhen | app/scheduler/tick.py:107-132 | one scheduler, h2, phones: a tick past the gates claims a call if and only if a campaign that passed had a due retry, or the earliest had a QUEUED call at the pick or was given one by a reclaim since, whatever else runs in between |
| IdleTicks.IdleTickHeldRetry | app/scheduler/tick.py:107-132 | one scheduler, h2, phones: a tick that passes the gates and claims nothing has picked a campaign that held a RETRY_PENDING call, not yet due, when it was listed |
| WorkConservation.NothingDialledUntilDue | app/scheduler/tick.py:181-184 | one scheduler, h2: once the campaign that comes first has only retries due at some time or later, every tick before that time picks it and no campaign's call is claimed or dialled |
| InboxOnce.HandledAtMostOnce | app/persistence/repositories.py:666-728 | with any replays, aborts and parallel processors, an event is handled at most once in a run |
| InboxOnce.EventLostExactlyWhen | app/scheduler/webhook_processor.py:54-74 | h3: a drain finds no call for an issued handle if and only if the call is on another attempt or phase 3 has not recorded the dial; then, whatever runs in between, the transaction marks the event, changes no call and no campaign, and no later run handles the event |
| InboxOnce.MarkCommitsWithMove | app/scheduler/webhook_processor.py:45-183 | a committed webhook transaction marks the one row it handles, not marked before, and writes its call exactly if it has a move; no other step marks a row |
| InboxOnce.RaisingWritesNothing | app/scheduler/webhook_processor.py:46-48 | a webhook transaction that raises cannot commit, changes no table and leaves its row for a later drain |
| InboxOnce.ReplaysLeaveNoTrace | app/persistence/repositories.py:675-691 | some run without the replays ends in the same state as the run with them |
| RetryTiming.KthRetryExponent | app/state/retry_apply.py:62-63 | h2, no reclaim: the k-th retry is scheduled base * 2^(k-1) ahead, give or take a fifth |
| RetryTiming.RetriesWaitInTotal | app/state/retry_apply.py:16-21 | h2, no reclaim: R retries of a run wait between 0.8 and 1.2 times base * (2^R - 1) in total |
| Backoff.BackoffIs | app/state/retry_apply.py:16-21 | the delay is base * 2^(epoch - 1) times the draw, and base times the draw for an epoch below 1 |
| Backoff.BackoffDraws | app/state/retry_apply.py:16-21 | the delays in the band of an attempt are exactly the results of compute_backoff over its random draws |
| Backoff.LaterAttemptWaitsLonger | app/state/retry_apply.py:16-21 | whatever the jitters, a later attempt's delay strictly exceeds an earlier one's |
| Backoff.TotalDoubled | app/state/retry_apply.py:16-21 | delays in the bands 0, 1, ..., R - 1 add up to base * (2^R - 1), give or take a fifth |
| Backoff.DoubledIsPower | app/state/retry_apply.py:19-21 | repeated doubling is base * 2^e |
| AuditLog.EpochCountsDials | app/state/machine.py:112-115 | in a linked history the replayed epoch is the number of claims and reclaims |
| AuditLog.EpochsRise | app/persistence/repositories.py:482-482 | in a linked history epochs never fall, and a claim or reclaim is above every earlier row |
| Rollup.NeverStranded | app/state/campaign_terminal.py:41-112 | with the row lock, no interleaving of terminal transactions, aborts and other writes leaves an ACTIVE campaign whose calls are all terminal |
| Rollup.CommitIsAtomic | app/state/campaign_terminal.py:65-112 | with the row lock, a commit has the effect of one atomic write and rollup |
| Rollup.AtomicIsTableCommit | app/state/machine.py:154-180 | that atomic step is the transaction the protocol model takes: row, audit row, rollup, and a completion row exactly when the campaign's status changes |
| Rollup.StrandedWithoutLock | app/state/campaign_terminal.py:46-55 | without the lock, two last calls that finish together strand the campaign |
| Wake.LostExactlyWhen | app/scheduler/loop.py:23-34 | a pending notification gets lost if and only if a tick raises between the clear and its read |
| Wake.NeverLostExactlyWhen | app/scheduler/loop.py:23-34 | a run keeps every wakeup if and only if no tick raised between the clear and its read while the latest notification lay between the previous read and that clear |
| Wake.NextReadNeedsNoTimer | app/scheduler/loop.py:23-27 | otherwise a notification after the latest read leads to the next read without the timer |
| Wake.WakeupCanBeLost | app/scheduler/loop.py:28-34 | a run in which a notification waits for the timer |
| Provider.MockProvider.PlaceCall | app/provider/mock.py:51-71 | a known key gets its first handle and starts nothing; a new key gets the random handle and one simulation, whose plan ends in the drawn outcome and passes IN_PROGRESS only if that is COMPLETED |
| Provider.MockProvider.Simulate | app/provider/mock.py:121-150 | a step of a simulation sends the handle's new status as one event under the next number; what was sent stays a prefix of one of the three trajectories, and a terminal status completes it |
| Provider.MockProvider.GetStatus | app/provider/mock.py:73-80 | the status of a known handle; a terminal one is reported only after the whole trajectory was sent |
| Provider.MockProvider.Close | app/provider/mock.py:82-90 | closing cancels every simulation and changes nothing else |
| Provider.HandleNeverChanges | app/provider/mock.py:51-60 | a key keeps its handle in every run |
| Provider.HandlesDistinctExactlyWhen | app/provider/mock.py:55-71 | distinct keys keep distinct handles if and only if the random token is not in use |
| Provider.KeysGetDistinctHandles | app/provider/mock.py:55-71 | h3 for whole runs without a repeated token |
| Provider.EventIdsDistinct | app/provider/mock.py:139-150 | no two events carry the same provider_event_id, even if tokens repeat |
| Provider.EmissionMeetsH2 | app/provider/mock.py:121-132 | draining each handle's events in the order in which they were sent meets h2 |
| Provider.SendsInOrder | app/provider/mock.py:121-132 | whatever happens, a handle has been sent a prefix of DIALING IN_PROGRESS COMPLETED, of DIALING FAILED or of DIALING NO_ANSWER |
| Provider.InProgressExactlyWhenCompleted | app/provider/mock.py:125-132 | COMPLETED is sent only after IN_PROGRESS, and FAILED and NO_ANSWER never with it |
| Provider.EachOutcomeHappens | app/provider/mock.py:111-132 | each of the three outcomes can be drawn, and its call then sends exactly its trajectory |
| Provider.NothingFollows | app/provider/mock.py:133-137 | after a sink that raises, or a close, no run sends anything more for the handle |
| Provider.ReportedTerminalIsLast | app/provider/mock.py:120-132 | once get_status reports a terminal status, the whole trajectory was sent and nothing follows |
| Paging.WalkShowsAll | app/audit/reader.py:137-175 | following next_cursor shows exactly the rows, each once, latest first and at the same time the greater id first, in n / limit + 1 pages |
| Paging.InsertsAboveUnseen | app/audit/reader.py:137-175 | rows inserted at or above the cursor leave every later page as it was |
| Paging.ShownOnce | app/persistence/repositories.py:367-417 | rows whose updated_at only rises during a walk are never shown twice |
| CallsList.NoCallShownTwice | app/persistence/repositories.py:367-417 | a client that pages through a campaign's calls during any run of the service never sees a call on two pages |
| AuditReader.BuildWhere | app/audit/reader.py:99-139 | the clauses collected argument by argument select exactly the rows with the given campaign, call, event types, times (both ends included), reason text and phone digits (three or more), below the cursor |
| AuditReader.QueryLog | app/audit/reader.py:83-175 | up to `limit` rows that pass the filters and lie below the cursor, newest first, none missing but older ones; the last row's key as next cursor exactly if the page is full; an error exactly for a limit outside 1 to 500 |
| Stats.StatsOf | app/persistence/repositories.py:307-339 | total, completed, failed (ended otherwise) and in_progress (not ended) as numbers of calls, retries_attempted as the number of all attempts after a first; completed + failed + in_progress = total |
| Stats.CountsAreSizes | app/persistence/repositories.py:316-330 | each count is the number of calls with those statuses, in whatever order rows are read |
| Stats.RetriesAttemptedCountsRedials | app/persistence/repositories.py:322-322 | retries_attempted = the sum over calls of max(claims + reclaims - 1, 0) of the log |
| Store.Database.Transition | app/state/machine.py:60-182 | refuses exactly foreign columns, leaving a final status, a changed status or epoch, and a second phone in use; otherwise applies, and leaves exactly the tables that `Tables.After` gives |
| Store.Database.MaybeTransitionCampaignTerminal | app/state/campaign_terminal.py:41-130 | rolls an ACTIVE campaign up to its verdict when its active count is zero, and otherwise changes nothing |
| Store.Database.ListEligible | app/persistence/repositories.py:255-288 | exactly the PENDING or ACTIVE campaigns with a QUEUED or RETRY_PENDING call, in ascending id order, each with its columns and cursor |
| Store.Database.FindRetryDueCampaignIds | app/persistence/repositories.py:494-503 | exactly the campaigns with a RETRY_PENDING call whose time is null or has come |
| Store.Database.ClaimNextQueued | app/persistence/repositories.py:446-491 | claims the oldest QUEUED call of the campaign that is due and not locked, bumps its epoch and clears its handle, or changes nothing exactly if there is none |
| Store.Database.GetByProviderCallId | app/persistence/repositories.py:614-626 | a call with that handle, or none if no call has it |
| Store.Database.Gate | app/scheduler/tick.py:63-105 | keeps exactly the campaigns in hours and below their cap, and logs one SKIP_BUSINESS_HOUR for each out of hours, one SKIP_CONCURRENCY for each in hours at its cap, and nothing else |
| Store.Database.RequeueOldestRetryDue | app/scheduler/tick.py:135-162 | moves the oldest RETRY_PENDING call of the campaign whose time has come, and is not null, back to QUEUED |
| Store.Database.ClaimForDispatch | app/scheduler/tick.py:173-215 | phase 1: claim, CLAIMED row and promotion in one transaction |
| Store.Database.SettleDispatch | app/scheduler/tick.py:227-293 | phase 3 by compare-and-set: the handle stored, FAILED for a rejection, a retry with its due time while the claim had any and else FAILED; then the cursor is stamped |
| Store.Database.ApplyRetryableOutcome | app/state/retry_apply.py:24-86 | COMPLETED and FAILED are written as they are; NO_ANSWER and BUSY take a retry with its due time, or FAILED when none is left |
| Store.Database.HandleRow | app/scheduler/webhook_processor.py:53-188 | one webhook transaction, including what it logs when it changes no call, and its rolled-back outcomes |
| Store.Database.ReclaimOne | app/scheduler/reclaim.py:79-184 | folds a confirmed terminal status on the same epoch, or requeues on the next one without a handle; the audit row keeps the abandoned handle |
| Store.SelectEarliest | app/scheduler/tick.py:39-44 | returns the least campaign by last dispatch and id, never dispatched first |
| Store.Pick | app/scheduler/tick.py:107-123 | the earliest campaign with a due retry, or else the earliest campaign |
| Daemons.Tick | app/scheduler/tick.py:47-132 | a tick is a run of the protocol from Idle to Idle; it lists the eligible campaigns, picks if one passes both gates, dispatches exactly when its pick has a call to claim, stamps the cursor and leaves the campaign promoted; a retry tick fails to dispatch only if its requeue raises or finds nothing |
| Daemons.LoopRound | app/scheduler/loop.py:23-27 | a round is a turn of the loop in module Wake and its tick a run of the protocol; only the timer can begin it while the flag is down, and a call that ends by a rejected dial leaves the flag down |
| Daemons.DispatchOne | app/scheduler/tick.py:165-295 | the three phases are a run of the protocol; they dispatch exactly when there is a call to claim, and without one nothing changes |
| Daemons.ProcessPendingInbox | app/scheduler/webhook_processor.py:22-42 | a drain is a run of the protocol; rows handled without an error leave the queue, it stops early only when none is left, it wakes the scheduler exactly when a call changed, and it changes no event |
| Ingest.Ingest | app/api/webhooks_ingest.py:16-60 | insert and drain are a run of the protocol; a new event joins the queue, and a replay onto an empty queue changes no table and wakes nobody |
| Ingest.EmitAndIngest | app/provider/mock.py:139-150 | an event that a simulation emits always joins the queue, because the inbox never has its id; inbox and provider stay in step |
| Daemons.StuckReclaimSweep | app/scheduler/reclaim.py:40-60 | a sweep is a run of the protocol; a call stuck in DIALING takes exactly the terminal status that the provider holds for its handle, on the same epoch and handle, and otherwise goes back to QUEUED on the next epoch without a handle; every other call is as before; the scheduler is woken exactly when a call moved, and a call ends only after the provider has sent its whole trajectory |

## Left out

- Daemons.Tick: runs alone, without other actors in between; interleavings are the subject of Protocol, whose steps it takes.
- Daemons.LoopRound: runs alone, so no notification arrives during its tick; module Wake has the loop with notifications at any point.
- Daemons.ProcessPendingInbox: handles its rows one after the other with no other actor in between, and takes unprocessed rows in any order instead of by `received_at`; h2 says what a proof needs of the order.
- Daemons.StuckReclaimSweep: runs its tasks one after the other, so that no compare-and-set of the sweep misses; tasks that interleave with everything else are steps of Protocol.
- Ingest.Ingest: the drain that the code spawns as a task runs at once, with no other actor in between.
- InboxOnce.ReplaysLeaveNoTrace: a replay is a step without effect. The conflict update of the insert locks the inbox row for a moment; that only narrows which rows a drain can take, and the model lets a drain take any.
- Store.Database: rows are values in maps, so an update replaces a row and there is no aliasing between rows.
- Inbox rows are drained in any order. Payloads that do not parse, which the code retries forever at the head of the queue, are not part of this model.
- Progress of a drain whose head row keeps failing, and termination without a bound on reclaims: the code guarantees neither.
- CallsList.NoCallShownTwice: `NOW()` of the database and the clock of the process are one model clock that never goes back, read when a transaction writes. In the database it is the start of the transaction, so a slow one can write an older `updated_at`, and a row can then move down in the list.
- `is_in_window`: its answer at an instant is a parameter (the set of open campaigns). Time zones are not part of this model.
- Text columns of audit rows (reason, extra, phone) in the protocol model; the audit query tests them as given, with the database's case folding as a parameter.
- Phone normalisation: phones are opaque ids. Cursor encoding (section 5 of RFC 4648): a cursor is the pair it carries.
- The settings fallback for a missing or malformed `backoff_base_seconds`; the upload schema requires it (app/api/schemas/campaigns.py:60-61).
- The upload's error response for a phone already in flight: a rejected upload changes no table, so only the accepted one is a step.
- `column_updates` is a record of the three allowed columns plus the names of any others, which are refused.
- SQL text, connection pools, HTTP routes, signature checks, the debug endpoint, and the restart of the in-process provider (its memory is not persistent).
- Wake.SchedulerWake: one flag without a list of waiters, since one loop waits on it.
