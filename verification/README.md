# Verification of the PlanBuddy job queue and the code on top of it

This project models the lease-based job queue of the PlanBuddy backend, the workers and the
side-effect journal that use it, and the booking, payment, idempotency and admission code beside it,
and proves what these promise over every run.

`dafny verify dfyconfig.toml` checks all of it.

## How it is modelled

Each SQL statement, Redis command, or stretch of JavaScript without an `await` is one step. A module
gives the effect of a step on a state (`Apply`), the effect of a sequence of steps (`Exec`), and
theorems about every sequence. Steps carry arbitrary arguments: a worker may pass a lease version it
lost long ago, a transaction may abort at any point, a request may crash. Beside that stands a class
with the fields and methods of the source; each method is proved to change the state as its steps do.
Time is a number; random values, tokens and hashes are arguments.

| file | what it covers |
|---|---|
| `LeaseQueue.dfy` | the job table and the engine's claim, heartbeat, commit and recovery statements |
| `LeaseRuns.dfy` | fencing, accounting, reachable states, bounded retries, timed leases |
| `SideEffects.dfy` | the journal; workers, journal, provider and queue together; exactly once |
| `BookingDb.dfy` | cancelBooking and the webhook appliers, each without interruption |
| `BookingTransactions.dfy` | any number of cancelBooking transactions and webhook appliers, statement by statement, under row locks |
| `BookingHistories.dfy` | how payment and booking stand after any history or interleaved run of webhooks and cancellations |
| `WebhookIngress.dfy` | storing and enqueueing webhook deliveries |
| `Idempotency.dfy` | the idempotency middleware as a lookup, lock, store, release protocol |
| `WorkerSlots.dfy` | slots and drain waiters of a worker, alone and with its controller |
| `AdaptiveController.dfy` | adaptive concurrency and its breaker |
| `CircuitBreaker.dfy` | the breaker around external calls, with overlapping calls |
| `ShardRouter.dfy` | shard assignment and the wakeup filter |
| `Backpressure.dfy` | admission by priority tier |
| `Money.dfy` | paise and rupees with floating-point rounding |
| `Basics.dfy` | options, quotients, sums over maps, numbers outside sets |

## Where the code differs from what it says

- The journal is called an exactly-once guard; it is one per operation key. A job's effect happens at
  most once exactly if the job keeps one key, and not with the documented key per attempt
  (`SideEffects.AtMostOnceExactlyWhen`, `SideEffects.ExactlyOnceExactlyWhen`).
- The journal's `completed` is not final (`SideEffects.CompletedIsOverwritten`,
  `SideEffects.CompletedMayBeLostExactlyWhen`, `SideEffects.CompletedCanBeLost`). What keeps the effect
  of a key single is the replay token, which never changes.
- The idempotency middleware documents no re-execution of a completed request. Nobody looks again after
  taking the lock, so a handler may run any number of times (`Idempotency.RepeatsAreUnbounded`); which
  requests can still do so is settled by `Idempotency.MayExecuteExactlyWhen`.
- The database fallback of that middleware keeps the expiry of an old row
  (`Idempotency.StoredRowIsFoundExactlyWhen`), which without Redis ends replay for good
  (`Idempotency.OldRowsRepeatOneAtATime`).
- Booking and payment can disagree when captures, failures and refunds arrive out of order, and when a
  cancellation comes before the capture; exactly when, over all interleaved runs of webhooks and
  cancellations, is settled by `BookingHistories.RunAgreesExactlyWhen`.
- Draining does not keep concurrency at its minimum (`AdaptiveController.DrainingPinsExactlyWhen`), and
  the adaptive breaker may stay half open and shut for ever (`AdaptiveController.RecoversExactlyWhen`,
  `AdaptiveController.EmptyPollsStick`, `AdaptiveController.AllReportedAndStuckExactlyWhen`).
- The idempotency lock is documented to keep handlers of one key apart. It does not outlast a slow handler
  or a failing Redis, and it is released without a look at its owner, so the end of a slow handler opens
  its successor's section to a third one (`Idempotency.SectionsOverlapExactlyWhen`,
  `Idempotency.StaleReleaseOverlaps`).
- The ingress says that an event is never lost. A crash right after its insert leaves it stored but
  unqueued, and no redelivery enqueues it (`WebhookIngress.CrashStrandsTheEvent`); only a reconciliation
  outside the handler, which is not part of this model, can. Without a crash every stored event is handed to
  the queue (`WebhookIngress.StoredEventsAreHandedOn`).
- A response whose connection closes after its end without `finish` keeps its slot for ever, which can
  shut the gate (`Backpressure.ActiveRequestsAreTheKeptSlots`, `Backpressure.LeaksShutTheGate`).
- Overlapping polls of one worker exceed the slot bound (`WorkerSlots.OverlappingPollsExceedTheBound`,
  `WorkerSlots.BoundHoldsExactlyWhen`).

## Model

| member | source | states |
|---|---|---|
| `LeaseQueue.SelectBatch` | atomic-engine.js:101-111 | of the eligible unlocked rows it takes min(limit, all), and no row left behind has a higher priority, or the same and an earlier creation, than a row taken |
| `LeaseQueue.Engine.AtomicClaim` | atomic-engine.js:64-125 | a draining worker gets nothing; every row given was pending, due, unlocked, of the region and of the given shards; fewer rows than the limit are given only if no such row is left, and no row left behind comes before a given one; exactly these rows become `processing` under this worker with the next lease version |
| `LeaseQueue.Engine.ExtendLease` | atomic-engine.js:491-507 | answers true and moves the expiry exactly when the row is `processing` under this worker and version; no other row or field changes |
| `LeaseQueue.Engine.CommitSuccess` | atomic-engine.js:510-525 | completes and stores the result only for the current holder; a no-op for anybody else |
| `LeaseQueue.Engine.ReadAttempt` | atomic-engine.js:533-542 | the fenced SELECT of commitFailure: the attempt count for the current holder, nothing otherwise |
| `LeaseQueue.Engine.WriteFailure` | atomic-engine.js:544-566 | the fenced UPDATE of commitFailure with an earlier read: dead letter at the limit or when forced, else retry |
| `LeaseQueue.Engine.CommitFailure` | atomic-engine.js:528-567 | run without interruption it is the two table steps read and write in a row |
| `LeaseQueue.Engine.ReclaimExpiredLeases` | atomic-engine.js:446-475 | run without interruption it is the two sweep statements in a row, each over all rows |
| `LeaseQueue.SweepRecoversExpired` | atomic-engine.js:446-470 | both statements together: an expired `processing` row goes back to `pending` without a holder if it has attempts left, and to `dead_letter` keeping any error if not, each time under a new lease version; every other row stays as it is |
| `LeaseQueue.Engine.RequestWorkerDrain` | atomic-engine.js:574-580 | sets the drain flag of a registered worker and of no other |
| `LeaseRuns.NoVersionHandedOutTwice` | atomic-engine.js:92-115 | in any interleaving, of two claims of one row the later gets a strictly larger lease version |
| `LeaseRuns.OneCommitPerClaim` | atomic-engine.js:510-567 | two commits that took effect on a row did so under different lease versions: at most one per claim |
| `LeaseRuns.SupersededHolderIsHarmless` | atomic-engine.js:491-567 | a holder whose version was overtaken or already committed changes no row with any later extension or commit |
| `LeaseRuns.TerminalRowsAreFrozen` | atomic-engine.js:510-563 | `processed` and `dead_letter` rows never change again, in any run |
| `LeaseRuns.CommitFailureIsAtomic` | atomic-engine.js:528-563 | with any steps of any workers between SELECT and UPDATE, the UPDATE changes nothing or acts as one atomic step that adds one to the row's present attempt count |
| `LeaseRuns.LateFailureCountsExactlyWhen` | atomic-engine.js:528-563 | a failure that was read is written after any steps of any workers: it adds one attempt and ends the hold if its worker still holds the row under that version, and changes nothing otherwise |
| `LeaseRuns.Accounting` | atomic-engine.js:92-115 | over any run: version growth = claims + reclaims; claims = reclaims + effective commits + running; attempt growth = effective failure commits |
| `LeaseRuns.ReachableStates` | atomic-engine.js:446-470 | from fresh rows, every open row has attempts left, leases are recorded exactly on `processing` rows, and the sweep's dead-letter UPDATE never matches |
| `LeaseRuns.CommitSpendsBudget` | atomic-engine.js:528-563 | every effective commit strictly lowers the total of attempts left over open rows |
| `LeaseRuns.CommitsAreBounded` | atomic-engine.js:510-567 | the number of effective commits of a run plus the attempts left never exceeds the attempts left at the start |
| `LeaseRuns.ClaimsAreBounded` | atomic-engine.js:92-115 | a row is claimed at most maxAttempts times plus once per reclaim, and a row that used these up and is not running is `processed` or `dead_letter` |
| `LeaseRuns.TimelyHolderCommits` | base-worker.js:283-293 | if each heartbeat lands within the lease timeout of the last, no sweep reclaims the row before its holder's commit, and that commit takes effect |
| `LeaseRuns.TimelyClaimCommits` | atomic-engine.js:64-66 | the same from the claim on, whose lease runs from the call of atomicClaim |
| `LeaseRuns.WorkingHolderKeepsItsRow` | base-worker.js:283-293 | a holder still at work whose beats come in time has its row at every moment of any run; the next sweep takes it exactly if it comes later than the lease timeout after the last beat |
| `LeaseRuns.TimelyMeansOnTime` | base-worker.js:283-293 | every prefix of a run that ends in a timely commit is such a run |
| `LeaseRuns.OneLostBeatIsTolerated` | queues.js:83-100 | the configured intervals leave room for one lost heartbeat; exactly the fallback intervals do not |
| `LeaseRuns.RetryWaitsItsBackoff` | atomic-engine.js:36-41 | a retry waits floor(random * min(600000, base * 2^attempt)) ms, and no claim takes it before it is due |
| `SideEffects.SideEffectJournal.AcquireSideEffectSlot` | atomic-engine.js:138-202 | inserts and marks executing, or replays a completed entry, or goes on with the stored token, or, when a cleanup deleted the conflicting entry in between, goes on without a token |
| `SideEffects.SlotIsWhereTheStepsLead` | atomic-engine.js:138-202 | the answer is where the single statements lead a session: to a replay of r exactly if it is `alreadyExecuted` with r, to a call under token t exactly if it is to go on with t, and to the error exactly if the insert fails |
| `SideEffects.SlotTellsTheTruth` | atomic-engine.js:138-202 | in every reachable state: `alreadyExecuted` is answered only for a completed entry whose token the provider applied with that very response; an entry in any other state is gone on with under its stored token; a new key under the new one |
| `SideEffects.SideEffectJournal.CompleteSideEffect` | atomic-engine.js:208-220 | marks the entry completed with its response (NULL for a falsy one), whatever state it was in |
| `SideEffects.SideEffectJournal.FailSideEffect` | atomic-engine.js:225-233 | marks the entry failed and counts the retry, whatever state it was in |
| `SideEffects.SystemRefinesQueue` | base-worker.js:295-331 | a run of workers, journal and provider is a run of the lease queue on the job table, so all queue theorems carry over |
| `SideEffects.OncePerKey` | atomic-engine.js:138-220 | in every run with crashes, lost answers, retries and stale workers, and for any choice of keys, no two effects are carried out under one operation key |
| `SideEffects.ExactlyOnce` | atomic-engine.js:138-220 | if the workers use one key per job, each job's effect happens at most once in every run, and exactly once for each `processed` row |
| `SideEffects.AtMostOnceExactlyWhen` | schema-v3.sql:163 | over all runs of a fresh table, and over those in which time does not go back, a job's effect happens at most once if and only if its key is the same for all attempts it can have; keys per attempt, as documented here, allow a second effect |
| `SideEffects.ExactlyOnceExactlyWhen` | schema-v3.sql:163 | over all runs of a fresh table, every job's effect happens at most once, and exactly once if its row is `processed`, if and only if over the attempts they can have no job changes its key and no two jobs share one |
| `SideEffects.ReplayReturnsTheResponse` | atomic-engine.js:173-183 | `alreadyExecuted` hands back the provider's response to the effect carried out under that key, or NULL if it was falsy |
| `SideEffects.ReplayOnlyAfterCompletion` | atomic-engine.js:173-183 | `alreadyExecuted` is answered only after a completeSideEffect for that key took place |
| `SideEffects.CompletedIsOverwritten` | atomic-engine.js:195-233 | over any run, an entry that was completed and is so no more was overwritten by a late `executing` or `failed` UPDATE of its key: `completed` is not final |
| `SideEffects.CompletedMayBeLostExactlyWhen` | atomic-engine.js:195-199 | with no failSideEffect for its key to come, a completed entry can lose that state if and only if some session has inserted the key and is yet to mark it executing |
| `SideEffects.CompletedCanBeLost` | atomic-engine.js:185-201 | a run from any fresh table, in which time does not go back, where this happens: claim, insert, sweep, second claim, completion, and then the first worker's late UPDATE |
| `BookingDb.BookingStore.CancelBooking` | planbuddy_v9/controllers/Dbservice fixed cancelbooking.js:45-156 | run without interruption: the answers for missing, cancelled, terminal and trip-less bookings change nothing; otherwise the booking is cancelled and its group size leaves the trip count, never below zero; no other row changes |
| `BookingDb.BookingStore.ApplyPaymentEvent` | planbuddy_v9/controllers/razorpayWebhookController.js:284-339 | the guarded payment update and the booking confirmation of one payment event |
| `BookingDb.BookingStore.ApplyRefundEvent` | planbuddy_v9/controllers/razorpayWebhookController.js:341-387 | the guarded refund of the payment and the refund mark on its booking |
| `BookingDb.EventsByKind` | planbuddy_v9/controllers/razorpayWebhookController.js:284-387 | for each of the six kinds of event, by row status: captures and authorisations capture a created payment and confirm a pending booking, failures fail a created payment, both refund kinds refund a payment once and mark its booking, other kinds change nothing |
| `BookingDb.ApplyingTwiceIsOnce` | planbuddy_v9/controllers/razorpayWebhookController.js:284-387 | applying any event twice in a row equals applying it once |
| `BookingTransactions.CapacityIsConserved` | planbuddy_v9/controllers/Dbservice fixed cancelbooking.js:48-141 | over any interleaving of the statements of cancellations and webhooks, each trip's count equals the group sizes of its non-terminal bookings in every committed state, and GREATEST never clips |
| `BookingTransactions.TransactionsAreAtomic` | planbuddy_v9/controllers/Dbservice fixed cancelbooking.js:48-141 | at the statement that ends it, an interleaved cancellation or webhook answers and changes the rows as it would alone at that moment; no other statement changes a committed row |
| `BookingTransactions.AbortRollsBack` | planbuddy_v9/controllers/Dbservice fixed cancelbooking.js:48-141 | a rollback at any point of a transaction leaves the committed rows as they were and frees its locks |
| `BookingTransactions.ReleasedAtMostOnce` | planbuddy_v9/controllers/Dbservice fixed cancelbooking.js:77-97 | no later step of any run releases the seats of a booking again |
| `BookingTransactions.TerminalBookingsStay` | planbuddy_v9/controllers/razorpayWebhookController.js:314-322 | mixed with webhooks, statement by statement, a cancelled, failed or expired booking keeps its status for ever |
| `BookingTransactions.NoWaitCycle` | planbuddy_v9/controllers/Dbservice fixed cancelbooking.js:51-107 | payment before booking before trip: a chain of lock waits has at most three waits and is never a cycle |
| `BookingTransactions.SomeoneCanMove` | planbuddy_v9/controllers/Dbservice fixed cancelbooking.js:51-107 | while a transaction is under way, some transaction under way is not waiting |
| `BookingTransactions.NotWaitingMoves` | planbuddy_v9/controllers/Dbservice fixed cancelbooking.js:48-141 | the next statement of a transaction that is under way and not waiting moves it nearer to its end |
| `BookingTransactions.RunsCanFinish` | planbuddy_v9/controllers/Dbservice fixed cancelbooking.js:48-141 | any run of cancellations and webhooks, stopped anywhere, can be completed without rollbacks so that every transaction is over, within the number of statements they have left |
| `BookingTransactions.PaymentsMoveForward` | planbuddy_v9/controllers/razorpayWebhookController.js:365-372 | over any run of interleaved transactions the refund id is written at most once and is set exactly while the payment is refunded; statuses never go back |
| `BookingHistories.RunsAreHistories` | planbuddy_v9/controllers/Dbservice fixed cancelbooking.js:48-141 | serialisability: the committed rows of any interleaving of cancellations and webhooks are those of the transactions that ended, run as a whole one after another |
| `BookingHistories.HistoriesAreRuns` | planbuddy_v9/controllers/Dbservice fixed cancelbooking.js:48-141 | the converse: for every sequence of cancellations and webhooks there is a run in which they end in this order, with the rows they leave when run whole one after another |
| `BookingHistories.HistoryAgreesExactlyWhen` | planbuddy_v9/controllers/razorpayWebhookController.js:284-387 | after any history of captures, failures, refunds and cancellations: how an opened payment and its booking stand, in closed form; that they agree (paid exactly if captured, refunded exactly if refunded) if and only if the history is harmless; and that they stand as the news report if and only if these come in order |
| `BookingHistories.RunAgreesExactlyWhen` | planbuddy_v9/migrations/120_financial_integrity_v7.sql:21-22 | the same for every committed state of every interleaved run, by the order in which its transactions ended; the two inconsistencies counted here are ways to disagree |
| `BookingHistories.CancellationOvertakesCapture` | planbuddy_v9/controllers/razorpayWebhookController.js:305-322 | a cancellation before the capture ends in a captured payment on a cancelled, unpaid booking |
| `BookingHistories.FailureOvertakesCapture` | planbuddy_v9/controllers/razorpayWebhookController.js:305-336 | a failure before the capture ends in a confirmed, paid booking with a failed payment |
| `BookingHistories.RefundOvertakesCapture` | planbuddy_v9/controllers/razorpayWebhookController.js:365-381 | a refund that arrives before the capture leaves a refunded booking with a created payment, and then a paid booking with a captured one: the refund is lost |
| `WebhookIngress.Ingress.VerifySignature` | planbuddy_v9/controllers/razorpayWebhookController.js:72-105 | missing signature 401, missing secret 500, mismatch 401, in that order |
| `WebhookIngress.Ingress.HandleRazorpayWebhook` | planbuddy_v9/controllers/razorpayWebhookController.js:152-282 | status and code of the reply of every branch, the duplicate included; the row and the enqueue happen exactly for a new accepted event |
| `WebhookIngress.EnqueuedAtMostOnce` | planbuddy_v9/controllers/razorpayWebhookController.js:249-274 | over any interleaving of deliveries and crashes, an event is enqueued at most once and only if stored |
| `WebhookIngress.StoredEventsAreHandedOn` | planbuddy_v9/controllers/razorpayWebhookController.js:249-274 | over any interleaving of deliveries without a crash, every stored event is enqueued or about to be |
| `WebhookIngress.CrashStrandsTheEvent` | planbuddy_v9/controllers/razorpayWebhookController.js:249-274 | a crash between the insert and the enqueue leaves the event stored and unqueued after every later run, redeliveries included |
| `WebhookIngress.FirstPayloadStays` | planbuddy_v9/controllers/razorpayWebhookController.js:202-250 | after any run, an event is stored with the id, payload and type of its first accepted delivery, and no later one changes the row |
| `Idempotency.Middleware.RunIdempotency` | planbuddy_v9/middleware/idempotency.js:158-260 | run without interruption: the redis lookup with the deletion of an unreadable entry, the database lookup that passes over an unreadable row, and the lock of 30 seconds, each also when it fails |
| `Idempotency.Middleware.CaptureResponse` | planbuddy_v9/middleware/idempotency.js:279-314 | caches a 2xx response for 72 hours in both places and releases the lock in any case |
| `Idempotency.PhasesMoveInOrder` | planbuddy_v9/middleware/idempotency.js:158-314 | each phase of a request waits for its own step and leads to the phases that follow it; no other step changes the request or the store |
| `Idempotency.SectionsNeverOverlap` | planbuddy_v9/middleware/idempotency.js:219-260 | while Redis stays up and the sections of a scoped key end before their lock expires, handler sections of that key never overlap, whatever happens to other keys |
| `Idempotency.SectionsOverlapExactlyWhen` | planbuddy_v9/middleware/idempotency.js:144-151 | while a request is in its section and does not move, one that has looked up in vain can enter its own before a given time if and only if Redis fails, was not ready for it, the lock is not there or runs out before that time, or a third request is still to end a section of the key, which deletes the lock whoever set it |
| `Idempotency.SlowHandlersOverlap` | planbuddy_v9/middleware/idempotency.js:219-260 | a run from an empty store, everything up, in which a handler as slow as the lock's 30 seconds is joined by a second one |
| `Idempotency.StaleReleaseOverlaps` | planbuddy_v9/middleware/idempotency.js:304-310 | a run from an empty store, everything up, in which a slow handler releases its successor's lock, and a third request joins the successor although that lock had its whole time to live left |
| `Idempotency.LookupReplaysLastStored` | planbuddy_v9/middleware/idempotency.js:184-202 | a lookup replays exactly the most recently stored 2xx status and body while unexpired, and misses otherwise |
| `Idempotency.LateLookupNeverExecutes` | planbuddy_v9/middleware/idempotency.js:184-202 | a request that had not looked up when a 2xx response was stored, or comes later, never reaches its handler before that response expires |
| `Idempotency.MayExecuteExactlyWhen` | planbuddy_v9/middleware/idempotency.js:184-260 | while a response is cached and Redis answers, a request may still run its handler if and only if it is past both lookups, or past the Redis lookup (or sent past it by a pending deletion) and the database does not answer or has no row that lasts as long, and the lock is free, runs out or is released in time |
| `Idempotency.RepeatsExactlyWhen` | planbuddy_v9/middleware/idempotency.js:184-260 | the same for every state reached from an empty store, where no deletion can be pending and a lock runs out within 30 seconds |
| `Idempotency.RepeatsAreUnbounded` | planbuddy_v9/middleware/idempotency.js:224-260 | for every n, a run from an empty store with everything up enters handlers of one key n times although its response is stored |
| `Idempotency.StoredRowIsFoundExactlyWhen` | planbuddy_v9/middleware/idempotency.js:116-134 | the upsert keeps the old expiry: a stored response is found in the database exactly when there was no row or its old expiry is still ahead |
| `Idempotency.OldRowsRepeatOneAtATime` | planbuddy_v9/middleware/idempotency.js:116-134 | with Redis down, once a row has expired every later request runs its handler: n repeats for every n, by requests that come one at a time |
| `WorkerSlots.Worker.BeginPoll` | base-worker.js:186-231 | a poll asks for min(free slots, batch) items, and for none when it is gated or no slot is free |
| `WorkerSlots.Worker.EndPoll` | base-worker.js:249-259 | every claimed item takes one slot and starts |
| `WorkerSlots.Worker.FinishItem` | base-worker.js:251-254 | a settled item frees one slot; the last one resolves all drain waiters in order, any other none |
| `WorkerSlots.Worker.DrainWait` | base-worker.js:417-420 | resolves at once at zero slots and waits otherwise |
| `WorkerSlots.SlotsAndWaiters` | base-worker.js:249-255 | over every run, overlapping polls included, _activeSlots is the number of running items, each waiter is resolved once and at zero slots, and none is left waiting at zero |
| `WorkerSlots.EveryWaiterIsKept` | base-worker.js:417-427 | over every run, whoever called _drain, and nobody else, is waiting or resolved, never both, and waits only while an item runs |
| `WorkerSlots.LastItemResolvesAll` | base-worker.js:251-255 | the end of the last running item resolves everybody who waits, in the order they came; the end of any other resolves nobody |
| `WorkerSlots.SlotsAreBounded` | base-worker.js:215-256 | without overlapping polls the slots in use never exceed the concurrency the last claiming poll read, hence no maximum of what polls read |
| `WorkerSlots.SlotsStayWithinMaximum` | base-worker.js:215-256 | over every run of a worker together with its controller, from the start of both, the slots in use never exceed the configured maximum, if polls do not overlap |
| `WorkerSlots.BoundHoldsExactlyWhen` | base-worker.js:215-256 | overlapping or not, the polls under way keep the slots within a bound if and only if the slots in use plus the limits of these polls are within it |
| `WorkerSlots.OverlappingPollsExceedTheBound` | base-worker.js:166-174 | two overlapping polls can use twice the concurrency both read |
| `AdaptiveController.Controller.CanProcess` | adaptive-controller.js:62-87 | the half-open transition, then the verdict, and a probe used up for every half-open yes |
| `AdaptiveController.Controller.OnSuccess` | adaptive-controller.js:89-108 | resets, half-open success counting and closing, and the gain every 20 successes |
| `AdaptiveController.Controller.OnFailure` | adaptive-controller.js:110-123 | streak reset, opening at the threshold, and halving |
| `AdaptiveController.Controller.OnRateLimited` | adaptive-controller.js:128-144 | streak reset, a failure counted from the third hit on, and halving |
| `AdaptiveController.RunKeepsInvariant` | adaptive-controller.js:62-251 | over every event sequence: min <= concurrency <= max; at most max(min, initial/4) while draining; openedAt set exactly when not closed; at most PROBE_COUNT probes |
| `AdaptiveController.SetbacksHalve` | adaptive-controller.js:110-144 | k failures and rate-limit hits in a row, in any order, take c to max(min, floor(c / 2^k)) |
| `AdaptiveController.SuccessesAdd` | adaptive-controller.js:102-107 | n successes from streak s, closed and not draining, add min(max - c, floor((s+n)/20) - floor(s/20)) |
| `AdaptiveController.DrainingPinsExactlyWhen` | adaptive-controller.js:210-227 | over all runs from the start, draining means the minimum if and only if initial/4 is not above the minimum; otherwise probes that succeed during the drain raise it |
| `AdaptiveController.OpenWindowIsShut` | adaptive-controller.js:194-208 | no poll passes and the circuit stays open for the whole open timeout |
| `AdaptiveController.OpeningStartsAFullWindow` | adaptive-controller.js:110-123 | only a failure at the threshold opens the circuit, and no poll passes for a full open timeout after it |
| `AdaptiveController.HalfOpenPeriod` | adaptive-controller.js:72-84 | within a half-open period polls and successes are counted one for one, and at most PROBE_COUNT polls pass |
| `AdaptiveController.ClosesOnlyAfterProbes` | adaptive-controller.js:93-100 | a half-open period admits at most PROBE_COUNT polls and closes only with the PROBE_COUNT-th success recorded in it |
| `AdaptiveController.UsedUpProbesStayShut` | adaptive-controller.js:76-83 | used-up probes leave the circuit half open and shut for ever if what is still running cannot move it by its reports |
| `AdaptiveController.RecoversExactlyWhen` | adaptive-controller.js:72-144 | with n reports and m rate-limit hits to come, a half-open circuit lets a poll through again if and only if a probe is left, or n >= 1 and the successes can reach PROBE_COUNT or the failures, with the hits that count, the threshold |
| `AdaptiveController.EmptyPollsStick` | adaptive-controller.js:76-83 | every setting has a run from the start in which polls that claim nothing use up the probes, and which ends half open and shut with no item running |
| `AdaptiveController.StuckIsForever` | adaptive-controller.js:76-83 | from such a state no poll is let through again, however long it waits |
| `AdaptiveController.AllReportedAndStuckExactlyWhen` | base-worker.js:226-259 | even if every poll that is let through claims one item or more, and every item reports, a run from the start can end stuck, if and only if the threshold is at least 2 or PROBE_COUNT is 0 |
| `CircuitBreaker.Breaker.BeginCall` | planbuddy_v9/utils/circuitBreakerUtil.js:38-63 | counts the call, fails fast inside the window, and turns half open after it |
| `CircuitBreaker.Breaker.CallSucceeded` | planbuddy_v9/utils/circuitBreakerUtil.js:75-92 | closes at the success threshold when half open; resets failures when closed; changes no mode when open |
| `CircuitBreaker.Breaker.CallFailed` | planbuddy_v9/utils/circuitBreakerUtil.js:94-122 | reopens when half open; opens at the failure threshold when closed; changes no mode when open |
| `CircuitBreaker.RunKeepsInvariant` | planbuddy_v9/utils/circuitBreakerUtil.js:38-122 | requests = successes + errors + fast failures + in flight; closed and half-open counters stay below their thresholds |
| `CircuitBreaker.OpensExactlyAtThreshold` | planbuddy_v9/utils/circuitBreakerUtil.js:94-120 | a closed circuit opens exactly with the failure that makes failureThreshold of them since the last success |
| `CircuitBreaker.OpenWindowRefuses` | planbuddy_v9/utils/circuitBreakerUtil.js:41-52 | inside the window every call fails fast, and late results neither close the circuit nor move the deadline |
| `CircuitBreaker.OpeningStartsAFullWindow` | planbuddy_v9/utils/circuitBreakerUtil.js:97-120 | only a failure opens the circuit, and without reset no wrapped call begins for a full timeout after it |
| `CircuitBreaker.HalfOpenAdmitsAll` | planbuddy_v9/utils/circuitBreakerUtil.js:54-66 | a half-open circuit does not limit its trial calls |
| `CircuitBreaker.OpenIsLeftExactlyBy` | planbuddy_v9/utils/circuitBreakerUtil.js:41-63 | an open circuit is left exactly by a call at or after the deadline, and closed from there only by a reset |
| `CircuitBreaker.RecoveryBegins` | planbuddy_v9/utils/circuitBreakerUtil.js:54-63 | the first call at or after the deadline is admitted, makes the circuit half open, and starts the successes at zero |
| `CircuitBreaker.OpenCircuitRecoversExactlyWhen` | planbuddy_v9/utils/circuitBreakerUtil.js:54-90 | after that call, while no call fails, the circuit is closed if and only if successThreshold calls have ended |
| `CircuitBreaker.OneFailureReopens` | planbuddy_v9/utils/circuitBreakerUtil.js:97-120 | one failure in a half-open circuit opens it for a full timeout in which every call is refused |
| `ShardRouter.Router.ComputeWorkerShards` | shard-router.js:88-97 | the loop collects the worker's residue class in order and falls back to all shards when it is empty |
| `ShardRouter.Router.GetWorkerShards` | shard-router.js:107-130 | cache first, then a non-empty query answer, which is cached, else all shards |
| `ShardRouter.ExactShards` | shard-router.js:88-97 | with at least as many shards as workers, worker i has exactly the shards congruent to i |
| `ShardRouter.ShardsAreDisjoint` | shard-router.js:88-97 | then no shard belongs to two workers |
| `ShardRouter.SharesAreFair` | shard-router.js:88-97 | then the sizes of any two workers' sets differ by at most one |
| `ShardRouter.SurplusWorkersTakeAll` | shard-router.js:88-97 | with more workers than shards, worker i below the number of shards owns exactly shard i and the rest own all |
| `ShardRouter.EveryJobIsServed` | base-worker.js:159-164 | for any number of workers and shards, a due job with a computed shard key is eligible for some worker's claim, and that worker's wakeup filter matches it |
| `ShardRouter.ClaimsStayInShard` | atomic-engine.js:81-111 | over any run in which workers claim with the shards of their index, and with at least as many shards as workers, worker i is given only rows whose shard key is congruent to i |
| `ShardRouter.ShardsHaveOneWorker` | atomic-engine.js:81-111 | then rows of one shard are only ever given to one worker |
| `ShardRouter.WakesExactlyForItsShards` | base-worker.js:159-164 | then a wakeup with a shard reaches worker i exactly if the table is its own and the shard is congruent to i; one without a shard reaches every worker of the table |
| `Backpressure.Gate.Admit` | planbuddy_v9/middleware/backpressure.js:153-210 | counts, decides by tier, and uncounts a refused request |
| `Backpressure.Gate.OnFinish` | planbuddy_v9/middleware/backpressure.js:213-215 | releases one slot, never below zero |
| `Backpressure.Gate.OnClose` | planbuddy_v9/middleware/backpressure.js:230-234 | releases one slot if the response had not ended |
| `Backpressure.ActiveIsCounted` | planbuddy_v9/middleware/backpressure.js:153-234 | given one release per admitted response, activeRequests is the number admitted and unreleased, and stays below 98% of the maximum |
| `Backpressure.ActiveRequestsAreTheKeptSlots` | planbuddy_v9/middleware/backpressure.js:153-234 | in any run from the start without a double release, activeRequests is the number of requests that were admitted and have since neither finished nor closed before their end |
| `Backpressure.AdmitsAgainExactlyWhen` | planbuddy_v9/middleware/backpressure.js:162-190 | without a release, another request can be admitted if and only if the count leaves room below 98% of the maximum |
| `Backpressure.LeaksShutTheGate` | planbuddy_v9/middleware/backpressure.js:230-234 | from the start there is a run after which every admitted response has closed and nobody is ever admitted again |
| `Backpressure.TiersAreMonotoneExactlyWhen` | planbuddy_v9/middleware/backpressure.js:162-190 | a state that admits a lower tier admits every higher one, at all loads, exactly if warning <= critical <= 0.98 |
| `Money.PaiseRoundTrip` | planbuddy_v9/utils/money.js:19-51 | for every whole p up to 10^14 and every rounding, rupeesToPaise(paiseToRupees(p)) = p, the Math.round copy agrees, and so does toCanonicalPaise in either unit |
| `Money.PaisePrintExactly` | planbuddy_v9/utils/money.js:40-51 | toFixed(2) prints exactly the paise given, whatever the division rounds to |
| `Money.RupeesComeBack` | planbuddy_v9/config/razorpay.js:49-51 | on a number printed from p paise, both conversions give p |

## Left out

- SideEffects.OncePerKey: no journal entry is deleted during a run (the repository has no cleanup of the journal); the branch for an entry deleted meanwhile hands out no token and is modelled in acquireSideEffectSlot alone.
- Idempotency.SectionsNeverOverlap: assumes that Redis answers and that sections end before their lock expires; what happens otherwise is SectionsOverlapExactlyWhen. The catch-all for an unexpected error, which deletes the lock key and calls the handler, is not modelled: every await in front of it handles its own errors.
- WorkerSlots.SlotsStayWithinMaximum: assumes that polls of one worker do not overlap; without that the exact condition is BoundHoldsExactlyWhen.
- Backpressure.ActiveIsCounted: assumes that no admitted response releases twice; what the counter then is, responses that never release included, is ActiveRequestsAreTheKeptSlots.
- Money.PaiseRoundTrip: rounding half up of amounts with half a paisa is not claimed; the relative error of a floating-point operation allows both results there.
- AdaptiveController: one object per queue key instead of one object with a map per field; the keys do not influence each other.
- The outbox functions: the same claim, commit and sweep statements as the job table's, with a counter of another name.
- The v2 execution log, token buckets and region leadership: thin statements, or database functions that are not part of this model.
- SQL text, drivers, pools, Express wiring, logging, metrics, HMAC and SHA-256: the effect of a statement is modelled, verdicts and hashes are arguments.
- queue_shards rows written at registration: only the in-memory affinity cache is modelled.
- getPriorityTier and the bypass for health paths: a prefix table; the tier is an argument.
- Counters that are only reported (slow responses, worker statistics).
