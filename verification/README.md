# Atlas: verified models of its durable protocols

Atlas is a Telegram assistant. Under its chat surface sits a set of small protocols with
durable state, time and failure: a database-backed scheduler, an outbox that delivers
messages and temporary "thinking" bubbles, a two-level rate limiter, a text chunker, a model
chain with pooled API keys, nested provider failover under one lock, a two-step data reset,
a welcome conversation, the agent's tool loop and a memory with weighted confidence. This
project models each of them in Dafny and proves what they promise over whole runs.

Objects that the program updates in place are classes whose methods are proved equal to a
specification function of the old state; what the program promises is then proved about
those functions, over runs of any length. Times are integer ticks (seconds) except in the
limiter, the sender and the confidence arithmetic, which use reals.

| file | what it models |
|---|---|
| `Scheduler.dfy`, `SchedulerRuns.dfy` | one sweep; whole runs, the fire-time orbit, several workers with stale reads |
| `Sender.dfy` | one send or delete with retries, limiter grants and backoff |
| `Outbox.dfy`, `OutboxRuns.dfy` | rows, repository and drain; every reachable state of a single worker |
| `Processor.dfy` | the reply path that writes a bubble and a reply, end to end with the outbox |
| `OutboxWorkers.dfy`, `OutboxHistory.dfy` | several workers with disjoint claims, commits and aborts; the one history their commits come to |
| `OutboxAborts.dfy` | the single worker with drains that die; the bubbles they leave on screen |
| `RateLimit.dfy`, `RateLimiting.dfy` | one token bucket; the global and per-chat levels with any number of callers |
| `Chunker.dfy`, `ChunkShape.dfy`, `ChunkCoverage.dfy` | the chunking loops; paragraphs and packing; coverage, lengths, termination |
| `KeyPool.dfy`, `KeyPoolRuns.dfy` | key parking; requests that overlap in every possible way |
| `Gateway.dfy`, `GatewayRuns.dfy`, `GatewayOverlap.dfy` | the model chain; runs of completions; completions that overlap |
| `Failover.dfy`, `FailoverTasks.dfy` | one nested completion; interleaved completions around the lock |
| `Store.dfy`, `Reset.dfy`, `Onboarding.dfy`, `OnboardingChats.dfy`, `Composer.dfy` | stored data; the reset guard; the welcome conversation, turn by turn and as a whole; both composed over whole chats |
| `BriefingJobs.dfy` | the daily briefing job that onboarding creates, as the scheduler then runs it |
| `Agent.dfy` | one agent turn with tool rounds |
| `Whitespace.dfy`, `Order.dfy` | white space and stripping; the order in which names first appear |
| `Memory.dfy` | memory rows and their confidence |

## Where the code and its documentation differ

The model follows the code.

- `chunk_text` says "at most `max_chars`" (`app/application/ingestion/chunker.py:6-10`). Packing
  can exceed it by the carried overlap and a newline; `ChunkCoverage.AlwaysFitsIff` gives the
  exact condition and `ChunkCoverage.ChunkLengths` the true bound.
- An overlap of at least `max_chars` makes the hard split loop for ever, and an overlap of 0
  carries a whole chunk over; `ChunkCoverage.HardSplitEndsIff` and the model of `current[-0:]`.
- The scheduler advances from one minute after the fire time, so an every-minute cron fires
  every second minute (`SchedulerRuns.EveryMinuteFiresEverySecond`), and exactly the crons with
  a gap of at most one minute lose boundaries (`SchedulerRuns.EveryBoundaryFiresIff`).
- `wipe_user` says that job events are left untouched
  (`app/application/reset.py:133-137`), but they go with their jobs by the foreign key's cascade
  (`app/domain/entities.py:222-224`).
- A bubble is deleted after the final send, not before it (`app/infrastructure/telegram/outbox_worker.py:91-95`).
- Onboarding's time parser accepts minutes above 59 and, with am or pm, hours above 23; such a
  briefing is dispatched at every sweep (`BriefingJobs.AnswerParsesIff`, `BriefingJobs.ImproperBriefFiresAlways`).
- A later park replaces a longer earlier one (`KeyPool.LaterParkDecides`), and a later skip window a longer
  earlier one (`GatewayOverlap.OverlapDoesAsk`).
- A memory's confidence "rises toward the new value" (`app/infrastructure/db/repositories/memory_jobs_outbox.py:73-78`),
  but rounding keeps it from ever arriving unless the first repeat does (`Memory.RepeatsReachIff`), and a negative
  confidence is stored as it is (`Memory.StoredConfidenceIsProper`).
- Building the agent's context and its final tools-free completion run outside the turn's `try`,
  so "always returns a reply" has these two exceptions and no other (`Agent.RaisesIff`).
- `FailoverGateway` serialises completions so that requests do not overlap, but the program may use
  a pooled provider without it (`app/main.py:284`, `app/main.py:312`); `KeyPoolRuns` says what parks
  are worth then, and when one is cut short.

## Model

| member | source | states |
|---|---|---|
| Scheduler.NextIsLeastBoundary | app/application/scheduling/cron.py:24-34 | the next fire time is the least one strictly after the given instant |
| Scheduler.SchedulerWorker.RecordRun | app/infrastructure/db/repositories/memory_jobs_outbox.py:188-217 | only the first claim of a job and fire time succeeds, and the ledger then holds it |
| Scheduler.SchedulerWorker.SweepJob | app/application/scheduling/worker.py:101-152 | one due job: misfire recovery, ledger claim, dispatch and advance, against the ledger as it stands |
| Scheduler.SchedulerWorker.SweepOnce | app/application/scheduling/worker.py:91-154 | the jobs, ledger, dispatches and count after a whole sweep are those of the jobs taken in order |
| Scheduler.SweepGoesInOrder | app/application/scheduling/worker.py:99-143 | what a sweep dispatches, in the order of the jobs: enabled jobs with a handler, each at its own fire time that has come and is at most the grace old |
| Scheduler.SweepProgress | app/application/scheduling/worker.py:99-153 | after a sweep each job that is still enabled waits for a later instant iff its cron parses or it already did, for grace up to one minute |
| Scheduler.GraceBound | app/application/scheduling/worker.py:111-148 | one minute is exactly the largest grace for which every firing moves the job past the present, whatever the cron |
| Scheduler.SweepIsIdempotent | app/application/scheduling/worker.py:91-154 | repeating a sweep at the same instant dispatches nothing and changes no job and no ledger entry |
| SchedulerRuns.SweepIsPerJob | app/application/scheduling/worker.py:99-152 | in a sweep over any jobs with distinct ids each job steps as if it were alone |
| SchedulerRuns.RunFiresOrbit | app/application/scheduling/worker.py:91-154 | the exact dispatch history of a job over any run of sweeps at most grace apart |
| SchedulerRuns.EveryBoundaryFiresIff | app/application/scheduling/worker.py:145-152 | every run of sweeps in time dispatches a job at every cron boundary, in order and once each, iff boundaries are more than one minute apart |
| SchedulerRuns.ExactlyOnce | app/application/scheduling/worker.py:91-154 | over any paced run every boundary up to the last sweep is dispatched once, in order, and at no other time |
| SchedulerRuns.DispatchedIff | app/application/scheduling/worker.py:91-154 | misfires included: over sweeps at any increasing instants a boundary is dispatched iff a sweep comes at most grace after it and one comes between it and the boundary before, in order and once each |
| SchedulerRuns.EveryMinuteFiresEverySecond | app/application/scheduling/worker.py:145-146 | over every run of sweeps in time an every-minute cron is dispatched at exactly every second minute |
| SchedulerRuns.StuckJobFiresEverySweep | app/application/scheduling/worker.py:102-104 | a job without a next run and with an unparseable cron is dispatched by every sweep of every run |
| SchedulerRuns.OneOffConservation | app/application/scheduling/worker.py:128-152 | a job whose handler retires it trades its one life for one dispatch: the sum never changes over any run |
| SchedulerRuns.OneOffRunsOnce | app/application/scheduling/worker.py:128-152 | a one-off job that some sweep catches in time is dispatched exactly once, at its own fire time, and is disabled afterwards |
| SchedulerRuns.IdleJobNeverRuns | app/application/scheduling/worker.py:91-143 | over any run neither a disabled job nor one of a kind without a handler is ever dispatched |
| SchedulerRuns.LastRunIsLastFiring | app/application/scheduling/worker.py:145-152 | over any run the stored last run is the instant of the last sweep that dispatched the job, which a misfire is not |
| SchedulerRuns.AtMostOnceWithStaleReads | app/application/scheduling/worker.py:124-153 | with any number of workers on arbitrarily old reads, no job and fire time is dispatched twice, since claim and dispatch commit together |
| Sender.TelegramSender.SendMessage | app/infrastructure/telegram/sender.py:41-103 | the result and the exact sequence of grants, calls and pauses of one send |
| Sender.TelegramSender.DeleteMessage | app/infrastructure/telegram/sender.py:105-142 | the result and the exact sequence of grants, calls for the message and pauses of one delete |
| Sender.SendDeliversIff | app/infrastructure/telegram/sender.py:41-103 | a send delivers iff some call within the budget is accepted after transient failures only |
| Sender.SendIsExact | app/infrastructure/telegram/sender.py:41-103 | to the letter: calls go on until one does not fail transiently or the budget is used up, a grant before each and after each failure the pause it earns; the result is that of the last call; what cannot be sent is not called for |
| Sender.DeleteIsExact | app/infrastructure/telegram/sender.py:105-142 | the same calls, grants and pauses for a delete of the message named, gone iff the last call removed it or did not find it |
| Sender.DeleteSucceedsIff | app/infrastructure/telegram/sender.py:105-142 | gone iff some call within the budget removed it or did not find it after transient failures only; with any budget the API is called, for this chat and message |
| Sender.SendIsBoundedAndGranted | app/infrastructure/telegram/sender.py:41-103 | at most `max_attempts` API calls, each one directly after a limiter grant |
| Sender.BackoffBounds | app/infrastructure/telegram/sender.py:144-148 | the pause is the server's own, or the capped exponential plus at most a tenth and at most a second of jitter |
| Outbox.OutboxRepository.Enqueue | app/infrastructure/db/repositories/memory_jobs_outbox.py:224-232 | the new row is appended as given and nothing else changes |
| Outbox.OutboxRepository.ClaimDue | app/infrastructure/db/repositories/memory_jobs_outbox.py:234-246 | the claimed rows are due, distinct, in priority order, at most the limit, and no due row left out comes before one taken |
| Outbox.ClaimIsFirstInFirstOut | app/infrastructure/db/repositories/memory_jobs_outbox.py:234-246 | first in, first out within a priority: of the waiting rows whose retry time has come higher priorities go first and older before younger, twenty at most, and none is left behind but by twenty that go before it |
| Outbox.OutboxRepository.MarkRowSent | app/infrastructure/db/repositories/memory_jobs_outbox.py:248-252 | the row is marked sent and no other row changes |
| Outbox.OutboxRepository.MarkRowFailed | app/infrastructure/db/repositories/memory_jobs_outbox.py:254-264 | the row waits for its retry time, or has failed for good without one |
| Outbox.OutboxRepository.GetSentStatus | app/infrastructure/db/repositories/memory_jobs_outbox.py:272-285 | the latest bubble of the correlation that is on screen, if any |
| Outbox.LatestShownIsYoungest | app/infrastructure/db/repositories/memory_jobs_outbox.py:272-285 | no bubble of the correlation on screen is younger than the one found |
| Outbox.OutboxRepository.SupersedeStatuses | app/infrastructure/db/repositories/memory_jobs_outbox.py:287-300 | exactly the waiting bubbles of the correlation are cancelled |
| Outbox.OutboxRepository.ExpireStatuses | app/infrastructure/db/repositories/memory_jobs_outbox.py:302-318 | the stale bubbles, oldest first, at most the limit |
| Outbox.ExpiryIsOldestFirst | app/infrastructure/db/repositories/memory_jobs_outbox.py:302-318 | bubbles, waiting or on screen, whose age exceeds the TTL, oldest first, twenty at most, and none past the TTL is left behind but by twenty no younger |
| Outbox.OutboxWorker.DeliverStatus | app/infrastructure/telegram/outbox_worker.py:128-151 | a captured send with an id marks the bubble sent; one without an id counts as a failure |
| Outbox.OutboxWorker.CleanupStatus | app/infrastructure/telegram/outbox_worker.py:153-168 | the shown bubble is deleted, with the calls of a delete of its message, and closed; waiting ones are cancelled |
| Outbox.OutboxWorker.ExpireStale | app/infrastructure/telegram/outbox_worker.py:170-188 | every selected stale bubble is closed, with a delete call if it was on screen |
| Outbox.OutboxWorker.DrainOnce | app/infrastructure/telegram/outbox_worker.py:71-126 | the rows, the log and all grants, calls and pauses of a whole drain are those of the expiry and of the claimed rows in claim order |
| Outbox.DeletesAreCarriedOut | app/infrastructure/telegram/outbox_worker.py:153-188 | every delete that a drain logs, by a settled reply or by the TTL, is an API call after a grant, for that chat and message |
| OutboxRuns.SettledRowsStay | app/infrastructure/db/repositories/memory_jobs_outbox.py:234-318 | in every reachable state attempts respect the limit, and a failed row, or a sent text row, never changes again |
| OutboxRuns.TextRowAccounting | app/infrastructure/telegram/outbox_worker.py:91-126 | per text row: deliveries equal attempts plus success, accepted once iff marked sent, at most worker times sender limit API calls, failed only on the last attempt |
| OutboxRuns.DeliveryIsExact | app/infrastructure/telegram/outbox_worker.py:78-151 | one delivery to the letter: calls for the row's own chat only; a text is sent once accepted, a bubble once its number is known too, and anything else is a failure with its retry time, or the last; without a chat there is no call and no second attempt |
| OutboxRuns.FailedRowWaits | app/infrastructure/telegram/outbox_worker.py:105-151 | in every reachable state a row that waits after k failures is due exactly the k-th pause after the answer to its k-th delivery, its last: the base doubled with every failure, up to the maximum |
| OutboxRuns.RetrySpacing | app/infrastructure/db/repositories/memory_jobs_outbox.py:254-264 | the answer to a row's k-th delivery and that to any later one are at least the k-th pause apart, the base doubled k - 1 times up to the maximum, which never shrinks |
| OutboxRuns.ClaimsWait | app/infrastructure/db/repositories/memory_jobs_outbox.py:234-246 | a drain that claims a row does so no earlier than the answer to any of its earlier deliveries plus the pause it earned |
| OutboxRuns.BubbleClosure | app/infrastructure/telegram/outbox_worker.py:91-95 | a settled reply has no bubble left, for good, and a bubble once on screen was deleted in its own chat |
| OutboxRuns.ShownBubblesAreDeleted | app/infrastructure/telegram/outbox_worker.py:153-188 | in every reachable state a bubble that ever got a Telegram id is still marked on screen or was asked to be deleted in its own chat, by its reply or by the TTL sweep |
| OutboxRuns.ReplyIsLegalWhenItComes | app/interfaces/telegram/processor.py:197-243 | a reply written after its committed bubble fits the protocol whatever was drained in between |
| OutboxRuns.BubbleMustComeFirst | app/interfaces/telegram/processor.py:200-243 | why bubbles have the higher priority: of an exchange claimed together and accepted by Telegram, the bubble is gone after the drain iff it was claimed first |
| OutboxRuns.CleanupLeavesNoneIff | app/infrastructure/telegram/outbox_worker.py:153-168 | for any rows, a cleanup leaves no bubble of a correlation iff at most one was on screen |
| OutboxRuns.SettledReplyLeavesNoneIff | app/infrastructure/telegram/outbox_worker.py:91-126 | for any rows, correlations shared or not, a reply that settles leaves no bubble iff at most one of its correlation was on screen |
| Processor.UpdateProcessor.ShowBubble | app/interfaces/telegram/processor.py:197-212 | the bubble row is written and committed before anything is composed |
| Processor.UpdateProcessor.WriteReply | app/interfaces/telegram/processor.py:215-254 | the reply row and the assistant's line in the conversation, fallbacks and already stored replies aside |
| Processor.UpdateProcessor.MaybeReply | app/interfaces/telegram/processor.py:187-255 | both rows, the commit and the conversation after the whole reply path |
| Processor.BubbleGoesFirst | app/interfaces/telegram/processor.py:197-243 | both rows are for the message's chat and due at once, the bubble is claimed before the reply, and it alone goes stale, once older than the TTL |
| Processor.ReplyIs | app/interfaces/telegram/processor.py:215-254 | the reply is the composer's text, sanitised, or without one the fallback; kept in the conversation is what is not empty, not the fallback and not stored already |
| Processor.BothRowsAreLegal | app/interfaces/telegram/processor.py:197-243 | both enqueues fit the outbox protocol whatever the worker did before and between |
| Processor.ExchangeLeavesNoBubble | app/interfaces/telegram/processor.py:187-255 | end to end: once the reply is delivered or given up its bubble is closed for good, and deleted if it was ever seen |
| OutboxWorkers.DeliveredOncePlusAborts | app/infrastructure/telegram/outbox_worker.py:71-126 | over all interleavings a text row is accepted at most once more than the aborted drains that delivered it, and committed as sent only if delivered |
| OutboxWorkers.AbortLosesNothing | app/infrastructure/db/uow.py:71-78 | whatever a drain had sent and all other workers did meanwhile, when it dies each row it claimed is, attempts included, as it was and claimable again |
| OutboxWorkers.AbortedDrainLeavesNoTrace | app/infrastructure/db/uow.py:71-78 | without a dead drain's steps the same run is allowed and ends with the same rows and open drains |
| OutboxWorkers.CommittedRowsAreSerial | app/infrastructure/telegram/outbox_worker.py:71-126 | however workers interleave and die, the committed rows are what the committed deliveries make of the enqueued rows one at a time, each of a row due just before it when it was claimed |
| OutboxWorkers.TextRowsSettle | app/infrastructure/db/repositories/memory_jobs_outbox.py:234-264 | with any number of workers and aborts a row's attempts stay within the limit and count its committed deliveries, it fails only on the last, and once settled no later run touches it |
| OutboxWorkers.RetriesAreSpaced | app/infrastructure/db/repositories/memory_jobs_outbox.py:254-264 | with any number of workers, of two committed deliveries of a row the later is claimed only when the pause the earlier earned, the base doubled with every failure up to the maximum, is over |
| OutboxAborts.OrphansAreAborted | app/infrastructure/telegram/outbox_worker.py:71-188 | what crashes leave on screen: when a reply is settled the copies of its bubble never taken down are exactly those a drain put up and, dying, did not take down itself |
| RateLimit.TokenBucket.TryAcquire | app/infrastructure/telegram/rate_limit.py:18-30 | one poll: lazy refill, grant or computed sleep |
| RateLimit.TokenBucket.Acquire | app/infrastructure/telegram/rate_limit.py:18-30 | a lone caller is granted at its first poll or after exactly one computed sleep |
| RateLimit.LoneWaiterIsGranted | app/infrastructure/telegram/rate_limit.py:18-30 | after a refusal, sleeping as told is enough iff the bucket can hold a token |
| RateLimit.SleepIsExact | app/infrastructure/telegram/rate_limit.py:18-30 | the computed sleep is exact: a lone refused caller of a bucket that can hold a token is granted at a later instant iff it has slept that long |
| RateLimit.RefusedPollsAreInvisible | app/infrastructure/telegram/rate_limit.py:18-30 | a run's refused polls can be dropped without changing its grants or its bucket |
| RateLimit.GrantedIffRoom | app/infrastructure/telegram/rate_limit.py:18-30 | a poll is granted iff every window ending now has room for one more grant: the bucket is exactly the window limit |
| RateLimit.WindowBound | app/infrastructure/telegram/rate_limit.py:18-30 | grants in any window are at most burst plus rate times its length, and the level stays between 0 and burst |
| RateLimiting.RateLimiter.PollGlobal | app/infrastructure/telegram/rate_limit.py:42-44 | a poll of the global bucket leaves all chat buckets alone |
| RateLimiting.RateLimiter.PollChat | app/infrastructure/telegram/rate_limit.py:42-44 | a poll of a chat's bucket, created full on demand, leaves the other buckets alone |
| RateLimiting.ChatWindow | app/infrastructure/telegram/rate_limit.py:33-44 | with any number of callers, completions for a chat in any window are at most burst plus its rate times the length |
| RateLimiting.PassedWindow | app/infrastructure/telegram/rate_limit.py:33-44 | the same for passing the global level |
| RateLimiting.GlobalWindow | app/infrastructure/telegram/rate_limit.py:33-44 | completions over all chats in a window are at most burst plus rate times length plus the callers already past the global level |
| Chunker.SplitBlocks | app/application/ingestion/chunker.py:38-51 | the blocks are the paragraphs between blank lines |
| Chunker.HardSplit | app/application/ingestion/chunker.py:54-63 | the pieces are the overlapping windows of the text, whenever the loop ends, and the start that ends it comes after as many rounds as there are pieces |
| Chunker.ChunkText | app/application/ingestion/chunker.py:6-35 | the chunks are the packed and stripped blocks, whenever the inner loop ends |
| ChunkCoverage.BlocksKeepText | app/application/ingestion/chunker.py:38-51 | splitting into paragraphs loses nothing but white space |
| ChunkShape.BlocksAreRuns | app/application/ingestion/chunker.py:38-51 | the blocks are the longest runs of lines that are not blank, in order and all of them, each its lines joined; a text of blank lines is one block |
| ChunkShape.JoinedLinesAreText | app/application/ingestion/chunker.py:38-51 | a text's lines joined are the text |
| ChunkShape.LinesOfJoin | app/application/ingestion/chunker.py:38-51 | joined lines split into themselves: a paragraph keeps its line breaks |
| ChunkShape.StripIsExact | app/application/ingestion/chunker.py:35 | stripping takes off the white space at both ends, all of it and nothing else |
| ChunkShape.FittingShareAChunk | app/application/ingestion/chunker.py:20-32 | paragraphs that fit together, and with what the chunk already holds, share the chunk |
| ChunkShape.PackingIsGreedy | app/application/ingestion/chunker.py:20-32 | the first paragraph that does not fit closes the chunk and starts the next after what is carried over, or is cut into windows if it is too long for any |
| ChunkShape.ChunksAre | app/application/ingestion/chunker.py:13-35 | a short text is returned as it is; a longer one as stripped windows, or from 4000 characters on as stripped, packed paragraphs; a size that is not positive counts as 12000 |
| ChunkShape.ChunksAreStripped | app/application/ingestion/chunker.py:35 | no chunk of a text too long for one is empty or begins or ends with white space |
| ChunkCoverage.WindowsRebuildText | app/application/ingestion/chunker.py:54-63 | the windows without their overlaps rebuild the block exactly |
| ChunkCoverage.WindowsAreBounded | app/application/ingestion/chunker.py:54-63 | every window is within the size, and its overlap is the end of the one before |
| ChunkCoverage.WindowsAtStarts | app/application/ingestion/chunker.py:54-63 | the i-th piece is the window at the loop's i-th start |
| ChunkCoverage.HardSplitEndsIff | app/application/ingestion/chunker.py:54-63 | the loop's starts reach the end of the text iff it fits in one window or the overlap is below the size |
| ChunkCoverage.ChunkCoverage | app/application/ingestion/chunker.py:6-35 | without what they carry over, the pieces behind the chunks hold exactly the text's non-white-space characters, in order and once each, and stripping them into the returned chunks loses none |
| ChunkCoverage.ChunkLengths | app/application/ingestion/chunker.py:6-35 | every chunk is non-empty, at most size plus overlap plus one long, and each carry ends the chunk before |
| ChunkCoverage.AlwaysFitsIff | app/application/ingestion/chunker.py:6-35 | exactly when no text at all has a chunk longer than the size |
| KeyPool.FirstUsable | app/infrastructure/llm/keys.py:77-84 | the earliest key not parked, and none only if all are |
| KeyPool.Dedupe | app/infrastructure/llm/keys.py:62-69 | the list built by the constructor's loop |
| KeyPool.DedupedIsFaithful | app/infrastructure/llm/keys.py:62-69 | exactly the non-empty keys, once each |
| KeyPool.DedupedKeepsOrder | app/infrastructure/llm/keys.py:62-69 | the keys stay in the order of first appearance, so the primary comes first |
| KeyPool.MakePool | app/infrastructure/llm/keys.py:62-71 | a pool over the distinct keys, nothing parked, or none exactly when every key is empty |
| KeyPool.NextMidnightIsNext | app/infrastructure/llm/keys.py:27-32 | a day-long park ends at the first start of a UTC day strictly later |
| KeyPool.GroqKeyPool.Current | app/infrastructure/llm/keys.py:77-84 | the scan returns the earliest key not parked |
| KeyPool.GroqKeyPool.Park | app/infrastructure/llm/keys.py:90-106 | exactly the named key's time is set, an unknown key is ignored |
| KeyPoolRuns.EarliestFreeKeyIsUsed | app/infrastructure/llm/keys.py:77-106 | in every interleaving of requests and responses a request gets exactly the earliest key whose last-answered park is over |
| KeyPoolRuns.AnswerParks | app/infrastructure/llm/gateway.py:242-255 | in every interleaving a response that reports a limit parks its own request's key, until the next UTC midnight for a daily one and for a minute otherwise, and no other response parks any; a single key is never parked |
| KeyPoolRuns.CutShortIff | app/infrastructure/llm/keys.py:97-99 | inside the window of a park its key is free iff a later-answered, last park of it is already over |
| KeyPoolRuns.OnlyOverlapCutsAPark | app/infrastructure/llm/gateway.py:219-255 | a key is used inside a window it was parked for only if a request already under way then was answered after with a shorter park |
| KeyPoolRuns.SerialKeysRest | app/infrastructure/llm/gateway.py:426-430 | with one request at a time no key is used inside a window it was parked for |
| KeyPoolRuns.OverlapDoesCut | app/infrastructure/llm/gateway.py:242-255 | a run of overlapping requests after which a key parked until midnight is used a minute later |
| Gateway.OpenRouterGateway.constructor | app/infrastructure/llm/gateway.py:74-77 | the model list is the primary and then the non-empty fallbacks in their order, free of duplicates |
| Gateway.OpenRouterGateway.SyncRegistry | app/infrastructure/llm/gateway.py:96-107 | catalogue models are appended, each new one once |
| Gateway.OpenRouterGateway.PostOnce | app/infrastructure/llm/gateway.py:216-288 | one request: its key, its verdict on the key, its classification |
| Gateway.OpenRouterGateway.Skip | app/infrastructure/llm/gateway.py:109-113 | the model is skipped for the rate-limit time after a 429 and for the long time otherwise |
| Gateway.OpenRouterGateway.RunModel | app/infrastructure/llm/gateway.py:146-203 | all requests for one model and the skip they end in |
| Gateway.OpenRouterGateway.CompleteChat | app/infrastructure/llm/gateway.py:119-214 | result, requests, parks and skips of one completion |
| GatewayRuns.RegistryOnlyAdds | app/infrastructure/llm/gateway.py:103-105 | the list stays free of duplicates, keeps its order and gains exactly the new models |
| GatewayRuns.RegistryKeepsOrder | app/infrastructure/llm/gateway.py:103-105 | new models are appended in the catalogue's order |
| GatewayRuns.RequestsWalkTheList | app/infrastructure/llm/gateway.py:115-203 | requests go down the list from the first unskipped model, repeat only after transient failures, miss no free model and number at most models times retries plus one |
| GatewayRuns.TransientFailuresAreRetried | app/infrastructure/llm/gateway.py:146-193 | a transient failure is repeated: a model given up after one was asked exactly once more often than there are retries, all in a row |
| GatewayRuns.ResultIsExact | app/infrastructure/llm/gateway.py:119-214 | the result to the letter: the answer, the other error or the rejected key of the last request, else empty iff some model answered with nothing, else failed, or skipped without a free model; nothing is asked once it is known |
| GatewayRuns.FirstAnswerIsReturned | app/infrastructure/llm/gateway.py:146-180 | a completion replies iff some request was answered, with that answer, and asks nothing after it |
| GatewayRuns.RejectedKeyStops | app/infrastructure/llm/gateway.py:194-195 | a 401 or 403 ends the completion at once, and nothing else makes it fail as unauthorised |
| GatewayRuns.FailedModelsAreSkipped | app/infrastructure/llm/gateway.py:172-198 | a model that failed with a status or came back empty is in a skip window from its last request on; others keep theirs |
| GatewayRuns.WindowsAreExact | app/infrastructure/llm/gateway.py:109-200 | the skip windows a completion leaves, to the tick: the short time after a 429, the long one after other statuses and empty answers, from the last request on; anything else leaves the window as it was |
| GatewayRuns.SkippedModelRests | app/infrastructure/llm/gateway.py:109-117 | over any run of completions a skipped model is not asked again before its window ends |
| GatewayOverlap.ChainIsWhatIsOver | app/infrastructure/llm/gateway.py:115-117 | in every interleaving of completions a chain is exactly the listed models whose window that was opened last is over |
| GatewayOverlap.OnlyOverlapAsksASkippedModel | app/infrastructure/llm/gateway.py:109-200 | a model is asked inside its skip window only by a completion that took its chain before the window opened, or after such a one replaced it with one that ends earlier |
| GatewayOverlap.OverlapDoesAsk | app/infrastructure/llm/gateway.py:109-117 | both happen, in a run of three completions |
| GatewayRuns.ParkedKeyRests | app/infrastructure/llm/gateway.py:219-255 | over any run of completions a key parked for a day or a minute is not used before that time |
| GatewayRuns.RequestParksIff | app/infrastructure/llm/gateway.py:242-255 | a request parks its key iff it met a 429 that names a daily or a minute limit and the pool has several keys; daily first, until the next start of a UTC day, else for a minute |
| GatewayRuns.OutcomesTellResponses | app/infrastructure/llm/gateway.py:216-288 | over any run each request's outcome is told by its response both ways: transient iff 429, 5xx or a per-minute 413, answered iff the body has content |
| Failover.LeftToRightIsUnique | app/infrastructure/llm/gateway.py:464-494 | trying leaves left to right determines the calls and the result |
| Failover.Completion.Complete | app/infrastructure/llm/gateway.py:436-462 | any nesting gives the left-to-right result, takes the lock once and leaves lock and flag as they were on every outcome |
| Failover.Completion.Run | app/infrastructure/llm/gateway.py:464-494 | the backup is tried after a gateway error of the primary and after nothing else |
| FailoverTasks.OneTaskInside | app/infrastructure/llm/gateway.py:444-462 | in every interleaving at most one task is inside a failover tree, and the lock says which |
| FailoverTasks.TurnsAreSerialised | app/infrastructure/llm/gateway.py:419-430 | between two calls of one task inside the lock no other task calls a provider |
| FailoverTasks.EveryTaskGoesLeftToRight | app/infrastructure/llm/gateway.py:436-494 | however tasks interleave, each calls a prefix of its leaves and finishes with the left-to-right result, lock released |
| FailoverTasks.SomeTaskCanGoOn | app/infrastructure/llm/gateway.py:32-38 | no deadlock: while a task is unfinished some task can step |
| FailoverTasks.RunsEnd | app/infrastructure/llm/gateway.py:436-494 | every run is finite, bounded by the trees' work |
| Reset.ResetGuard.TakeTurn | app/application/reset.py:81-121 | the reply and stored data of one guard turn |
| Reset.ResetGuard.ClearPending | app/application/reset.py:124-130 | only the mark goes |
| Reset.ResetGuard.WipeUser | app/application/reset.py:133-154 | all user tables and the profile after a wipe |
| Reset.WipeIsExact | app/application/reset.py:133-154 | the profile is as new and exactly the user's rows, and what hangs on them, are gone; nobody else's profile changes |
| Reset.WipeLeavesNoOrphans | app/domain/entities.py:217-230 | no message or run event is left without its conversation or job |
| Onboarding.OnboardingEngine.TakeTurn | app/application/onboarding.py:182-304 | the reply and stored data of one onboarding turn |
| Onboarding.OnboardingEngine.AddToWatchlist | app/application/onboarding.py:272-274 | symbols not yet watched are added in order |
| Onboarding.WatchingKeepsOrder | app/application/onboarding.py:272-274 | new symbols are watched in the order in which they were named |
| Onboarding.OnboardingEngine.EnsureMorningBrief | app/application/onboarding.py:341-354 | a daily briefing job is added iff the user has no enabled one |
| Onboarding.TurnMakesProgress | app/application/onboarding.py:182-335 | each turn of an unfinished user strictly shortens what is left, touches no other profile, asks exactly the question stored as the next step, ends without the agent iff a file came, and names the stored time when it closes; a finished user is left alone |
| Onboarding.TimeIsRead | app/application/onboarding.py:454-469 | for hours 1 to 12 pm gives h mod 12 + 12 and am h mod 12, minutes are kept, an unmarked hour is kept up to 23 and refused above |
| Onboarding.NoSecondBrief | app/application/onboarding.py:337-354 | no turn adds a second enabled briefing for anyone, and after the briefing question there is one |
| Onboarding.TurnKeepsUnique | app/application/onboarding.py:262-289 | no turn violates the unique keys of watch list and memories |
| OnboardingChats.ChatIsOneSave | app/application/onboarding.py:182-354 | from any state and however the conversation goes, what it stores is one save of the answers found in its messages alone |
| OnboardingChats.EveryAnswerCounts | app/application/onboarding.py:182-354 | a user who never breaks off ends up with the answered role, interests and briefing time, am and pm included, in the profile, both memories under their keys with confidence 0.9 and 0.85 merged into what was known, the symbols of both answers watched and an enabled briefing, and nobody else's profile changes |
| OnboardingChats.InterestsAreListed | app/application/onboarding.py:262-270 | what the interests memory says: the interests in order, separated by commas |
| Composer.AgentComposer.Respond | app/interfaces/telegram/responder.py:151-183 | reset guard first, then onboarding, then the agent; a wipe opens a fresh conversation |
| Composer.WipeStartsAfresh | app/interfaces/telegram/responder.py:159-170 | a wiped user is left with one conversation holding only the reply |
| Composer.ResetAndOnboardingKeepApart | app/interfaces/telegram/responder.py:151-183 | onboarding never runs with a readable reset mark stored, and the guard never moves the onboarding step |
| Composer.AgentOnlyAfterOnboarding | app/interfaces/telegram/responder.py:172-232 | the agent answers only users who completed onboarding, and never a reset turn |
| Composer.AgentAnswersIff | app/interfaces/telegram/responder.py:151-232 | the agent's work is stored iff no reset is armed or asked for and the sender is through with onboarding, asks for the agent or skips the first question, the latter two without a file; else nothing it would do makes a difference |
| Composer.WipeNeedsTwoSteps | app/application/reset.py:81-121 | over whole chats of any users a turn wipes iff it confirms a reset armed by an earlier turn within ten minutes with only `/reset` from that user between |
| Composer.GuardAnswersExactly | app/application/reset.py:81-121 | the guard's answer to every message of every chat: while a reset is armed `/reset` repeats it, a confirmation wipes and anything else cancels; otherwise `/reset` arms it and the guard is quiet |
| Composer.OnboardingEnds | app/application/onboarding.py:182-335 | onboarding takes at most six turns, five without Google, until the next wipe; who has used them up is through, and completion is for good |
| BriefingJobs.AnswerDecidesDispatches | app/application/onboarding.py:278-289 | from an answer to the briefing question to the log: the job it creates is dispatched at the first sweep and then once a day if its numbers are a time of day, and at every sweep if not |
| BriefingJobs.EightSeventyFive | app/application/onboarding.py:454-469 | the answer "8:75" is accepted and makes a briefing that every sweep dispatches |
| BriefingJobs.AnswerParsesIff | app/application/onboarding.py:454-469 | an answer's cron parses iff its numbers are a time of day |
| BriefingJobs.ProperBriefFiresDaily | app/application/onboarding.py:341-354 | a proper briefing is dispatched at the first sweep and then exactly once a day at its time |
| BriefingJobs.ImproperBriefFiresAlways | app/application/scheduling/worker.py:102-104 | an improper one is dispatched at every sweep |
| Agent.AgentCore.RunOnce | app/application/agent/core.py:75-219 | end, requests and tool runs of a turn, and the recorded error |
| Agent.AgentCore.RunRound | app/application/agent/core.py:116-206 | one round of the loop |
| Agent.AgentCore.ExecuteCalls | app/application/agent/core.py:192-206 | one result per call, in order, until one raises |
| Agent.AgentCore.FinalPlainReply | app/application/agent/core.py:221-256 | the last pass without tools |
| Agent.TurnEndsExactly | app/application/agent/core.py:92-256 | how every turn ends, read off its last completion: a reply iff there is text and no call, or the tools-free pass; the gateway's error, an empty text, any other exception and used-up rounds each with their own reason; an exception leaves iff the tools-free pass met one |
| Agent.StartsOpen | app/application/agent/core.py:104-109 | a turn starts from its context, with a nudge exactly if that does not end in a user message or a tool result |
| Agent.TurnRequests | app/application/agent/core.py:116-219 | at most `max_tool_rounds` + 2 completions, only the last without tools |
| Agent.RequestsAreOpenIff | app/application/agent/core.py:104-109 | every request ends in a user or tool message iff there was context or no round at all |
| Agent.EveryCallIsAnswered | app/application/agent/core.py:173-206 | each tool-call message is at once followed by one result per call with matching ids in order, and there are no other results |
| Agent.RequestsFollowResponses | app/application/agent/core.py:116-206 | each request adds to the one before it exactly the response's own calls with their results, or the re-prompt |
| Agent.ResultsAreOutcomes | app/application/agent/core.py:192-206 | the t-th tool result is the outcome of the t-th tool execution |
| Agent.RepromptedAtMostOnce | app/application/agent/core.py:130-158 | the market re-prompt is made iff the first response is text without calls to a market question, and at most once |
| Agent.QuestionIsLastOfUser | app/application/agent/core.py:130-136 | the question that decides is the text of the last user message |
| Agent.UnaidedMarketAnswerWasReprompted | app/application/agent/core.py:130-158 | a market question answered without any tool run was re-prompted |
| Agent.RaisesIff | app/application/agent/core.py:92-219 | an exception leaves the turn iff building the context raised it or the final pass met one that is not the gateway's own; a reply is always the stripped text of the last response |
| Memory.MemoryRepository.UpsertObservation | app/infrastructure/db/repositories/memory_jobs_outbox.py:64-104 | the active row is reinforced, or a first one is added |
| Memory.MergeContracts | app/infrastructure/db/repositories/memory_jobs_outbox.py:82-85 | what is stored is at most 1, is in [0, 1] unless something negative went in, and moves to within 0.6 of its distance from the capped observation plus the rounding error |
| Memory.RepeatsConverge | app/infrastructure/db/repositories/memory_jobs_outbox.py:82-85 | after n repeats of any observation the value is within 0.6^n of the first distance from it, capped at 1, plus 0.000125 |
| Memory.RepeatsReachIff | app/infrastructure/db/repositories/memory_jobs_outbox.py:82-85 | plain convergence fails, exactly: from any first confidence, rounded or not, repeats of a four-decimal observation reach it iff it is less than 1/12000 away, ties going to even units |
| Memory.SettledIff | app/infrastructure/db/repositories/memory_jobs_outbox.py:82-85 | exactly which observations leave a stored four-decimal value unchanged, the cap included |
| Memory.MemoriesAreIndependent | app/infrastructure/db/repositories/memory_jobs_outbox.py:45-104 | after any interleaving of observations each memory has at most one active row, the one its own observations make |
| Memory.StoredConfidenceIsProper | app/infrastructure/db/repositories/memory_jobs_outbox.py:64-104 | in every history active confidences are at most 1, are in [0, 1] while no observation was negative, and versions count the observations; a first observation is stored as it is up to the cap |
| Memory.RowTellsItsHistory | app/infrastructure/db/repositories/memory_jobs_outbox.py:64-104 | in every history an active row holds the last observed value and time, and the last source that was named |

## Left out

- Scheduler handlers: a run is its dispatch and whether it disables its own job; errors of a handler are swallowed by the worker and change nothing here, and a handler that breaks the database session is not modelled.
- Cron parsing, time zones and daylight saving: a cron is its set of fire times; one sweep is one atomic transaction.
- SQL, sessions, dialects and migrations: tables are sequences of rows; ties in an `ORDER BY` may fall either way; rows locked by others are simply not claimed.
- OutboxRuns.BubbleClosure: states the single outbox worker the program starts, one bubble and one chat to a correlation, and no aborted drains, for which see OutboxAborts.OrphansAreAborted; two workers read bubbles without locks.
- OutboxAborts.OrphansAreAborted: the single worker, and a chat whose message numbers are never used twice, as Telegram promises.
- OutboxWorkers.DeliveredOncePlusAborts: covers text rows with arbitrary disjoint claims; bubbles are left to the single-worker model.
- OutboxWorkers.RetriesAreSpaced: assumes a clock that does not go back between a row's claim and the answer to its delivery.
- SchedulerRuns.DispatchedIff: for crons whose boundaries are more than one minute apart; which others lose boundaries is SchedulerRuns.EveryBoundaryFiresIff.
- Processor.BothRowsAreLegal: the exchange's correlation is new to the outbox. A client can reuse one through the `x-correlation-id` header (`app/interfaces/api/routes/webhook.py:53`); OutboxRuns.SettledReplyLeavesNoneIff says for all rows when a bubble then stays behind, and OutboxRuns.OwnCorrelationShowsOne that none does without reuse.
- Processor.ExchangeLeavesNoBubble: like Processor.BothRowsAreLegal, an exchange whose correlation is new.
- GatewayRuns.SkippedModelRests: states completions one after the other; completions of a bare gateway that overlap are in `GatewayOverlap.dfy`, which assumes a monotonic clock and sees a model's whole turn as one event.
- Outcomes of delete calls: they never influence a row. All deletes of one drain meet the same sequence of API replies; the text of a message is not part of a call.
- RateLimiting.GlobalWindow: monotonic clock readings are assumed not to decrease across callers, and sleeping is any passage of time.
- KeyPoolRuns.OnlyOverlapCutsAPark: assumes wall-clock readings that do not decrease.
- GatewayRuns.ParkedKeyRests: states completions one after the other, as behind the failover lock, and a clock that does not go back; for overlapping requests of a bare pooled provider the results of `KeyPoolRuns` hold instead.
- HTTP, JSON and provider details: a response is its status, the rate-limit markers found in it and what its content amounts to; timeouts are failures without a status. Retry pauses, request bodies and per-model body extras are left out.
- Failover.Completion.Complete: one task alone, with the lock free or its own; waiting for another task's lock is in `FailoverTasks.dfy`.
- Processor.UpdateProcessor.MaybeReply: the incoming message's own persistence, its duplicate check, media ingestion and debug notes; sanitising is any text function.
- FailoverTasks.EveryTaskGoesLeftToRight: cancellation of a task is an exception like any other, and tasks do not start tasks of their own while inside the lock.
- Regular expressions of the command, confirmation, skip, role, interest, symbol and market-question parsers: what they found is part of the input.
- Composer.AgentComposer.Respond: the agent, templates and deterministic answers are one step that may leave any table contents; the incoming message and ordinary replies are not persisted in the model, and turns of one process run one after the other.
- Commits inside an onboarding turn: a turn is one step, so a crash between two of its commits is not modelled.
- Watch-list deactivation, memory superseding, alert cooldowns, documents, connectors, OAuth, media pipeline, routing, prompts and sanitising: one-branch facts or I/O over libraries.
- Agent context assembly: it yields any message sequence or an exception. Cancellation of a turn, which the turn's `except` does not catch, is not modelled.
- Floating point: confidences and limiter arithmetic are over the reals, with the four-decimal rounding written out.
- `truncate_excerpt`, `cron_from_local_time` and `extract_clock_time`: single expressions.
